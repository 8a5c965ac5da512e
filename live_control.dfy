/** The live control loop: collect a window of inertial samples, reduce it to
    a 12-entry feature vector, classify it, and dispatch the label to the
    arm. The sensor is a pair of reading functions indexed by the reading's
    number; mean, standard deviation and the classifier are parameters whose
    behaviour is not modelled. */
module LiveControl {
  import opened ArmControl

  /** Samples per window. */
  const WINDOW_SIZE: nat := 40
  /** Values per sample: three acceleration axes, then three angular-rate axes. */
  const AXES: nat := 6

  datatype Vec3 = Vec3(x: real, y: real, z: real)

  type Sample = s: seq<real> | |s| == AXES witness [0.0, 0.0, 0.0, 0.0, 0.0, 0.0]

  /** One sample in the order the script lists it. */
  function SampleOf(accel: Vec3, gyro: Vec3): Sample
  {
    [accel.x, accel.y, accel.z, gyro.x, gyro.y, gyro.z]
  }

  /** The window the sensor yields from reading number `t` on. */
  function WindowAt(accel: nat -> Vec3, gyro: nat -> Vec3, t: nat): seq<Sample>
  {
    var w := seq(WINDOW_SIZE, k requires 0 <= k => SampleOf(accel(t + k), gyro(t + k)));
    assert forall k :: 0 <= k < |w| ==> w[k] == SampleOf(accel(t + k), gyro(t + k));
    w
  }

  /** `collect_window`: read samples until the window holds WINDOW_SIZE of
      them. */
  method CollectWindow(accel: nat -> Vec3, gyro: nat -> Vec3, t: nat) returns (window: seq<Sample>)
    ensures |window| == WINDOW_SIZE
    ensures forall k :: 0 <= k < |window| ==> window[k] == SampleOf(accel(t + k), gyro(t + k))
  {
    window := [];
    while |window| < WINDOW_SIZE
      invariant |window| <= WINDOW_SIZE
      invariant forall k :: 0 <= k < |window| ==> window[k] == SampleOf(accel(t + k), gyro(t + k))
    {
      var sample := SampleOf(accel(t + |window|), gyro(t + |window|));
      window := window + [sample];
    }
  }

  /** The values of one axis across a window (`window[:, axis]`). */
  function Column(window: seq<Sample>, axis: nat): seq<real>
    requires axis < AXES
  {
    seq(|window|, k requires 0 <= k < |window| => window[k][axis])
  }

  /** The features of the first `axes` axes: mean then standard deviation of
      each, axis by axis. */
  function Features(window: seq<Sample>, mean: seq<real> -> real, std: seq<real> -> real, axes: nat): (f: seq<real>)
    requires axes <= AXES
    ensures |f| == 2 * axes
    ensures forall i :: 0 <= i < axes ==>
      f[2 * i] == mean(Column(window, i)) && f[2 * i + 1] == std(Column(window, i))
  {
    if axes == 0 then []
    else Features(window, mean, std, axes - 1) + [mean(Column(window, axes - 1)), std(Column(window, axes - 1))]
  }

  /** `extract_features`: a 12-entry vector whose entry 2i is the mean and
      entry 2i + 1 the standard deviation of axis i. */
  method ExtractFeatures(window: seq<Sample>, mean: seq<real> -> real, std: seq<real> -> real)
    returns (features: seq<real>)
    ensures features == Features(window, mean, std, AXES)
    ensures |features| == 2 * AXES
    ensures forall i :: 0 <= i < AXES ==>
      features[2 * i] == mean(Column(window, i)) && features[2 * i + 1] == std(Column(window, i))
  {
    features := [];
    for i := 0 to AXES
      invariant features == Features(window, mean, std, i)
    {
      var axisData := Column(window, i);
      features := features + [mean(axisData), std(axisData)];
    }
  }

  /** The label predicted for the `cycle`-th window. */
  function PredictionAt(accel: nat -> Vec3, gyro: nat -> Vec3, mean: seq<real> -> real, std: seq<real> -> real,
                        predict: seq<real> -> string, cycle: nat): string
  {
    predict(Features(WindowAt(accel, gyro, cycle * WINDOW_SIZE), mean, std, AXES))
  }

  /** `main`'s loop, for `cycles` cycles: collect, extract, predict, dispatch.
      The arm ends where dispatching the predicted labels in order leads, has
      written exactly the servo writes of those dispatches, and is within its
      limits. */
  method RunLive(arm: Arm, accel: nat -> Vec3, gyro: nat -> Vec3, mean: seq<real> -> real,
                 std: seq<real> -> real, predict: seq<real> -> string, cycles: nat)
    returns (predictions: seq<string>)
    requires arm.Valid()
    modifies arm`leftAngle, arm`bigAngle, arm`writes
    ensures arm.Valid()
    ensures |predictions| == cycles
    ensures forall c :: 0 <= c < cycles ==> predictions[c] == PredictionAt(accel, gyro, mean, std, predict, c)
    ensures arm.State() == Run(arm.config, old(arm.State()), predictions)
    ensures arm.writes == old(arm.writes) + RunWrites(arm.config, old(arm.State()), predictions)
  {
    predictions := [];
    var t := 0;
    while |predictions| < cycles
      invariant |predictions| <= cycles
      invariant t == |predictions| * WINDOW_SIZE
      invariant arm.Valid()
      invariant forall c :: 0 <= c < |predictions| ==> predictions[c] == PredictionAt(accel, gyro, mean, std, predict, c)
      invariant arm.State() == Run(arm.config, old(arm.State()), predictions)
      invariant arm.writes == old(arm.writes) + RunWrites(arm.config, old(arm.State()), predictions)
    {
      var window := CollectWindow(accel, gyro, t);
      assert window == WindowAt(accel, gyro, t);
      var features := ExtractFeatures(window, mean, std);
      var prediction := predict(features);
      var report := arm.Apply(prediction);
      var before := predictions;
      predictions := predictions + [prediction];
      assert predictions[..|predictions| - 1] == before;
      t := t + WINDOW_SIZE;
    }
  }
}
