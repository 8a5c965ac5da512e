/** The gesture-to-servo actuation controller of the live script: two joint
    angles that persist across control cycles, the left (vertical) joint moved
    by "up"/"down" and the big (base-rotation) joint moved by "left"/"right",
    each in fixed steps clamped to its limits, with every change of a recorded
    angle followed by a write of that angle to its servo channel.

    The pure functions below are the specification; class `Arm` holds the
    state the script keeps in module-level globals and is proved against them. */
module ArmControl {

  /** Servo channels of the two joints. */
  const LEFT_SERVO: nat := 0
  const BIG_SERVO: nat := 2

  /** Both joints start at this angle, and it is written to both servos. */
  const NEUTRAL_ANGLE: int := 90

  /** The big joint's safe right/left angles and the step of both joints. */
  const BIG_MIN: int := 20
  const BIG_MAX: int := 160
  const STEP_DEGREES: int := 20

  /** Joint limits and step size. The script never defines the left joint's
      limits, so they are configuration here. */
  datatype Config = Config(leftMin: int, leftMax: int, bigMin: int, bigMax: int, step: int)

  predicate ValidConfig(c: Config)
  {
    c.leftMin <= c.leftMax && c.bigMin <= c.bigMax && c.step > 0
  }

  /** The script's configuration, completed with left-joint limits. */
  function ScriptConfig(leftMin: int, leftMax: int): Config
  {
    Config(leftMin, leftMax, BIG_MIN, BIG_MAX, STEP_DEGREES)
  }

  datatype ArmState = ArmState(left: int, big: int)

  /** The safety invariant: each joint within its limits. */
  predicate InRange(c: Config, s: ArmState)
  {
    c.leftMin <= s.left <= c.leftMax && c.bigMin <= s.big <= c.bigMax
  }

  datatype ServoWrite = ServoWrite(channel: nat, angle: int)

  /** What one movement call did: moved a joint (and wrote its new angle to
      its channel), found it already at the limit, or did nothing because the
      direction or gesture is not one it handles. */
  datatype Report = Moved(channel: nat, angle: int) | AtLimit(channel: nat) | NoMove

  /** The servo writes a movement with this report issues. */
  function WritesOf(r: Report): seq<ServoWrite>
  {
    if r.Moved? then [ServoWrite(r.channel, r.angle)] else []
  }

  function Min(a: int, b: int): int { if a <= b then a else b }
  function Max(a: int, b: int): int { if a >= b then a else b }

  /** `move_left_servo`: "up" steps toward leftMax, "down" toward leftMin. */
  function MoveLeftServo(c: Config, s: ArmState, direction: string): (ArmState, Report)
  {
    if direction == "up" then
      if s.left < c.leftMax then
        var a := Min(s.left + c.step, c.leftMax);
        (s.(left := a), Moved(LEFT_SERVO, a))
      else (s, AtLimit(LEFT_SERVO))
    else if direction == "down" then
      if s.left > c.leftMin then
        var a := Max(s.left - c.step, c.leftMin);
        (s.(left := a), Moved(LEFT_SERVO, a))
      else (s, AtLimit(LEFT_SERVO))
    else (s, NoMove)
  }

  /** `move_big_servo`: "left" steps toward bigMax, "right" toward bigMin. */
  function MoveBigServo(c: Config, s: ArmState, direction: string): (ArmState, Report)
  {
    if direction == "left" then
      if s.big < c.bigMax then
        var a := Min(s.big + c.step, c.bigMax);
        (s.(big := a), Moved(BIG_SERVO, a))
      else (s, AtLimit(BIG_SERVO))
    else if direction == "right" then
      if s.big > c.bigMin then
        var a := Max(s.big - c.step, c.bigMin);
        (s.(big := a), Moved(BIG_SERVO, a))
      else (s, AtLimit(BIG_SERVO))
    else (s, NoMove)
  }

  /** The gesture dispatch of the control loop. */
  function Dispatch(c: Config, s: ArmState, gesture: string): (ArmState, Report)
  {
    if gesture == "up" then MoveLeftServo(c, s, "up")
    else if gesture == "down" then MoveLeftServo(c, s, "down")
    else if gesture == "left" then MoveBigServo(c, s, "left")
    else if gesture == "right" then MoveBigServo(c, s, "right")
    else (s, NoMove)
  }

  predicate IsGesture(gesture: string)
  {
    gesture == "up" || gesture == "down" || gesture == "left" || gesture == "right"
  }

  /** The joint angles after dispatching `gestures` in order. */
  function Run(c: Config, s: ArmState, gestures: seq<string>): ArmState
  {
    if gestures == [] then s
    else Dispatch(c, Run(c, s, gestures[..|gestures| - 1]), gestures[|gestures| - 1]).0
  }

  /** The servo writes issued while dispatching `gestures` in order. */
  function RunWrites(c: Config, s: ArmState, gestures: seq<string>): seq<ServoWrite>
  {
    if gestures == [] then []
    else
      var before := Run(c, s, gestures[..|gestures| - 1]);
      RunWrites(c, s, gestures[..|gestures| - 1]) + WritesOf(Dispatch(c, before, gestures[|gestures| - 1]).1)
  }

  /** `k` copies of one gesture. */
  function Repeat(gesture: string, k: nat): (r: seq<string>)
    ensures |r| == k && forall i :: 0 <= i < k ==> r[i] == gesture
  {
    if k == 0 then [] else Repeat(gesture, k - 1) + [gesture]
  }

  // ---------------------------------------------------------------------
  // Properties of one dispatch

  /** One dispatch keeps both joints within their limits. */
  lemma DispatchKeepsInRange(c: Config, s: ArmState, gesture: string)
    requires ValidConfig(c) && InRange(c, s)
    ensures InRange(c, Dispatch(c, s, gesture).0)
  {
  }

  /** "left" moves the big joint strictly toward bigMax by at most one step
      and stops exactly at bigMax when the step would pass it; "right"
      mirrors this toward bigMin. */
  lemma BigJointClamp(c: Config, s: ArmState)
    requires ValidConfig(c)
    ensures var a := Dispatch(c, s, "left").0.big;
      s.big < c.bigMax ==> s.big < a <= c.bigMax && a <= s.big + c.step && (a == c.bigMax || a == s.big + c.step)
    ensures var a := Dispatch(c, s, "right").0.big;
      s.big > c.bigMin ==> c.bigMin <= a < s.big && a >= s.big - c.step && (a == c.bigMin || a == s.big - c.step)
  {
  }

  /** "up" and "down" obey the same rule on the left joint. */
  lemma LeftJointClamp(c: Config, s: ArmState)
    requires ValidConfig(c)
    ensures var a := Dispatch(c, s, "up").0.left;
      s.left < c.leftMax ==> s.left < a <= c.leftMax && a <= s.left + c.step && (a == c.leftMax || a == s.left + c.step)
    ensures var a := Dispatch(c, s, "down").0.left;
      s.left > c.leftMin ==> c.leftMin <= a < s.left && a >= s.left - c.step && (a == c.leftMin || a == s.left - c.step)
  {
  }

  /** At a limit, a gesture that pushes further changes nothing, writes
      nothing and reports the limit. */
  lemma LimitIdempotent(c: Config, s: ArmState)
    ensures s.big >= c.bigMax ==> Dispatch(c, s, "left") == (s, AtLimit(BIG_SERVO))
    ensures s.big <= c.bigMin ==> Dispatch(c, s, "right") == (s, AtLimit(BIG_SERVO))
    ensures s.left >= c.leftMax ==> Dispatch(c, s, "up") == (s, AtLimit(LEFT_SERVO))
    ensures s.left <= c.leftMin ==> Dispatch(c, s, "down") == (s, AtLimit(LEFT_SERVO))
  {
  }

  /** A servo write happens exactly when a recorded angle changes; it goes
      to the channel of the joint that changed and carries its new angle. */
  lemma WriteIffChanged(c: Config, s: ArmState, gesture: string)
    requires ValidConfig(c)
    ensures var (t, r) := Dispatch(c, s, gesture);
      (r.Moved? <==> t != s) &&
      (r.Moved? ==> (r.channel == LEFT_SERVO && r.angle == t.left && t.big == s.big) ||
                    (r.channel == BIG_SERVO && r.angle == t.big && t.left == s.left))
  {
  }

  /** "up"/"down" only move the left joint, "left"/"right" only the big
      joint, and any other gesture moves nothing and writes nothing. */
  lemma DispatchSeparation(c: Config, s: ArmState, gesture: string)
    ensures (gesture == "up" || gesture == "down") ==>
      Dispatch(c, s, gesture).0.big == s.big && !Dispatch(c, s, gesture).1.NoMove? && Dispatch(c, s, gesture).1.channel == LEFT_SERVO
    ensures (gesture == "left" || gesture == "right") ==>
      Dispatch(c, s, gesture).0.left == s.left && !Dispatch(c, s, gesture).1.NoMove? && Dispatch(c, s, gesture).1.channel == BIG_SERVO
    ensures !IsGesture(gesture) ==> Dispatch(c, s, gesture) == (s, NoMove)
  {
  }

  // ---------------------------------------------------------------------
  // Properties of a sequence of dispatches

  /** Whatever the classifier outputs, both joints stay within their limits. */
  lemma {:induction false} RunKeepsInRange(c: Config, s: ArmState, gestures: seq<string>)
    requires ValidConfig(c) && InRange(c, s)
    ensures InRange(c, Run(c, s, gestures))
  {
    if gestures != [] {
      RunKeepsInRange(c, s, gestures[..|gestures| - 1]);
      DispatchKeepsInRange(c, Run(c, s, gestures[..|gestures| - 1]), gestures[|gestures| - 1]);
    }
  }

  /** Every servo write ever issued carries an angle within its joint's
      limits, so the servos are never commanded out of range. */
  lemma {:induction false} RunWritesInRange(c: Config, s: ArmState, gestures: seq<string>)
    requires ValidConfig(c) && InRange(c, s)
    ensures forall w :: w in RunWrites(c, s, gestures) ==>
      (w.channel == LEFT_SERVO && c.leftMin <= w.angle <= c.leftMax) ||
      (w.channel == BIG_SERVO && c.bigMin <= w.angle <= c.bigMax)
  {
    if gestures != [] {
      var init := gestures[..|gestures| - 1];
      RunWritesInRange(c, s, init);
      RunKeepsInRange(c, s, init);
      var before := Run(c, s, init);
      DispatchKeepsInRange(c, before, gestures[|gestures| - 1]);
      WriteIffChanged(c, before, gestures[|gestures| - 1]);
    }
  }

  /** Labels outside the four gestures never move the arm or write a servo. */
  lemma {:induction false} UnknownLabelsInert(c: Config, s: ArmState, gestures: seq<string>)
    requires forall i :: 0 <= i < |gestures| ==> !IsGesture(gestures[i])
    ensures Run(c, s, gestures) == s
    ensures RunWrites(c, s, gestures) == []
  {
    if gestures != [] {
      UnknownLabelsInert(c, s, gestures[..|gestures| - 1]);
    }
  }

  lemma StepMultiple(k: nat, step: int)
    requires k > 0
    ensures (k - 1) * step + step == k * step
  {
  }

  /** After `k` "left" gestures from an in-range angle the big joint is at
      min(angle + k * step, bigMax): it never decreases, and it reaches
      bigMax after ceil((bigMax - angle) / step) gestures and stays there. */
  lemma {:induction false} RepeatedLeft(c: Config, s: ArmState, k: nat)
    requires ValidConfig(c) && s.big <= c.bigMax
    ensures Run(c, s, Repeat("left", k)).big == Min(s.big + k * c.step, c.bigMax)
    ensures Run(c, s, Repeat("left", k)).left == s.left
  {
    if k > 0 {
      var gestures := Repeat("left", k);
      assert gestures[..k - 1] == Repeat("left", k - 1);
      var prev := Run(c, s, Repeat("left", k - 1));
      assert Run(c, s, gestures) == Dispatch(c, prev, "left").0;
      RepeatedLeft(c, s, k - 1);
      StepMultiple(k, c.step);
    }
  }

  /** After `k` "right" gestures the big joint is at
      max(angle - k * step, bigMin). */
  lemma {:induction false} RepeatedRight(c: Config, s: ArmState, k: nat)
    requires ValidConfig(c) && s.big >= c.bigMin
    ensures Run(c, s, Repeat("right", k)).big == Max(s.big - k * c.step, c.bigMin)
    ensures Run(c, s, Repeat("right", k)).left == s.left
  {
    if k > 0 {
      var gestures := Repeat("right", k);
      assert gestures[..k - 1] == Repeat("right", k - 1);
      var prev := Run(c, s, Repeat("right", k - 1));
      assert Run(c, s, gestures) == Dispatch(c, prev, "right").0;
      RepeatedRight(c, s, k - 1);
      StepMultiple(k, c.step);
    }
  }

  /** From the neutral 90 degrees with the script's big-joint limits and
      step, "left" gives 110, 130, 150, 160, 160. */
  lemma LeftFromNeutral(leftMin: int, leftMax: int)
    requires leftMin <= leftMax
    ensures var c, s := ScriptConfig(leftMin, leftMax), ArmState(NEUTRAL_ANGLE, NEUTRAL_ANGLE);
      InRange(c, s) <==> leftMin <= NEUTRAL_ANGLE <= leftMax
    ensures var c, s := ScriptConfig(leftMin, leftMax), ArmState(NEUTRAL_ANGLE, NEUTRAL_ANGLE);
      Run(c, s, Repeat("left", 1)).big == 110 && Run(c, s, Repeat("left", 2)).big == 130 &&
      Run(c, s, Repeat("left", 3)).big == 150 && Run(c, s, Repeat("left", 4)).big == 160 &&
      Run(c, s, Repeat("left", 5)).big == 160
  {
    var c, s := ScriptConfig(leftMin, leftMax), ArmState(NEUTRAL_ANGLE, NEUTRAL_ANGLE);
    RepeatedLeft(c, s, 1);
    RepeatedLeft(c, s, 2);
    RepeatedLeft(c, s, 3);
    RepeatedLeft(c, s, 4);
    RepeatedLeft(c, s, 5);
  }

  // ---------------------------------------------------------------------
  // The left joint as the script is written

  datatype Outcome = Returned(left: int) | NameError(name: string)

  /** `move_left_servo` as written: its limits LEFT_MIN and LEFT_MAX are
      never defined, so the comparison in the "up" or "down" branch raises
      NameError before the angle is touched; other directions fall through. */
  function MoveLeftServoAsWritten(left: int, direction: string): Outcome
  {
    if direction == "up" then NameError("LEFT_MAX")
    else if direction == "down" then NameError("LEFT_MIN")
    else Returned(left)
  }

  /** As written, an "up" or "down" gesture never moves the left joint: the
      call raises, and since the loop catches only the keyboard interrupt the
      control loop ends. */
  lemma LeftGesturesRaise(left: int)
    ensures MoveLeftServoAsWritten(left, "up") == NameError("LEFT_MAX")
    ensures MoveLeftServoAsWritten(left, "down") == NameError("LEFT_MIN")
  {
  }

  /** The two halves side by side: wherever the corrected model moves the
      left joint, the script as written raises instead. */
  lemma LeftDiscrepancy(c: Config, s: ArmState)
    requires ValidConfig(c)
    ensures s.left < c.leftMax ==>
      MoveLeftServo(c, s, "up").1.Moved? && s.left < MoveLeftServo(c, s, "up").0.left <= c.leftMax &&
      MoveLeftServoAsWritten(s.left, "up") == NameError("LEFT_MAX")
    ensures s.left > c.leftMin ==>
      MoveLeftServo(c, s, "down").1.Moved? && c.leftMin <= MoveLeftServo(c, s, "down").0.left < s.left &&
      MoveLeftServoAsWritten(s.left, "down") == NameError("LEFT_MIN")
  {
  }

  // ---------------------------------------------------------------------
  // The controller state

  class Arm {
    const config: Config
    var leftAngle: int
    var bigAngle: int
    /** Every angle written to a servo, in order. */
    ghost var writes: seq<ServoWrite>

    function State(): ArmState
      reads this
    {
      ArmState(leftAngle, bigAngle)
    }

    ghost predicate Valid()
      reads this
    {
      ValidConfig(config) && InRange(config, State())
    }

    /** Start both joints at the neutral angle and write it to both servos. */
    constructor (config: Config)
      requires ValidConfig(config)
      requires config.leftMin <= NEUTRAL_ANGLE <= config.leftMax
      requires config.bigMin <= NEUTRAL_ANGLE <= config.bigMax
      ensures Valid() && this.config == config
      ensures State() == ArmState(NEUTRAL_ANGLE, NEUTRAL_ANGLE)
      ensures writes == [ServoWrite(LEFT_SERVO, NEUTRAL_ANGLE), ServoWrite(BIG_SERVO, NEUTRAL_ANGLE)]
    {
      this.config := config;
      leftAngle := NEUTRAL_ANGLE;
      bigAngle := NEUTRAL_ANGLE;
      writes := [ServoWrite(LEFT_SERVO, NEUTRAL_ANGLE), ServoWrite(BIG_SERVO, NEUTRAL_ANGLE)];
    }

    method MoveLeft(direction: string) returns (report: Report)
      requires Valid()
      modifies this`leftAngle, this`writes
      ensures Valid()
      ensures (State(), report) == MoveLeftServo(config, old(State()), direction)
      ensures writes == old(writes) + WritesOf(report)
    {
      report := NoMove;
      if direction == "up" {
        if leftAngle < config.leftMax {
          leftAngle := Min(leftAngle + config.step, config.leftMax);
          writes := writes + [ServoWrite(LEFT_SERVO, leftAngle)];
          report := Moved(LEFT_SERVO, leftAngle);
        } else {
          report := AtLimit(LEFT_SERVO);
        }
      } else if direction == "down" {
        if leftAngle > config.leftMin {
          leftAngle := Max(leftAngle - config.step, config.leftMin);
          writes := writes + [ServoWrite(LEFT_SERVO, leftAngle)];
          report := Moved(LEFT_SERVO, leftAngle);
        } else {
          report := AtLimit(LEFT_SERVO);
        }
      }
    }

    method MoveBig(direction: string) returns (report: Report)
      requires Valid()
      modifies this`bigAngle, this`writes
      ensures Valid()
      ensures (State(), report) == MoveBigServo(config, old(State()), direction)
      ensures writes == old(writes) + WritesOf(report)
    {
      report := NoMove;
      if direction == "left" {
        if bigAngle < config.bigMax {
          bigAngle := Min(bigAngle + config.step, config.bigMax);
          writes := writes + [ServoWrite(BIG_SERVO, bigAngle)];
          report := Moved(BIG_SERVO, bigAngle);
        } else {
          report := AtLimit(BIG_SERVO);
        }
      } else if direction == "right" {
        if bigAngle > config.bigMin {
          bigAngle := Max(bigAngle - config.step, config.bigMin);
          writes := writes + [ServoWrite(BIG_SERVO, bigAngle)];
          report := Moved(BIG_SERVO, bigAngle);
        } else {
          report := AtLimit(BIG_SERVO);
        }
      }
    }

    /** Map a predicted gesture to a movement; unknown gestures move nothing. */
    method Apply(prediction: string) returns (report: Report)
      requires Valid()
      modifies this`leftAngle, this`bigAngle, this`writes
      ensures Valid()
      ensures (State(), report) == Dispatch(config, old(State()), prediction)
      ensures writes == old(writes) + WritesOf(report)
    {
      if prediction == "up" {
        report := MoveLeft("up");
      } else if prediction == "down" {
        report := MoveLeft("down");
      } else if prediction == "left" {
        report := MoveBig("left");
      } else if prediction == "right" {
        report := MoveBig("right");
      } else {
        report := NoMove;
      }
    }
  }
}
