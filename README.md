# Gesture-controlled robotic arm: a Dafny model of the control core

The system reads an MPU6050 inertial sensor in windows of 40 samples. It reduces
each window to 12 features (the mean and standard deviation of each of the six
axes) and classifies them into a gesture label. It then moves a two-servo arm:
"up"/"down" move the left joint and "left"/"right" move the big base-rotation
joint. Each move is a 20° step clamped to the joint's limits. Offline scripts cut
the recorded CSV data into windows with `range(0, len(df) - W, step)`. A bench
script lets a user type an angle for one servo and validates it first.

The model has four modules, one per piece of the core:

- `ArmControl` (`arm_control.dfy`) models the actuation controller of
  `predict_and_move_arm.py`.
  - Pure functions `MoveLeftServo`, `MoveBigServo` and `Dispatch` act on an
    `ArmState` under a `Config`. `Config` holds the joint limits and the step.
    These functions are the specification.
  - `Run` and `RunWrites` apply a sequence of labels and give the final state
    and the servo writes issued.
  - Class `Arm` holds the two angles the script keeps in module-level globals,
    plus a ghost log of every servo write. Its methods are proved against the
    pure functions.
  - Each movement returns a `Report`: `Moved(channel, angle)`, `AtLimit(channel)`
    (the script's "already at … limit" branch), or `NoMove` for a direction or
    label it does not handle.
- `LiveControl` (`live_control.dfy`) models `collect_window`, `extract_features`
  and the loop in `main`.
  - The sensor is a pair of reading functions indexed by reading number.
  - `mean`, `std` and the classifier's `predict` are function parameters whose
    behaviour is not modelled.
- `Windowing` (`windowing.dfy`) models the window-start loop and the
  `num_windows` counter of `ml_challenges/2_windowing.py`. It is parameterised
  by the row count `n`, the window size `w` and the step. The loops in
  `train_model.py:17`, `ml_challenges/check_label_counts.py:10`,
  `ml_challenges/3_extract_features.py:11` and
  `ml_challenges/4_model_training.py:15` are instances of the same
  `WindowStarts(n, w, step)`.
- `ServoInput` (`servo_input.dfy`) models the loop of `tests/test_servo_single.py`.
  - `Strip` is Python's `str.strip()`, over the exact set of characters
    `str.isspace` accepts.
  - `IsDigitString` is `str.isdigit`, restricted to ASCII digits.
  - `DecimalValue` is `int` on a digit string, without CPython's limit on
    the number of digits (see "## Left out").
  - `Validate` applies the range check 0..180.
  - Class `ServoTest` writes channel 0 only on accepted lines and keeps a ghost
    log of the writes.

Three facts about the script shape the model:

- "up"/"down" move a single left joint, on channel 0.
- `main`'s loop catches only the keyboard interrupt
  (predict_and_move_arm.py:92-113), so any other exception ends it.
- The "already at … limit" branches only print a message. Here they are the
  `AtLimit` report.

## Model

| member | source | states |
|---|---|---|
| `Windowing.CountWindows` | ml_challenges/2_windowing.py:6-11 | The loop visits exactly the starts of `range(0, n - w, step)`, in order. `num_windows` equals their count: ceil((n - w) / step) when n > w, else 0. |
| `Windowing.RangeShape` | ml_challenges/2_windowing.py:9 | `range(start, stop, step)` is the progression start + k·step. It has just enough terms to pass `stop`: (len - 1)·step < stop - start <= len·step. It is empty when stop <= start. |
| `Windowing.WindowCountFormula` | ml_challenges/2_windowing.py:7-11 | The number of windows is ceil((n - w) / step) when n > w and 0 when n <= w. |
| `Windowing.StartsAreMultiples` | ml_challenges/2_windowing.py:9 | i is a window start if and only if 0 <= i < n - w and i is a multiple of the step. |
| `Windowing.StartsIncreasing` | ml_challenges/2_windowing.py:9 | Starts are strictly increasing, and consecutive starts are one step apart. |
| `Windowing.WindowsInBounds` | ml_challenges/2_windowing.py:9-10 | Every slice `[i, i + w)` lies inside `[0, n)`, so it has exactly w rows. It ends at or before row n - 2, so row n - 1 is in no window. |
| `Windowing.WindowsDisjoint` | ml_challenges/2_windowing.py:9-10 | With step >= w (the script uses step = W), no two windows share a row. |
| `Windowing.TrailingWindowDropped` | ml_challenges/2_windowing.py:9 | When (n - w) is a multiple of the step, the complete, aligned last window `[n - w, n)` is not visited. |
| `Windowing.WindowCountExamples` | ml_challenges/2_windowing.py:6-11 | With W = 40: 80 rows give the single window start [0], 81 rows give [0, 40], and 40 rows give none. |
| `ArmControl.DispatchKeepsInRange` | predict_and_move_arm.py:54-111 | One dispatched label leaves both joints within their limits. |
| `ArmControl.BigJointClamp` | predict_and_move_arm.py:75-85 | Below bigMax, "left" raises the big angle by at most one step, stopping exactly at bigMax if the step would pass it. "right" does the mirror image toward bigMin. |
| `ArmControl.LeftJointClamp` | predict_and_move_arm.py:57-66 | The left joint follows the same step-and-clamp rule: "up" moves toward leftMax, "down" toward leftMin. |
| `ArmControl.LimitIdempotent` | predict_and_move_arm.py:57-88 | At or past a limit, a gesture that pushes further changes no angle, writes no servo, and reports `AtLimit` for that joint. This holds for all four gestures. |
| `ArmControl.WriteIffChanged` | predict_and_move_arm.py:57-88 | A servo write happens exactly when a recorded angle changes. It goes to the changed joint's channel and carries the new angle. The other joint is unchanged. |
| `ArmControl.DispatchSeparation` | predict_and_move_arm.py:102-111 | "up"/"down" leave the big joint alone and report on the left channel. "left"/"right" leave the left joint alone and report on the big channel. Any other label changes nothing and writes nothing. |
| `ArmControl.RunKeepsInRange` | predict_and_move_arm.py:90-111 | For any sequence of predicted labels, both joints stay within their limits. |
| `ArmControl.RunWritesInRange` | predict_and_move_arm.py:54-88 | Every servo write ever issued carries an angle within the written joint's limits. |
| `ArmControl.UnknownLabelsInert` | predict_and_move_arm.py:102-111 | A sequence of labels none of which is a gesture leaves the arm where it was and writes nothing. |
| `ArmControl.RepeatedLeft` | predict_and_move_arm.py:75-79 | From any angle up to bigMax, after k "left" gestures the big angle is min(angle + k·step, bigMax). The left joint is untouched. |
| `ArmControl.RepeatedRight` | predict_and_move_arm.py:82-86 | From any angle down to bigMin, after k "right" gestures the big angle is max(angle - k·step, bigMin). The left joint is untouched. |
| `ArmControl.LeftFromNeutral` | predict_and_move_arm.py:18-21 | With the script's big-joint limits [20, 160], the neutral start (90, 90) is within range exactly when 90 lies within the left joint's limits. Starting there, "left" gives 110, 130, 150, 160, 160. |
| `ArmControl.LeftGesturesRaise` | predict_and_move_arm.py:54-70 | As written, "up" and "down" raise NameError (LEFT_MAX, LEFT_MIN) from any angle. |
| `ArmControl.LeftDiscrepancy` | predict_and_move_arm.py:57-66 | Wherever the left joint can still move, "up" ("down") raises it toward leftMax (lowers it toward leftMin) with a servo write in the corrected model. The script as written raises NameError on LEFT_MAX (LEFT_MIN) instead. |
| `ArmControl.Arm.constructor` | predict_and_move_arm.py:16-25 | Both joints start at 90 and 90 is written to both servos. The safety invariant holds from the start. |
| `ArmControl.Arm.MoveLeft` | predict_and_move_arm.py:54-70 | The left angle and report follow `MoveLeftServo`, and the big angle is unchanged. The write log gains exactly the report's write. The invariant is kept. |
| `ArmControl.Arm.MoveBig` | predict_and_move_arm.py:72-88 | The big angle and report follow `MoveBigServo`, and the left angle is unchanged. The write log gains exactly the report's write. The invariant is kept. |
| `ArmControl.Arm.Apply` | predict_and_move_arm.py:101-111 | The new state and report are those of `Dispatch` on the label. The write log gains exactly the report's write. The invariant is kept. |
| `LiveControl.CollectWindow` | predict_and_move_arm.py:31-43 | Returns exactly WINDOW_SIZE samples. Sample k is [ax, ay, az, gx, gy, gz] of reading t + k. |
| `LiveControl.Features` | predict_and_move_arm.py:45-52 | The features of the first `axes` axes have 2·axes entries. Entry 2i is the mean and entry 2i + 1 the standard deviation of axis i. |
| `LiveControl.ExtractFeatures` | predict_and_move_arm.py:45-52 | The extracted vector has 12 entries in the order [mean_a0, std_a0, …, mean_a5, std_a5]. |
| `LiveControl.RunLive` | predict_and_move_arm.py:90-111 | After `cycles` cycles, label c is the prediction on the features of window c (readings 40c to 40c + 39). The arm is where dispatching those labels in order leads. Exactly their servo writes were issued, and both joints are within limits. |
| `ServoInput.StripLeadingSpec` | tests/test_servo_single.py:16 | Leading stripping removes a prefix made only of whitespace. What is left does not start with whitespace. |
| `ServoInput.StripTrailingSpec` | tests/test_servo_single.py:16 | Trailing stripping removes a suffix made only of whitespace. What is left does not end with whitespace. |
| `ServoInput.StripPadded` | tests/test_servo_single.py:16 | A core with no whitespace at either end, padded with whitespace on both sides, strips to exactly that core. |
| `ServoInput.StripShape` | tests/test_servo_single.py:16 | Every line is whitespace, then its stripped form, then whitespace. The stripped form has no whitespace at either end. |
| `ServoInput.StripIdempotent` | tests/test_servo_single.py:16 | Stripping twice gives the same result as stripping once. |
| `ServoInput.DecimalRoundTrip` | tests/test_servo_single.py:18 | Reading back the decimal numeral of n gives n. |
| `ServoInput.CanonicalRoundTrip` | tests/test_servo_single.py:18 | Take a digit string without leading zeros. Writing out its value as a numeral gives back the same string. |
| `ServoInput.DecimalCanonical` | tests/test_servo_single.py:18 | The numeral of any n has no leading zeros. |
| `ServoInput.LeadingZeros` | tests/test_servo_single.py:17-18 | Leading zeros do not change the value read ("007" reads as 7). |
| `ServoInput.SplitLeadingZeros` | tests/test_servo_single.py:17-18 | Every digit string is some zeros followed by a numeral without leading zeros. |
| `ServoInput.ValidateNumeral` | tests/test_servo_single.py:16-23 | Take whitespace, any zeros, the numeral of n, then whitespace. This line is accepted as n when n <= 180 and rejected as out of range otherwise. |
| `ServoInput.AcceptedShape` | tests/test_servo_single.py:16-20 | An accepted angle lies in 0..180. The accepted line is whitespace, zeros, that angle's numeral, then whitespace. |
| `ServoInput.ValidateTrimmed` | tests/test_servo_single.py:17-25 | A line with no surrounding whitespace works as follows. If it is not a digit string, it is rejected as not a number. Otherwise it is accepted when its value is at most 180 and rejected as out of range when above. |
| `ServoInput.RejectedExamples` | tests/test_servo_single.py:16-25 | "", "-5", "1.5" and "+3" are rejected as not a number. |
| `ServoInput.AcceptedExamples` | tests/test_servo_single.py:16-23 | " 007\n" is accepted as 7, and "181" is rejected as out of range. |
| `ServoInput.AcceptedAnglesInRange` | tests/test_servo_single.py:19-20 | Every angle the loop ever writes to the servo lies in 0..180. |
| `ServoInput.RejectedLinesWriteNothing` | tests/test_servo_single.py:17-25 | A session in which every line is rejected writes nothing. |
| `ServoInput.ServoTest.HandleLine` | tests/test_servo_single.py:16-25 | The verdict is `Validate(line)`. An accepted angle is written to the servo and logged. A rejected line leaves the servo and the log unchanged. |
| `ServoInput.ServoTest.RunSession` | tests/test_servo_single.py:14-26 | Verdict i is that of line i. The log gains exactly the accepted angles, in order. The servo holds the last accepted angle, or its old value if none was accepted. |

## Left out

- Hardware: MPU6050 register reads, the ServoKit/PCA9685 driver, pulse-width setup and `time.sleep` pacing. The sensor is a pair of functions indexed by reading number. Servo writes are a ghost log.
- Floating-point features: `np.mean`/`np.std` are uninterpreted parameters, so properties such as "a constant axis has standard deviation 0" are not stated.
- Population versus sample standard deviation between the live and training scripts: this lies in float numerics, which the model does not cover.
- The classifier: `model.predict` and `joblib.load` are replaced by an uninterpreted `predict` parameter. `reshape(1, -1)` and `[0]` become a flat 12-entry vector and a single label.
- Console messages: replaced by the returned `Report` and `Verdict` values.
- Infinite loops and Ctrl+C: `main`'s `while True` runs for a given number of cycles, and the bench loop runs over a given sequence of typed lines.
- A sensor exception ending the loop is not modelled.
- `ServoInput.IsDigitString`: restricted to ASCII digits. Python's `isdigit` also accepts other Unicode digits, in two kinds. For Unicode decimal digits such as "٩٠" (Arabic-Indic nine, zero), `int` succeeds and the script writes 90, while the model returns `NotANumber`. For digits that are not decimal, such as "²", `int` raises and the script stops, while the model also returns `NotANumber`.
- `ServoInput.DecimalValue`: reads a digit string of any length. Since CPython 3.11 (and 3.10.7), `int` raises ValueError on a string of more than 4300 digits, leading zeros included, and the script then stops. The limit depends on the Python version and on `sys.set_int_max_str_digits`. So for a line such as 4301 zeros followed by "7", the model's `Validate` (and `ServoInput.ValidateNumeral`) gives `Accepted(7)`, where such a Python raises.
- `Windowing.CountWindows`: models the row bounds of each slice, not its contents. The CSV loading and the debug print at `i == 400` are left out.
- Label selection with `mode()[0]`, `value_counts`, feature tables and model training in the other offline scripts: pandas and scikit-learn behaviour is not modelled.
- `tests/gesture_controller_gpio.py`, `tests/predict_live.py`, `collect_data.py` and `data_challenges/1_rebuild_collect_data.py` are not part of this model.
- `ArmControl.Arm.constructor`: requires 90° to lie within each joint's limits. The script starts both joints at 90 whatever their limits, and the invariant only holds when 90 is in range.

## Findings

| source | as written | input that shows it | evidently intended | confidence | as-written member | corrected member |
|---|---|---|---|---|---|---|
| predict_and_move_arm.py:54-70 | `move_left_servo` compares against `LEFT_MAX` and `LEFT_MIN`. Neither is defined; line 21 defines only `BIG_MIN, BIG_MAX`. | Predicted label "up" (or "down") from any angle raises NameError. `main` catches only the keyboard interrupt, so live control stops. | The left joint steps 20° within its own limits, like the big joint. | high; not executed | `ArmControl.LeftDiscrepancy` (about `ArmControl.MoveLeftServoAsWritten`; see also `ArmControl.LeftGesturesRaise`) | `ArmControl.Arm.MoveLeft`, with `ArmControl.RunKeepsInRange` over `Config.leftMin`/`Config.leftMax` |
