/** The single-servo test loop: each typed line is stripped of surrounding
    whitespace, must consist of decimal digits, is read as an integer, and is
    written to servo channel 0 only if it lies within 0..180. */
module ServoInput {

  const ANGLE_MIN: int := 0
  const ANGLE_MAX: int := 180

  datatype Option<T> = None | Some(value: T)

  /** The code points Python's `str.isspace` accepts, which `str.strip()`
      removes from both ends. */
  predicate IsSpace(c: char)
  {
    var k := c as int;
    9 <= k <= 13 || 28 <= k <= 32 || k == 0x85 || k == 0xA0 || k == 0x1680 ||
    0x2000 <= k <= 0x200A || k == 0x2028 || k == 0x2029 || k == 0x202F || k == 0x205F || k == 0x3000
  }

  predicate AllSpace(s: string)
  {
    forall i :: 0 <= i < |s| ==> IsSpace(s[i])
  }

  /** The suffix of `s` left after dropping leading whitespace. */
  function StripLeading(s: string): string
  {
    if |s| > 0 && IsSpace(s[0]) then StripLeading(s[1..]) else s
  }

  /** The prefix of `s` left after dropping trailing whitespace. */
  function StripTrailing(s: string): string
  {
    if |s| > 0 && IsSpace(s[|s| - 1]) then StripTrailing(s[..|s| - 1]) else s
  }

  /** `str.strip()` with no arguments. */
  function Strip(s: string): string
  {
    StripTrailing(StripLeading(s))
  }

  /** A string with no whitespace at either end. */
  predicate Trimmed(s: string)
  {
    s == [] || (!IsSpace(s[0]) && !IsSpace(s[|s| - 1]))
  }

  predicate IsDigit(c: char)
  {
    '0' <= c <= '9'
  }

  predicate AllDigits(s: string)
  {
    forall i :: 0 <= i < |s| ==> IsDigit(s[i])
  }

  /** `str.isdigit`, restricted to the ASCII digits: non-empty and all digits. */
  predicate IsDigitString(s: string)
  {
    |s| > 0 && AllDigits(s)
  }

  function DigitValue(c: char): nat
    requires IsDigit(c)
  {
    (c as int) - ('0' as int)
  }

  function DigitChar(d: nat): (c: char)
    requires d < 10
    ensures IsDigit(c) && DigitValue(c) == d
  {
    (('0' as int) + d) as char
  }

  /** `int(s)` for a string of decimal digits. */
  function DecimalValue(s: string): nat
    requires AllDigits(s)
  {
    if s == [] then 0 else 10 * DecimalValue(s[..|s| - 1]) + DigitValue(s[|s| - 1])
  }

  /** The decimal numeral of `n`, without leading zeros. */
  function Decimal(n: nat): (s: string)
    ensures IsDigitString(s)
  {
    if n < 10 then [DigitChar(n)] else Decimal(n / 10) + [DigitChar(n % 10)]
  }

  /** A numeral without leading zeros ("0" itself is one). */
  predicate Canonical(s: string)
  {
    IsDigitString(s) && (s[0] != '0' || |s| == 1)
  }

  datatype Verdict = Accepted(angle: int) | OutOfRange(angle: int) | NotANumber

  /** The checks the loop applies to one typed line. */
  function Validate(line: string): Verdict
  {
    var s := Strip(line);
    if IsDigitString(s) then
      var angle := DecimalValue(s);
      if ANGLE_MIN <= angle <= ANGLE_MAX then Accepted(angle) else OutOfRange(angle)
    else NotANumber
  }

  // ---------------------------------------------------------------------
  // Stripping

  /** `StripLeading` removes a whitespace prefix and leaves a part that does
      not start with whitespace. */
  lemma {:induction false} StripLeadingSpec(s: string) returns (pre: string)
    ensures s == pre + StripLeading(s) && AllSpace(pre)
    ensures StripLeading(s) == [] || !IsSpace(StripLeading(s)[0])
  {
    if |s| > 0 && IsSpace(s[0]) {
      var p := StripLeadingSpec(s[1..]);
      pre := [s[0]] + p;
      assert s == [s[0]] + s[1..];
    } else {
      pre := [];
    }
  }

  /** `StripTrailing` removes a whitespace suffix and leaves a part that does
      not end with whitespace. */
  lemma {:induction false} StripTrailingSpec(s: string) returns (post: string)
    ensures s == StripTrailing(s) + post && AllSpace(post)
    ensures StripTrailing(s) == [] || !IsSpace(StripTrailing(s)[|StripTrailing(s)| - 1])
  {
    if |s| > 0 && IsSpace(s[|s| - 1]) {
      var p := StripTrailingSpec(s[..|s| - 1]);
      post := p + [s[|s| - 1]];
      assert s == s[..|s| - 1] + [s[|s| - 1]];
    } else {
      post := [];
    }
  }

  /** Leading whitespace before a part that does not start with whitespace
      is exactly what `StripLeading` removes. */
  lemma {:induction false} StripLeadingPadded(pre: string, rest: string)
    requires AllSpace(pre) && (rest == [] || !IsSpace(rest[0]))
    ensures StripLeading(pre + rest) == rest
  {
    if pre != [] {
      assert (pre + rest)[1..] == pre[1..] + rest;
      StripLeadingPadded(pre[1..], rest);
    } else {
      assert pre + rest == rest;
    }
  }

  /** Trailing whitespace after a part that does not end with whitespace is
      exactly what `StripTrailing` removes. */
  lemma {:induction false} StripTrailingPadded(rest: string, post: string)
    requires AllSpace(post) && (rest == [] || !IsSpace(rest[|rest| - 1]))
    ensures StripTrailing(rest + post) == rest
  {
    if post != [] {
      var s := rest + post;
      assert s[..|s| - 1] == rest + post[..|post| - 1];
      StripTrailingPadded(rest, post[..|post| - 1]);
    } else {
      assert rest + post == rest;
    }
  }

  /** Stripping removes exactly the surrounding whitespace: a trimmed core
      padded with whitespace on both sides strips to that core. */
  lemma StripPadded(pre: string, core: string, post: string)
    requires AllSpace(pre) && AllSpace(post) && Trimmed(core)
    ensures Strip(pre + core + post) == core
  {
    if core == [] {
      assert pre + core + post == (pre + post) + [];
      StripLeadingPadded(pre + post, []);
    } else {
      assert pre + core + post == pre + (core + post);
      StripLeadingPadded(pre, core + post);
      StripTrailingPadded(core, post);
    }
  }

  /** Every line is its stripped form padded with whitespace, and the
      stripped form has no whitespace at either end. */
  lemma StripShape(s: string) returns (pre: string, post: string)
    ensures AllSpace(pre) && AllSpace(post) && Trimmed(Strip(s))
    ensures s == pre + Strip(s) + post
  {
    var l := StripLeading(s);
    var r := StripTrailing(l);
    pre := StripLeadingSpec(s);
    post := StripTrailingSpec(l);
    if r != [] {
      assert r[0] == l[0];
    }
    assert s == pre + (r + post);
  }

  /** Stripping twice is stripping once. */
  lemma StripIdempotent(s: string)
    ensures Strip(Strip(s)) == Strip(s)
  {
    var pre, post := StripShape(s);
    StripPadded([], Strip(s), []);
    assert [] + Strip(s) + [] == Strip(s);
  }

  // ---------------------------------------------------------------------
  // Numerals

  /** Reading the numeral of `n` gives back `n`. */
  lemma {:induction false} DecimalRoundTrip(n: nat)
    ensures DecimalValue(Decimal(n)) == n
  {
    if n >= 10 {
      var s := Decimal(n);
      assert s[..|s| - 1] == Decimal(n / 10);
      DecimalRoundTrip(n / 10);
    }
  }

  lemma {:induction false} PositiveValue(s: string)
    requires IsDigitString(s) && s[0] != '0'
    ensures DecimalValue(s) >= 1
  {
    if |s| > 1 {
      PositiveValue(s[..|s| - 1]);
    }
  }

  /** Writing the value of a numeral without leading zeros gives back the
      numeral, and the numeral of any `n` has no leading zeros. */
  lemma {:induction false} CanonicalRoundTrip(s: string)
    requires Canonical(s)
    ensures Decimal(DecimalValue(s)) == s
  {
    if |s| > 1 {
      var p := s[..|s| - 1];
      PositiveValue(p);
      CanonicalRoundTrip(p);
      assert s == p + [s[|s| - 1]];
    }
  }

  lemma {:induction false} DecimalCanonical(n: nat)
    ensures Canonical(Decimal(n))
  {
    if n >= 10 {
      DecimalCanonical(n / 10);
    }
  }

  lemma {:induction false} ZerosValue(zeros: string)
    requires forall i :: 0 <= i < |zeros| ==> zeros[i] == '0'
    ensures DecimalValue(zeros) == 0
  {
    if zeros != [] {
      ZerosValue(zeros[..|zeros| - 1]);
    }
  }

  /** Leading zeros do not change the value ("007" reads as 7). */
  lemma {:induction false} LeadingZeros(zeros: string, s: string)
    requires forall i :: 0 <= i < |zeros| ==> zeros[i] == '0'
    requires AllDigits(s)
    ensures AllDigits(zeros + s) && DecimalValue(zeros + s) == DecimalValue(s)
  {
    if s == [] {
      assert zeros + s == zeros;
      ZerosValue(zeros);
    } else {
      var p := s[..|s| - 1];
      assert (zeros + s)[..|zeros + s| - 1] == zeros + p;
      LeadingZeros(zeros, p);
    }
  }

  /** A numeral is leading zeros followed by a numeral without them. */
  lemma {:induction false} SplitLeadingZeros(s: string) returns (zeros: string, rest: string)
    requires IsDigitString(s)
    ensures s == zeros + rest && Canonical(rest)
    ensures forall i :: 0 <= i < |zeros| ==> zeros[i] == '0'
  {
    if |s| > 1 && s[0] == '0' {
      var z, r := SplitLeadingZeros(s[1..]);
      zeros, rest := [s[0]] + z, r;
      assert s == [s[0]] + s[1..];
    } else {
      zeros, rest := [], s;
    }
  }

  // ---------------------------------------------------------------------
  // Validation

  /** A numeral with any leading zeros and surrounding whitespace is accepted
      exactly when its value is within 0..180, and then as that value. */
  lemma ValidateNumeral(pre: string, zeros: string, n: nat, post: string)
    requires AllSpace(pre) && AllSpace(post)
    requires forall i :: 0 <= i < |zeros| ==> zeros[i] == '0'
    ensures Validate(pre + zeros + Decimal(n) + post) ==
      if n <= ANGLE_MAX then Accepted(n) else OutOfRange(n)
  {
    var d := Decimal(n);
    var core := zeros + d;
    assert core[|core| - 1] == d[|d| - 1];
    assert IsDigit(core[0]) by {
      if zeros == [] { assert core[0] == d[0]; }
    }
    assert pre + zeros + d + post == pre + core + post;
    StripPadded(pre, core, post);
    LeadingZeros(zeros, d);
    DecimalRoundTrip(n);
    assert Strip(pre + zeros + d + post) == core;
    assert IsDigitString(core) && DecimalValue(core) == n;
  }

  /** Conversely, every accepted line is whitespace, leading zeros, the
      numeral of the accepted angle and whitespace, and that angle is within
      0..180. */
  lemma AcceptedShape(line: string) returns (pre: string, zeros: string, post: string)
    requires Validate(line).Accepted?
    ensures ANGLE_MIN <= Validate(line).angle <= ANGLE_MAX
    ensures AllSpace(pre) && AllSpace(post) && forall i :: 0 <= i < |zeros| ==> zeros[i] == '0'
    ensures line == pre + zeros + Decimal(Validate(line).angle) + post
  {
    pre, post := StripShape(line);
    var s := Strip(line);
    var angle := Validate(line).angle;
    assert IsDigitString(s) && angle == DecimalValue(s);
    var rest;
    zeros, rest := SplitLeadingZeros(s);
    LeadingZeros(zeros, rest);
    CanonicalRoundTrip(rest);
    assert Decimal(angle) == rest;
    assert line == pre + (zeros + rest) + post;
    assert pre + (zeros + rest) + post == pre + zeros + rest + post;
  }

  /** A line with no surrounding whitespace is validated as it stands. */
  lemma ValidateTrimmed(line: string)
    requires Trimmed(line)
    ensures Validate(line) == if !IsDigitString(line) then NotANumber
      else if DecimalValue(line) <= ANGLE_MAX then Accepted(DecimalValue(line))
      else OutOfRange(DecimalValue(line))
  {
    StripPadded([], line, []);
    assert [] + line + [] == line;
  }

  /** Inputs with a sign, a decimal point or nothing in them are rejected. */
  lemma RejectedExamples()
    ensures Validate("") == NotANumber
    ensures Validate("-5") == NotANumber
    ensures Validate("1.5") == NotANumber
    ensures Validate("+3") == NotANumber
  {
    ValidateTrimmed("");
    ValidateTrimmed("-5");
    assert !IsDigit("1.5"[1]);
    ValidateTrimmed("1.5");
    ValidateTrimmed("+3");
  }

  /** Leading zeros and padding are accepted; 181 is out of range. */
  lemma AcceptedExamples()
    ensures Validate(" 007\n") == Accepted(7)
    ensures Validate("181") == OutOfRange(181)
  {
    assert Decimal(7) == "7";
    ValidateNumeral(" ", "00", 7, "\n");
    assert " " + "00" + "7" + "\n" == " 007\n";
    assert Decimal(181) == "181" by {
      assert Decimal(18) == "18";
    }
    ValidateNumeral("", "", 181, "");
    assert "" + "" + "181" + "" == "181";
  }

  // ---------------------------------------------------------------------
  // The test loop

  /** The angle written to the servo for a verdict: only an accepted one. */
  function WrittenBy(v: Verdict): seq<int>
  {
    if v.Accepted? then [v.angle] else []
  }

  /** The angles of the accepted lines, in order. */
  function AcceptedAngles(lines: seq<string>): seq<int>
  {
    if lines == [] then []
    else AcceptedAngles(lines[..|lines| - 1]) + WrittenBy(Validate(lines[|lines| - 1]))
  }

  /** The verdicts on the lines, in order. */
  function ValidateAll(lines: seq<string>): seq<Verdict>
  {
    if lines == [] then [] else ValidateAll(lines[..|lines| - 1]) + [Validate(lines[|lines| - 1])]
  }

  lemma {:induction false} ValidateAllAt(lines: seq<string>)
    ensures |ValidateAll(lines)| == |lines|
    ensures forall i :: 0 <= i < |lines| ==> ValidateAll(lines)[i] == Validate(lines[i])
  {
    if lines != [] {
      ValidateAllAt(lines[..|lines| - 1]);
    }
  }

  lemma AcceptedAnglesStep(lines: seq<string>, i: nat)
    requires i < |lines|
    ensures AcceptedAngles(lines[..i + 1]) == AcceptedAngles(lines[..i]) + WrittenBy(Validate(lines[i]))
    ensures ValidateAll(lines[..i + 1]) == ValidateAll(lines[..i]) + [Validate(lines[i])]
  {
    assert lines[..i + 1][..i] == lines[..i];
  }

  /** Every angle the loop ever writes is within 0..180. */
  lemma {:induction false} AcceptedAnglesInRange(lines: seq<string>)
    ensures forall a :: a in AcceptedAngles(lines) ==> ANGLE_MIN <= a <= ANGLE_MAX
  {
    if lines != [] {
      AcceptedAnglesInRange(lines[..|lines| - 1]);
    }
  }

  /** Lines that are all rejected write nothing. */
  lemma {:induction false} RejectedLinesWriteNothing(lines: seq<string>)
    requires forall i :: 0 <= i < |lines| ==> !Validate(lines[i]).Accepted?
    ensures AcceptedAngles(lines) == []
  {
    if lines != [] {
      RejectedLinesWriteNothing(lines[..|lines| - 1]);
    }
  }

  /** The servo's angle after writing `angles` to it, starting from `start`. */
  function LastWritten(start: Option<int>, angles: seq<int>): Option<int>
  {
    if angles == [] then start else Some(angles[|angles| - 1])
  }

  /** Servo channel 0 as the test loop drives it. */
  class ServoTest {
    /** The last angle written, if any. */
    var servoAngle: Option<int>
    /** Every angle written, in order. */
    ghost var writes: seq<int>

    constructor ()
      ensures servoAngle == None && writes == []
    {
      servoAngle := None;
      writes := [];
    }

    /** One pass of the loop on a typed line: write the angle if accepted,
        otherwise leave the servo as it was. */
    method HandleLine(line: string) returns (verdict: Verdict)
      modifies this
      ensures verdict == Validate(line)
      ensures writes == old(writes) + WrittenBy(verdict)
      ensures servoAngle == LastWritten(old(servoAngle), WrittenBy(verdict))
    {
      var angleStr := Strip(line);
      if IsDigitString(angleStr) {
        var angle := DecimalValue(angleStr);
        if ANGLE_MIN <= angle <= ANGLE_MAX {
          servoAngle := Some(angle);
          writes := writes + [angle];
          verdict := Accepted(angle);
        } else {
          verdict := OutOfRange(angle);
        }
      } else {
        verdict := NotANumber;
      }
    }

    /** The loop over a session of typed lines. */
    method RunSession(lines: seq<string>) returns (verdicts: seq<Verdict>)
      modifies this
      ensures |verdicts| == |lines|
      ensures forall i :: 0 <= i < |lines| ==> verdicts[i] == Validate(lines[i])
      ensures writes == old(writes) + AcceptedAngles(lines)
      ensures servoAngle == LastWritten(old(servoAngle), AcceptedAngles(lines))
    {
      verdicts := [];
      ghost var accepted: seq<int> := [];
      for i := 0 to |lines|
        invariant |verdicts| == i
        invariant verdicts == ValidateAll(lines[..i])
        invariant accepted == AcceptedAngles(lines[..i])
        invariant writes == old(writes) + accepted
        invariant servoAngle == LastWritten(old(servoAngle), accepted)
      {
        var verdict := HandleLine(lines[i]);
        AcceptedAnglesStep(lines, i);
        accepted := accepted + WrittenBy(verdict);
        verdicts := verdicts + [verdict];
      }
      assert lines[..|lines|] == lines;
      ValidateAllAt(lines);
    }
  }
}
