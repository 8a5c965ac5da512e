/** Window enumeration of the offline scripts: the start rows that
    `range(0, n - W, step)` yields over a recording of `n` rows, and the
    `num_windows` counter that tallies them. The offline scripts use
    (W, step) = (40, 40), (40, 20) or (20, 20); all are instances of
    (n, w, step). */
module Windowing {

  const WINDOW_SIZE: nat := 40

  /** The values Python's `range(start, stop, step)` yields for a positive step. */
  function Range(start: int, stop: int, step: nat): seq<int>
    requires step > 0
    decreases stop - start
  {
    if start >= stop then [] else [start] + Range(start + step, stop, step)
  }

  /** The start rows the windowing loop visits over `n` rows. */
  function WindowStarts(n: nat, w: nat, step: nat): seq<int>
    requires step > 0
  {
    Range(0, n - w, step)
  }

  function CeilDiv(a: nat, b: nat): nat
    requires b > 0
  {
    (a + b - 1) / b
  }

  /** The number of windows the counter reaches. */
  function WindowCount(n: nat, w: nat, step: nat): nat
    requires step > 0
  {
    if n <= w then 0 else CeilDiv(n - w, step)
  }

  /** The loop of the windowing script: visits each start row `i` (the slice
      `[i, i + w)` is taken there) and counts it. */
  method CountWindows(n: nat, w: nat, step: nat) returns (starts: seq<int>, numWindows: nat)
    requires step > 0
    ensures starts == WindowStarts(n, w, step)
    ensures numWindows == |starts| == WindowCount(n, w, step)
  {
    starts, numWindows := [], 0;
    var i := 0;
    while i < n - w
      invariant 0 <= i
      invariant starts + Range(i, n - w, step) == WindowStarts(n, w, step)
      invariant numWindows == |starts|
      decreases n - w - i
    {
      starts := starts + [i];
      numWindows := numWindows + 1;
      i := i + step;
    }
    WindowCountFormula(n, w, step);
  }

  lemma MulLess(x: int, y: int, b: int)
    requires b > 0 && x * b < y * b
    ensures x < y
  {
  }

  lemma MulMonotone(x: int, y: int, b: int)
    requires b >= 0 && x <= y
    ensures x * b <= y * b
  {
  }

  lemma MulDistance(j: int, k: int, b: int)
    requires j < k && b > 0
    ensures j * b + b <= k * b
  {
    MulMonotone(j + 1, k, b);
  }

  lemma MultipleMod(k: int, b: int)
    requires b > 0
    ensures (k * b) % b == 0
  {
    var q, r := (k * b) / b, (k * b) % b;
    assert k * b == q * b + r;
    assert r == (k - q) * b;
    if k - q >= 1 {
      MulMonotone(1, k - q, b);
    } else if k - q <= -1 {
      MulMonotone(k - q, -1, b);
    }
  }

  /** `Range` yields the arithmetic progression start, start + step, ...,
      with just enough terms to pass `stop`. */
  lemma {:induction false} RangeShape(start: int, stop: int, step: nat)
    requires step > 0
    ensures stop <= start ==> Range(start, stop, step) == []
    ensures stop > start ==>
      (|Range(start, stop, step)| - 1) * step < stop - start <= |Range(start, stop, step)| * step
    ensures forall k :: 0 <= k < |Range(start, stop, step)| ==> Range(start, stop, step)[k] == start + k * step
    decreases stop - start
  {
    if start < stop {
      var rest := Range(start + step, stop, step);
      RangeShape(start + step, stop, step);
      var m := |rest|;
      assert |Range(start, stop, step)| == m + 1;
      assert (m + 1) * step == m * step + step;
      forall k | 0 <= k < m + 1
        ensures Range(start, stop, step)[k] == start + k * step
      {
        if k > 0 {
          assert Range(start, stop, step)[k] == rest[k - 1];
          assert (k - 1) * step + step == k * step;
        }
      }
    }
  }

  /** `num_windows` is ceil((n - w) / step) when n > w and 0 otherwise. */
  lemma WindowCountFormula(n: nat, w: nat, step: nat)
    requires step > 0
    ensures |WindowStarts(n, w, step)| == WindowCount(n, w, step)
  {
    RangeShape(0, n - w, step);
    if n > w {
      var m := |WindowStarts(n, w, step)|;
      var d := n - w;
      var q := CeilDiv(d, step);
      assert d + step - 1 == q * step + (d + step - 1) % step;
      assert d <= q * step;
      assert (m - 1) * step < q * step;
      MulLess(m - 1, q, step);
      assert (q - 1) * step == q * step - step;
      assert (q - 1) * step < m * step;
      MulLess(q - 1, m, step);
    }
  }

  /** The window starts are exactly the multiples of `step` strictly below
      n - w. */
  lemma StartsAreMultiples(n: nat, w: nat, step: nat, i: int)
    requires step > 0
    ensures i in WindowStarts(n, w, step) <==> 0 <= i < n - w && i % step == 0
  {
    if i in WindowStarts(n, w, step) {
      StartIsMultiple(n, w, step, i);
    }
    if 0 <= i < n - w && i % step == 0 {
      MultipleIsStart(n, w, step, i);
    }
  }

  lemma StartIsMultiple(n: nat, w: nat, step: nat, i: int)
    requires step > 0 && i in WindowStarts(n, w, step)
    ensures 0 <= i < n - w && i % step == 0
  {
    var r := WindowStarts(n, w, step);
    RangeShape(0, n - w, step);
    var k :| 0 <= k < |r| && r[k] == i;
    MulMonotone(k, |r| - 1, step);
    MulMonotone(0, k, step);
    MultipleMod(k, step);
  }

  lemma MultipleIsStart(n: nat, w: nat, step: nat, i: int)
    requires step > 0 && 0 <= i < n - w && i % step == 0
    ensures i in WindowStarts(n, w, step)
  {
    var r := WindowStarts(n, w, step);
    RangeShape(0, n - w, step);
    var k := i / step;
    assert i == k * step;
    MulLess(k, |r|, step);
    assert r[k] == i;
  }

  /** The starts come in strictly increasing order, `step` apart. */
  lemma StartsIncreasing(n: nat, w: nat, step: nat)
    requires step > 0
    ensures forall k :: 0 <= k < |WindowStarts(n, w, step)| - 1 ==>
      WindowStarts(n, w, step)[k + 1] == WindowStarts(n, w, step)[k] + step
    ensures forall j, k :: 0 <= j < k < |WindowStarts(n, w, step)| ==>
      WindowStarts(n, w, step)[j] < WindowStarts(n, w, step)[k]
  {
    var r := WindowStarts(n, w, step);
    RangeShape(0, n - w, step);
    forall k | 0 <= k < |r| - 1
      ensures r[k + 1] == r[k] + step
    {
      assert (k + 1) * step == k * step + step;
    }
    forall j, k | 0 <= j < k < |r|
      ensures r[j] < r[k]
    {
      assert (k - j) * step > 0;
      assert k * step - j * step == (k - j) * step;
    }
  }

  /** Every visited slice `[i, i + w)` lies inside the recording, so it has
      exactly `w` rows; and it ends before row n - 1, so the last row of the
      recording is never part of any window. */
  lemma WindowsInBounds(n: nat, w: nat, step: nat)
    requires step > 0
    ensures forall i :: i in WindowStarts(n, w, step) ==> 0 <= i && i + w <= n - 1
  {
    forall i | i in WindowStarts(n, w, step)
      ensures 0 <= i && i + w <= n - 1
    {
      StartsAreMultiples(n, w, step, i);
    }
  }

  /** With step >= w (the windowing script's step = W) no two windows share a
      row. */
  lemma WindowsDisjoint(n: nat, w: nat, step: nat)
    requires step > 0 && step >= w
    ensures forall j, k :: 0 <= j < k < |WindowStarts(n, w, step)| ==>
      WindowStarts(n, w, step)[j] + w <= WindowStarts(n, w, step)[k]
  {
    var r := WindowStarts(n, w, step);
    RangeShape(0, n - w, step);
    forall j, k | 0 <= j < k < |r|
      ensures r[j] + w <= r[k]
    {
      assert r[j] == j * step && r[k] == k * step;
      MulDistance(j, k, step);
    }
  }

  /** The loop bound is one short: when the rows after the first aligned start
      fill whole windows exactly, the complete last window `[n - w, n)` is
      not visited. */
  lemma TrailingWindowDropped(n: nat, w: nat, step: nat)
    requires step > 0 && n >= w && (n - w) % step == 0
    ensures (n - w) !in WindowStarts(n, w, step)
  {
    StartsAreMultiples(n, w, step, n - w);
  }

  /** The recording sizes of the windowing script: 80 rows give one window, 81
      rows give two. */
  lemma WindowCountExamples()
    ensures WindowStarts(80, WINDOW_SIZE, WINDOW_SIZE) == [0]
    ensures WindowStarts(81, WINDOW_SIZE, WINDOW_SIZE) == [0, 40]
    ensures WindowStarts(40, WINDOW_SIZE, WINDOW_SIZE) == []
  {
    assert Range(40, 40, 40) == [];
    assert Range(80, 41, 40) == [];
  }
}
