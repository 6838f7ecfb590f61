/** Elementary operations on hourly series and interval-by-node matrices,
    in the sense of the numpy reductions the simulator is written with.
    A series is a `seq<real>`; a matrix is a sequence of rows, one row per
    interval. */
module Series {

  /** An optional value, for the lookups and reductions that can come up empty. */
  datatype Option<T> = None | Some(value: T)

  /** The outcome of an operation the source can abort with an exception. */
  datatype Result<T, E> = Success(value: T) | Failure(error: E)

  /** Intervals in one calendar year at hourly resolution (`reshape(-1, 8760)`). */
  const HoursPerYear: nat := 8760

  function Min(a: real, b: real): real { if a <= b then a else b }

  function Max(a: real, b: real): real { if a >= b then a else b }

  function Min3(a: real, b: real, c: real): real { Min(Min(a, b), c) }

  function Abs(a: real): real { if a < 0.0 then -a else a }

  /** `np.clip(v, lo, hi)` for `lo <= hi`. */
  function Clip(v: real, lo: real, hi: real): (r: real)
    requires lo <= hi
    ensures lo <= r <= hi
    ensures lo <= v <= hi ==> r == v
    ensures v < lo ==> r == lo
    ensures hi < v ==> r == hi
  {
    Min(Max(v, lo), hi)
  }

  /** The sum of a series, added from the front as Python's `sum` does. */
  function Sum(s: seq<real>): real
  {
    if s == [] then 0.0 else Sum(s[..|s| - 1]) + s[|s| - 1]
  }

  /** `sum(a * b)` over two series of one length. */
  function Dot(a: seq<real>, b: seq<real>): real
    requires |a| == |b|
  {
    if a == [] then 0.0 else Dot(a[..|a| - 1], b[..|b| - 1]) + a[|a| - 1] * b[|b| - 1]
  }

  function Zeros(n: nat): (r: seq<real>)
    ensures |r| == n && forall k :: 0 <= k < n ==> r[k] == 0.0
  {
    seq(n, _ => 0.0)
  }

  function Plus(a: seq<real>, b: seq<real>): (r: seq<real>)
    requires |a| == |b|
    ensures |r| == |a| && forall k :: 0 <= k < |a| ==> r[k] == a[k] + b[k]
  {
    seq(|a|, k requires 0 <= k < |a| => a[k] + b[k])
  }

  function Minus(a: seq<real>, b: seq<real>): (r: seq<real>)
    requires |a| == |b|
    ensures |r| == |a| && forall k :: 0 <= k < |a| ==> r[k] == a[k] - b[k]
  {
    seq(|a|, k requires 0 <= k < |a| => a[k] - b[k])
  }

  /** `c * a`, the tiling of a pooled scalar over a vector of factors. */
  function Scaled(c: real, a: seq<real>): (r: seq<real>)
    ensures |r| == |a| && forall k :: 0 <= k < |a| ==> r[k] == c * a[k]
  {
    seq(|a|, k requires 0 <= k < |a| => c * a[k])
  }

  lemma {:induction false} SumAppend(a: seq<real>, b: seq<real>)
    ensures Sum(a + b) == Sum(a) + Sum(b)
    decreases |b|
  {
    if b == [] {
      assert a + b == a;
    } else {
      var b' := b[..|b| - 1];
      assert (a + b)[..|a + b| - 1] == a + b';
      SumAppend(a, b');
    }
  }

  lemma {:induction false} SumZeros(n: nat)
    ensures Sum(Zeros(n)) == 0.0
  {
    if n > 0 {
      assert Zeros(n)[..n - 1] == Zeros(n - 1);
      SumZeros(n - 1);
    }
  }

  /** Replacing one element changes the sum by the difference. */
  lemma {:induction false} SumUpdate(s: seq<real>, k: nat, v: real)
    requires k < |s|
    ensures Sum(s[k := v]) == Sum(s) - s[k] + v
    decreases |s|
  {
    var n := |s| - 1;
    if k == n {
      assert s[k := v][..n] == s[..n];
    } else {
      assert s[k := v][..n] == s[..n][k := v];
      SumUpdate(s[..n], k, v);
    }
  }

  lemma {:induction false} SumPlus(a: seq<real>, b: seq<real>)
    requires |a| == |b|
    ensures Sum(Plus(a, b)) == Sum(a) + Sum(b)
    decreases |a|
  {
    if a != [] {
      var n := |a| - 1;
      assert Plus(a, b)[..n] == Plus(a[..n], b[..n]);
      SumPlus(a[..n], b[..n]);
    }
  }

  lemma {:induction false} SumMinus(a: seq<real>, b: seq<real>)
    requires |a| == |b|
    ensures Sum(Minus(a, b)) == Sum(a) - Sum(b)
    decreases |a|
  {
    if a != [] {
      var n := |a| - 1;
      assert Minus(a, b)[..n] == Minus(a[..n], b[..n]);
      SumMinus(a[..n], b[..n]);
    }
  }

  lemma {:induction false} SumScaled(c: real, a: seq<real>)
    ensures Sum(Scaled(c, a)) == c * Sum(a)
    decreases |a|
  {
    if a != [] {
      var n := |a| - 1;
      forall k | 0 <= k < n
        ensures Scaled(c, a)[..n][k] == Scaled(c, a[..n])[k]
      {
      }
      assert Scaled(c, a)[..n] == Scaled(c, a[..n]);
      SumScaled(c, a[..n]);
    }
  }

  lemma {:induction false} SumNonNegative(s: seq<real>)
    requires forall k :: 0 <= k < |s| ==> s[k] >= 0.0
    ensures Sum(s) >= 0.0
    decreases |s|
  {
    if s != [] {
      SumNonNegative(s[..|s| - 1]);
    }
  }

  /** `np.amax` of a non-empty series. */
  /** The position of a largest entry: the last one among equals. */
  function ArgLargest(s: seq<real>): (i: nat)
    requires |s| > 0
    ensures i < |s| && forall k :: 0 <= k < |s| ==> s[k] <= s[i]
    decreases |s|
  {
    if |s| == 1 then 0
    else
      var j := ArgLargest(s[..|s| - 1]);
      assert forall k :: 0 <= k < |s| - 1 ==> s[k] == s[..|s| - 1][k];
      if s[|s| - 1] >= s[j] then |s| - 1 else j
  }

  function Largest(s: seq<real>): (r: real)
    requires |s| > 0
    ensures forall k :: 0 <= k < |s| ==> s[k] <= r
    ensures exists k :: 0 <= k < |s| && s[k] == r
    decreases |s|
  {
    if |s| == 1 then s[0]
    else
      var m := Largest(s[..|s| - 1]);
      assert forall k :: 0 <= k < |s| - 1 ==> s[k] == s[..|s| - 1][k];
      Max(m, s[|s| - 1])
  }

  /** `np.amin` of a non-empty series. */
  function Smallest(s: seq<real>): (r: real)
    requires |s| > 0
    ensures forall k :: 0 <= k < |s| ==> r <= s[k]
    ensures exists k :: 0 <= k < |s| && s[k] == r
    decreases |s|
  {
    if |s| == 1 then s[0]
    else
      var m := Smallest(s[..|s| - 1]);
      assert forall k :: 0 <= k < |s| - 1 ==> s[k] == s[..|s| - 1][k];
      Min(m, s[|s| - 1])
  }

  /** `s[start:end]` with Python's clamping of an end past the series. */
  function Window(s: seq<real>, start: nat, end: nat): (r: seq<real>)
    requires start <= |s|
    ensures |r| == (if end <= start then 0 else if end <= |s| then end - start else |s| - start)
  {
    if end <= start then [] else if end <= |s| then s[start..end] else s[start..]
  }

  /** `np.reshape(s, (-1, 8760)).sum(axis=-1)`: one total per calendar year. */
  function AnnualTotals(s: seq<real>): (r: seq<real>)
    requires |s| % HoursPerYear == 0
    ensures |r| == |s| / HoursPerYear
    ensures forall y :: 0 <= y < |r| ==> r[y] == Sum(s[y * HoursPerYear..(y + 1) * HoursPerYear])
  {
    seq(|s| / HoursPerYear, y requires 0 <= y < |s| / HoursPerYear =>
      Sum(s[y * HoursPerYear..(y + 1) * HoursPerYear]))
  }

  /** The annual totals add up to the total of the whole series. */
  lemma {:induction false} AnnualTotalsSum(s: seq<real>)
    requires |s| % HoursPerYear == 0
    ensures Sum(AnnualTotals(s)) == Sum(s)
    decreases |s|
  {
    if |s| > 0 {
      var m := |s| - HoursPerYear;
      var front, last := s[..m], s[m..];
      assert |front| % HoursPerYear == 0 && |front| / HoursPerYear == |s| / HoursPerYear - 1;
      var a, b := AnnualTotals(s), AnnualTotals(front);
      forall y | 0 <= y < |b|
        ensures a[y] == b[y]
      {
        assert front[y * HoursPerYear..(y + 1) * HoursPerYear] == s[y * HoursPerYear..(y + 1) * HoursPerYear];
      }
      assert |b| * HoursPerYear == m && (|b| + 1) * HoursPerYear == |s|;
      assert s[|b| * HoursPerYear..(|b| + 1) * HoursPerYear] == last;
      assert a[|b|] == Sum(last);
      assert a == b + [Sum(last)];
      SumAppend(b, [Sum(last)]);
      assert Sum([Sum(last)]) == Sum(last) by {
        assert [Sum(last)][..0] == [];
      }
      AnnualTotalsSum(front);
      assert s == front + last;
      SumAppend(front, last);
    }
  }

  /** `m.sum(axis=1)`: the total of every row. */
  function RowSums(m: seq<seq<real>>): (r: seq<real>)
    ensures |r| == |m| && forall t :: 0 <= t < |m| ==> r[t] == Sum(m[t])
  {
    seq(|m|, t requires 0 <= t < |m| => Sum(m[t]))
  }

  /** Column `k` of a matrix whose rows all have more than `k` entries. */
  function Column(m: seq<seq<real>>, k: nat): (r: seq<real>)
    requires forall t :: 0 <= t < |m| ==> k < |m[t]|
    ensures |r| == |m| && forall t :: 0 <= t < |m| ==> r[t] == m[t][k]
  {
    seq(|m|, t requires 0 <= t < |m| => m[t][k])
  }

  function AbsAll(s: seq<real>): (r: seq<real>)
    ensures |r| == |s| && forall k :: 0 <= k < |s| ==> r[k] == Abs(s[k])
  {
    seq(|s|, k requires 0 <= k < |s| => Abs(s[k]))
  }

  /** True when every row of `m` has exactly `width` entries. */
  predicate Rectangular(m: seq<seq<real>>, width: nat)
  {
    forall t :: 0 <= t < |m| ==> |m[t]| == width
  }

  /** A matrix of `rows` rows of `width` entries each. */
  predicate Matrix(m: seq<seq<real>>, rows: nat, width: nat)
  {
    |m| == rows && Rectangular(m, width)
  }
}
