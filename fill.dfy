/** The deficit-fill heuristic (Fill.py): every hour with a deficit pushes its
    shortfall backwards in time into an import series, hour by hour, each hour
    capped by a per-hour limit and each calendar year by an energy budget; the
    analysis re-simulates after every pass until the remaining deficit is
    within the allowance or fifty passes have been made. */
module Fill {
  import opened Series
  import opened Input
  import opened Simulation

  /** The arguments of `fill_deficit` besides the two series. */
  datatype Budget = Budget(limit: real, annual: real, impflag: bool, eff: real, step: nat)
  {
    predicate Valid() { eff > 0.0 }
  }

  // ---------------------------------------------------------------------
  // Calendar years of the import series (Fill.py:23-25, 29)
  // ---------------------------------------------------------------------

  /** The total of the hours `lo` up to, not including, `hi`. */
  function Total(s: seq<real>, lo: nat, hi: nat): real
    requires lo <= hi <= |s|
    decreases hi - lo
  {
    if lo == hi then 0.0 else Total(s, lo, hi - 1) + s[hi - 1]
  }

  /** The total of calendar year `y`, `sum(imports[start:end])`; the slice
      stops at the end of the series. */
  function Annual(imp: seq<real>, y: nat): real
    requires y * HoursPerYear <= |imp|
  {
    Total(imp, y * HoursPerYear, Clamp((y + 1) * HoursPerYear, |imp|))
  }

  function Clamp(end: nat, size: nat): (r: nat)
    ensures r <= size && (end <= size ==> r == end) && (end > size ==> r == size)
  {
    if end <= size then end else size
  }

  /** Hour `t` lies in calendar year `t // 8760` and in no other. */
  lemma YearOf(t: nat, y: nat)
    ensures (t / HoursPerYear) * HoursPerYear <= t < (t / HoursPerYear + 1) * HoursPerYear
    ensures y * HoursPerYear <= t < (y + 1) * HoursPerYear <==> y == t / HoursPerYear
  {
    if y < t / HoursPerYear {
      assert (y + 1) * HoursPerYear <= (t / HoursPerYear) * HoursPerYear;
    } else if y > t / HoursPerYear {
      assert (t / HoursPerYear + 1) * HoursPerYear <= y * HoursPerYear;
    }
  }

  /** Changing one hour changes a total over hours that include it by the
      change, and leaves any other total alone. */
  lemma {:induction false} TotalUpdate(s: seq<real>, lo: nat, hi: nat, t: nat, v: real)
    requires lo <= hi <= |s| && t < |s|
    ensures Total(s[t := v], lo, hi) == if lo <= t < hi then Total(s, lo, hi) - s[t] + v else Total(s, lo, hi)
    decreases hi - lo
  {
    if lo < hi {
      TotalUpdate(s, lo, hi - 1, t, v);
    }
  }

  /** Hours that are all zero total zero. */
  lemma {:induction false} TotalZeros(s: seq<real>, lo: nat, hi: nat)
    requires lo <= hi <= |s| && forall k :: lo <= k < hi ==> s[k] == 0.0
    ensures Total(s, lo, hi) == 0.0
    decreases hi - lo
  {
    if lo < hi {
      TotalZeros(s, lo, hi - 1);
    }
  }

  /** Raising one hour changes the total of that hour's year by the rise and
      leaves every other year's total alone. */
  lemma AnnualUpdate(imp: seq<real>, t: nat, v: real, y: nat)
    requires t < |imp| && y * HoursPerYear <= |imp|
    ensures Annual(imp[t := v], y) ==
      if y == t / HoursPerYear then Annual(imp, y) - imp[t] + v else Annual(imp, y)
  {
    YearOf(t, y);
    TotalUpdate(imp, y * HoursPerYear, Clamp((y + 1) * HoursPerYear, |imp|), t, v);
  }

  // ---------------------------------------------------------------------
  // One visit of the backward walk (Fill.py:21-40)
  // ---------------------------------------------------------------------

  /** The latest hour before `t` still below the limit:
      `sorted([j for j in np.where(imports < limit)[0] if j < t])[-1]`. */
  function LastBelow(imp: seq<real>, limit: real, t: int): (r: Option<nat>)
    requires t <= |imp|
    ensures r.Some? ==> r.value < t && imp[r.value] < limit
    ensures r.Some? ==> forall k :: r.value < k < t ==> imp[k] >= limit
    ensures r.None? ==> forall k :: 0 <= k < t ==> imp[k] >= limit
    decreases t
  {
    if t <= 0 then None
    else if imp[t - 1] < limit then Some(t - 1)
    else LastBelow(imp, limit, t - 1)
  }

  /** The need carried into hour `t` of the walk for deficit hour `i`: divided
      by the efficiency when the walk reaches the hour before `i`. */
  function Owed(i: nat, need: real, t: int, eff: real): real
    requires eff > 0.0
  {
    if t == i - 1 then need / eff else need
  }

  /** The state after one visit: the imports, the need still to place, the next
      hour, and whether the walk was abandoned (an exception caught by the
      `try`). */
  datatype Move = Move(imp: seq<real>, need: real, t: int, abandoned: bool)

  /** One pass of the `while` body with `impflag` set, at hour `t`. The walk is
      abandoned when the year's budget is already overdrawn (the assertion),
      when `t` is past the end of the imports, and when no earlier hour is below
      the limit; in the last case the update just made is kept. */
  function Visit(imp: seq<real>, i: nat, need: real, t: nat, b: Budget): (m: Move)
    requires b.Valid()
    ensures |m.imp| == |imp|
    ensures !m.abandoned ==> -1 <= m.t < t
  {
    var owed := Owed(i, need, t, b.eff);
    if t >= |imp| then Move(imp, owed, t, true)
    else
      var year := t / HoursPerYear;
      YearOf(t, year);
      var remaining := b.annual - Annual(imp, year);
      if remaining < 0.0 then Move(imp, owed, t, true)
      else
        var placed := Min3(imp[t] + owed, b.limit, imp[t] + remaining);
        var next := imp[t := placed];
        var left := owed - (placed - imp[t]);
        if remaining == 0.0 then Move(next, left, year * HoursPerYear - 1, false)
        else
          match LastBelow(next, b.limit, t)
          case None => Move(next, left, t, true)
          case Some(j) => Move(next, left, j, false)
  }

  /** A visit changes no hour but `t`, and what it places there is taken off
      the need it carries on. */
  lemma VisitFrame(imp: seq<real>, i: nat, need: real, t: nat, b: Budget)
    requires b.Valid()
    ensures var m := Visit(imp, i, need, t, b);
      && (forall k :: 0 <= k < |imp| && k != t ==> m.imp[k] == imp[k])
      && m.need + (if t < |imp| then m.imp[t] - imp[t] else 0.0) == Owed(i, need, t, b.eff)
  {
  }

  // ---------------------------------------------------------------------
  // The walk of one deficit hour and the whole fill (Fill.py:12-43)
  // ---------------------------------------------------------------------

  /** The imports after the walk, and the hours it visited, in order. */
  datatype Walked = Walked(imp: seq<real>, hours: seq<nat>)

  /** The `while` loop of deficit hour `i` from hour `t` after `count`
      iterations; it visits at most `step - count` hours, the first of them
      `t`. */
  function Walk(imp: seq<real>, i: nat, need: real, t: int, count: nat, b: Budget): (w: Walked)
    requires b.Valid() && count <= b.step
    ensures |w.imp| == |imp|
    ensures !b.impflag ==> w == Walked(imp, [])
    ensures |w.hours| <= b.step - count
    ensures |w.hours| > 0 ==> w.hours[0] == t
    decreases b.step - count
  {
    if need > 0.0 && t >= 0 && count < b.step then
      if !b.impflag then Walk(imp, i, Owed(i, need, t, b.eff), t, count + 1, b)
      else
        var m := Visit(imp, i, need, t, b);
        if m.abandoned then Walked(m.imp, [t])
        else
          var rest := Walk(m.imp, i, m.need, m.t, count + 1, b);
          Walked(rest.imp, [t] + rest.hours)
    else Walked(imp, [])
  }

  /** The imports after the walks of the deficit hours before `n`, taken in
      increasing order. */
  function FillFrom(deficit: seq<real>, imp: seq<real>, b: Budget, n: nat): (r: seq<real>)
    requires b.Valid() && n <= |deficit|
    ensures |r| == |imp|
  {
    if n == 0 then imp
    else
      var before := FillFrom(deficit, imp, b, n - 1);
      if deficit[n - 1] > 0.0 then Walk(before, n - 1, deficit[n - 1], n - 1, 0, b).imp else before
  }

  /** `fill_deficit(deficit, imports, ...)`. */
  function Filled(deficit: seq<real>, imp: seq<real>, b: Budget): (r: seq<real>)
    requires b.Valid()
    ensures |r| == |imp|
  {
    FillFrom(deficit, imp, b, |deficit|)
  }

  /** Fill.py:12-43: the backward fill over the import array, in place. */
  method FillDeficit(deficit: seq<real>, imports: array<real>, b: Budget)
    requires b.Valid()
    modifies imports
    ensures imports[..] == Filled(deficit, old(imports[..]), b)
  {
    ghost var initial := imports[..];
    for i := 0 to |deficit|
      invariant imports[..] == FillFrom(deficit, initial, b, i)
    {
      if deficit[i] > 0.0 {
        WalkBack(imports, i, deficit[i], b);
      }
    }
  }

  /** Fill.py:16-42: the `while` loop of deficit hour `i`, ended early when a
      visit abandons the walk. */
  method WalkBack(imports: array<real>, i: nat, deficit: real, b: Budget)
    requires b.Valid()
    modifies imports
    ensures imports[..] == Walk(old(imports[..]), i, deficit, i, 0, b).imp
  {
    ghost var goal := Walk(imports[..], i, deficit, i, 0, b).imp;
    var need := deficit;
    var t: int := i;
    var count := 0;
    while need > 0.0 && t >= 0 && count < b.step
      invariant count <= b.step
      invariant b.impflag ==> Walk(imports[..], i, need, t, count, b).imp == goal
      invariant !b.impflag ==> imports[..] == goal
      decreases b.step - count
    {
      if b.impflag {
        var abandoned;
        need, t, abandoned := VisitHour(imports, i, need, t, count, b);
        if abandoned {
          return;
        }
      } else if t == i - 1 {
        need := need / b.eff;
      }
      count := count + 1;
    }
    if b.impflag {
      WalkStop(imports[..], i, need, t, count, b);
    }
  }

  /** Fill.py:23-39: one pass of the loop body with `impflag` set, iteration
      `count` of the walk: it does what `Visit` says, so an abandoned walk ends
      with the imports as they stand and any other goes on from the next hour. */
  method VisitHour(imports: array<real>, i: nat, need: real, t: nat, count: nat, b: Budget) returns (left: real, next: int, abandoned: bool)
    requires b.Valid() && b.impflag && need > 0.0 && count < b.step
    modifies imports
    ensures abandoned ==> imports[..] == Walk(old(imports[..]), i, need, t, count, b).imp
    ensures !abandoned ==> Walk(imports[..], i, left, next, count + 1, b).imp == Walk(old(imports[..]), i, need, t, count, b).imp
  {
    ghost var before := imports[..];
    left, next, abandoned := Hop(imports, i, need, t, b);
    if abandoned {
      AbandonKeeps(before, i, need, t, count, b);
    } else {
      WalkStep(before, i, need, t, count, b);
    }
  }

  /** The statements of one visit. */
  method Hop(imports: array<real>, i: nat, need: real, t: nat, b: Budget) returns (left: real, next: int, abandoned: bool)
    requires b.Valid()
    modifies imports
    ensures var m := Visit(old(imports[..]), i, need, t, b);
      imports[..] == m.imp && left == m.need && next == m.t && abandoned == m.abandoned
  {
    left := need;
    if t == i - 1 {
      left := need / b.eff;
    }
    next := t;
    if t >= imports.Length {
      return left, next, true;
    }
    var year := t / HoursPerYear;
    YearOf(t, year);
    var remaining := b.annual - Annual(imports[..], year);
    if remaining < 0.0 {
      return left, next, true;
    }
    var placed := Min3(imports[t] + left, b.limit, imports[t] + remaining);
    left := left - (placed - imports[t]);
    imports[t] := placed;
    if remaining == 0.0 {
      next := year * HoursPerYear - 1;
    } else {
      var below := LastBelow(imports[..], b.limit, t);
      if below.None? {
        return left, next, true;
      }
      next := below.value;
    }
    abandoned := false;
  }

  // ---------------------------------------------------------------------
  // Properties of the fill
  // ---------------------------------------------------------------------

  /** Every import is at most the limit. */
  predicate Capped(imp: seq<real>, limit: real)
  {
    forall k :: 0 <= k < |imp| ==> imp[k] <= limit
  }

  /** Every import is at least what it was before. */
  predicate Raised(before: seq<real>, after: seq<real>)
  {
    |before| == |after| && forall k :: 0 <= k < |before| ==> before[k] <= after[k]
  }

  /** Calendar year `y`'s total is within the budget. */
  predicate WithinYear(imp: seq<real>, annual: real, y: nat)
  {
    y * HoursPerYear <= |imp| ==> Annual(imp, y) <= annual
  }

  /** Fill.py:31-33: a visit keeps imports under the limit and never lowers one. */
  lemma VisitCapped(imp: seq<real>, i: nat, need: real, t: nat, b: Budget)
    requires b.Valid() && need > 0.0 && Capped(imp, b.limit)
    ensures Capped(Visit(imp, i, need, t, b).imp, b.limit)
    ensures Raised(imp, Visit(imp, i, need, t, b).imp)
  {
    var m := Visit(imp, i, need, t, b);
    if t < |imp| {
      assert Owed(i, need, t, b.eff) > 0.0;
    }
  }

  /** Fill.py:29-33: a visit keeps within budget every year that was. */
  lemma VisitYears(imp: seq<real>, i: nat, need: real, t: nat, b: Budget, y: nat)
    requires b.Valid() && WithinYear(imp, b.annual, y)
    ensures WithinYear(Visit(imp, i, need, t, b).imp, b.annual, y)
  {
    var m := Visit(imp, i, need, t, b);
    if t < |imp| && y * HoursPerYear <= |imp| && m.imp != imp {
      YearOf(t, t / HoursPerYear);
      AnnualUpdate(imp, t, m.imp[t], y);
      assert m.imp == imp[t := m.imp[t]];
    }
  }

  /** Fill.py:34-36: with the year's budget exactly used up the walk moves to the
      last hour of the previous year and leaves the current hour as it was. */
  lemma ExhaustedYear(imp: seq<real>, i: nat, need: real, t: nat, b: Budget)
    requires b.Valid() && need > 0.0 && t < |imp| && imp[t] <= b.limit
    requires (t / HoursPerYear) * HoursPerYear <= |imp| && Annual(imp, t / HoursPerYear) == b.annual
    ensures var m := Visit(imp, i, need, t, b);
      && !m.abandoned && m.imp == imp && m.need == Owed(i, need, t, b.eff)
      && m.t == (t / HoursPerYear) * HoursPerYear - 1
  {
    var m := Visit(imp, i, need, t, b);
    assert m.imp[t] == imp[t];
    assert m.imp == imp;
  }

  /** Fill.py:30, 38-42: an abandoned visit ends the walk with the imports as
      they stand: nothing is undone, and with the budget overdrawn nothing is
      changed. */
  lemma AbandonKeeps(imp: seq<real>, i: nat, need: real, t: nat, count: nat, b: Budget)
    requires b.Valid() && b.impflag && need > 0.0 && count < b.step
    requires Visit(imp, i, need, t, b).abandoned
    ensures Walk(imp, i, need, t, count, b).imp == Visit(imp, i, need, t, b).imp
    ensures (t < |imp| && (t / HoursPerYear) * HoursPerYear <= |imp| &&
      Annual(imp, t / HoursPerYear) > b.annual) ==> Walk(imp, i, need, t, count, b).imp == imp
  {
    if t < |imp| {
      YearOf(t, t / HoursPerYear);
    }
  }

  /** Fill.py:31-33: starting under the limit, a walk stays under it and never
      lowers an import. */
  lemma {:induction false} WalkCapped(imp: seq<real>, i: nat, need: real, t: int, count: nat, b: Budget)
    requires b.Valid() && count <= b.step && Capped(imp, b.limit)
    ensures Capped(Walk(imp, i, need, t, count, b).imp, b.limit)
    ensures Raised(imp, Walk(imp, i, need, t, count, b).imp)
    decreases b.step - count
  {
    var w := Walk(imp, i, need, t, count, b).imp;
    if need > 0.0 && t >= 0 && count < b.step && b.impflag {
      var m := Visit(imp, i, need, t, b);
      VisitCapped(imp, i, need, t, b);
      if m.abandoned {
        AbandonKeeps(imp, i, need, t, count, b);
      } else {
        WalkStep(imp, i, need, t, count, b);
        WalkCapped(m.imp, i, m.need, m.t, count + 1, b);
        RaisedTransitive(imp, m.imp, w);
      }
    } else {
      WalkStop(imp, i, need, t, count, b);
    }
  }

  /** Fill.py:29-33: a walk keeps within budget every year that was. */
  lemma {:induction false} WalkYears(imp: seq<real>, i: nat, need: real, t: int, count: nat, b: Budget, y: nat)
    requires b.Valid() && count <= b.step && WithinYear(imp, b.annual, y)
    ensures WithinYear(Walk(imp, i, need, t, count, b).imp, b.annual, y)
    decreases b.step - count
  {
    if need > 0.0 && t >= 0 && count < b.step && b.impflag {
      var m := Visit(imp, i, need, t, b);
      assert WithinYear(m.imp, b.annual, y) by {
        VisitYears(imp, i, need, t, b, y);
      }
      if m.abandoned {
        AbandonKeeps(imp, i, need, t, count, b);
      } else {
        WalkYears(m.imp, i, m.need, m.t, count + 1, b, y);
        WalkStep(imp, i, need, t, count, b);
      }
    } else {
      WalkStop(imp, i, need, t, count, b);
    }
  }

  /** One visit that does not abandon the walk hands it on to the next hour. */
  lemma WalkStep(imp: seq<real>, i: nat, need: real, t: nat, count: nat, b: Budget)
    requires b.Valid() && b.impflag && need > 0.0 && count < b.step
    requires !Visit(imp, i, need, t, b).abandoned
    ensures var m := Visit(imp, i, need, t, b);
      Walk(imp, i, need, t, count, b).imp == Walk(m.imp, i, m.need, m.t, count + 1, b).imp
  {
  }

  /** A walk whose loop condition fails, or that runs without `impflag`,
      changes nothing. */
  lemma WalkStop(imp: seq<real>, i: nat, need: real, t: int, count: nat, b: Budget)
    requires b.Valid() && count <= b.step
    requires !(need > 0.0 && t >= 0 && count < b.step && b.impflag)
    ensures Walk(imp, i, need, t, count, b).imp == imp
  {
  }

  lemma RaisedTransitive(a: seq<real>, b: seq<real>, c: seq<real>)
    requires Raised(a, b) && Raised(b, c)
    ensures Raised(a, c)
  {
  }

  /** Fill.py:21, 38-40: a walk visits hours in strictly decreasing order,
      none after the hour it starts from. */
  lemma {:induction false} WalkHours(imp: seq<real>, i: nat, need: real, t: int, count: nat, b: Budget)
    requires b.Valid() && count <= b.step
    ensures var w := Walk(imp, i, need, t, count, b);
      && (forall a :: 0 <= a < |w.hours| ==> w.hours[a] <= t)
      && (forall a, c :: 0 <= a < c < |w.hours| ==> w.hours[a] > w.hours[c])
    decreases b.step - count
  {
    if need > 0.0 && t >= 0 && count < b.step && b.impflag {
      var m := Visit(imp, i, need, t, b);
      if !m.abandoned {
        var rest := Walk(m.imp, i, m.need, m.t, count + 1, b);
        VisitFrame(imp, i, need, t, b);
        WalkHours(m.imp, i, m.need, m.t, count + 1, b);
        assert forall a {:trigger Walk(m.imp, i, m.need, m.t, count + 1, b).hours[a]} ::
          0 <= a < |rest.hours| ==> Walk(m.imp, i, m.need, m.t, count + 1, b).hours[a] <= m.t;
        PrependHour(t, m.t, rest.hours);
        assert Walk(imp, i, need, t, count, b) == Walked(rest.imp, [t] + rest.hours);
      }
    }
  }

  /** Fill.py:23-39: a walk changes only the hours it visits. */
  lemma {:induction false} WalkFrame(imp: seq<real>, i: nat, need: real, t: int, count: nat, b: Budget)
    requires b.Valid() && count <= b.step
    ensures var w := Walk(imp, i, need, t, count, b);
      forall k :: 0 <= k < |imp| && k !in w.hours ==> w.imp[k] == imp[k]
    decreases b.step - count
  {
    if need > 0.0 && t >= 0 && count < b.step && b.impflag {
      var m := Visit(imp, i, need, t, b);
      VisitFrame(imp, i, need, t, b);
      if !m.abandoned {
        var rest := Walk(m.imp, i, m.need, m.t, count + 1, b);
        WalkFrame(m.imp, i, m.need, m.t, count + 1, b);
        assert Walk(imp, i, need, t, count, b) == Walked(rest.imp, [t] + rest.hours);
      }
    }
  }

  /** Putting a later hour in front of a decreasing list of hours keeps it
      decreasing. */
  lemma PrependHour(t: nat, bound: int, hours: seq<nat>)
    requires bound < t
    requires forall a :: 0 <= a < |hours| ==> hours[a] <= bound
    requires forall a, c :: 0 <= a < c < |hours| ==> hours[a] > hours[c]
    ensures forall a :: 0 <= a < |[t] + hours| ==> ([t] + hours)[a] <= t
    ensures forall a, c :: 0 <= a < c < |[t] + hours| ==> ([t] + hours)[a] > ([t] + hours)[c]
  {
  }

  /** The walk of deficit hour `i` changes no later hour and at most `step`
      hours, visited from `i` downwards. */
  lemma WalkFootprint(imp: seq<real>, i: nat, need: real, b: Budget)
    requires b.Valid()
    ensures var w := Walk(imp, i, need, i, 0, b);
      && |w.hours| <= b.step
      && (forall k :: i < k < |imp| ==> w.imp[k] == imp[k])
      && (|w.hours| > 0 ==> w.hours[0] == i)
  {
    var w := Walk(imp, i, need, i, 0, b);
    WalkHours(imp, i, need, i, 0, b);
    WalkFrame(imp, i, need, i, 0, b);
    forall k | i < k < |imp| ensures w.imp[k] == imp[k] {
      assert k !in w.hours;
    }
  }

  /** The fill caps every import and never lowers one. */
  lemma {:induction false} FillCapped(deficit: seq<real>, imp: seq<real>, b: Budget, n: nat)
    requires b.Valid() && n <= |deficit| && Capped(imp, b.limit)
    ensures Capped(FillFrom(deficit, imp, b, n), b.limit)
    ensures Raised(imp, FillFrom(deficit, imp, b, n))
  {
    if n > 0 {
      var before := FillFrom(deficit, imp, b, n - 1);
      FillCapped(deficit, imp, b, n - 1);
      if deficit[n - 1] > 0.0 {
        WalkCapped(before, n - 1, deficit[n - 1], n - 1, 0, b);
      }
    }
  }

  /** The fill keeps within budget every year that was. */
  lemma {:induction false} FillYears(deficit: seq<real>, imp: seq<real>, b: Budget, n: nat, y: nat)
    requires b.Valid() && n <= |deficit| && WithinYear(imp, b.annual, y)
    ensures WithinYear(FillFrom(deficit, imp, b, n), b.annual, y)
  {
    if n > 0 {
      var before := FillFrom(deficit, imp, b, n - 1);
      FillYears(deficit, imp, b, n - 1, y);
      if deficit[n - 1] > 0.0 {
        WalkYears(before, n - 1, deficit[n - 1], n - 1, 0, b, y);
      }
    }
  }

  /** Imports between zero and the limit, every year within the budget. */
  ghost predicate Admissible(imp: seq<real>, b: Budget)
  {
    && Capped(imp, b.limit)
    && (forall k :: 0 <= k < |imp| ==> imp[k] >= 0.0)
    && (forall y: nat :: WithinYear(imp, b.annual, y))
  }

  /** A fill keeps admissible imports admissible. */
  lemma FillAdmissible(deficit: seq<real>, imp: seq<real>, b: Budget)
    requires b.Valid() && Admissible(imp, b)
    ensures Admissible(Filled(deficit, imp, b), b)
  {
    FillCapped(deficit, imp, b, |deficit|);
    forall y: nat ensures WithinYear(Filled(deficit, imp, b), b.annual, y) {
      FillYears(deficit, imp, b, |deficit|, y);
    }
  }

  // ---------------------------------------------------------------------
  // The convergence loop of `Analysis` (Fill.py:54-99)
  // ---------------------------------------------------------------------

  /** Fill.py:78, 84: the walk length and efficiency `Analysis` passes. */
  const Hops: nat := 168
  const FillEfficiency: real := 0.8
  /** Fill.py:83: the largest number of fills. */
  const Rounds: nat := 50

  /** What the analysis ends with: the imports, the deficit they leave, and the
      number of fills made. */
  datatype Convergence = Convergence(imports: seq<real>, deficit: seq<real>, rounds: nat)

  /** The budget `Analysis` fills with: the interconnection capacity in MW per
      hour and the annual energy in MWh per year. */
  function BudgetOf(s: Solution): (b: Budget)
    ensures b.Valid() && b.impflag && b.step == Hops
  {
    Budget(Sum(s.CInter) * 1000.0, s.setup.energy * 1000000000.0, true, FillEfficiency, Hops)
  }

  /** The deficit left by simulating the whole horizon with these imports. */
  function DeficitWith(s: Solution, baseload: seq<seq<real>>, imp: seq<real>): (d: seq<real>)
    requires s.Configured() && |baseload| == s.setup.intervals && |imp| == s.setup.intervals
    ensures |d| == |imp|
  {
    Simulate(ReservoirOf(s), Netload(s, baseload, imp, 0, s.setup.intervals)).deficit
  }

  /** The imports after `k` fills from zero imports, each fill made against
      the deficit the previous imports leave. */
  function Fills(s: Solution, baseload: seq<seq<real>>, b: Budget, k: nat): (imp: seq<real>)
    requires s.Configured() && |baseload| == s.setup.intervals && b.Valid()
    ensures |imp| == s.setup.intervals
  {
    if k == 0 then Zeros(s.setup.intervals)
    else
      var before := Fills(s, baseload, b, k - 1);
      Filled(DeficitWith(s, baseload, before), before, b)
  }

  /** After `k` fills the deficit is still above the allowance. */
  predicate Unmet(s: Solution, baseload: seq<seq<real>>, b: Budget, k: nat)
  {
    && s.Configured() && |baseload| == s.setup.intervals && b.Valid()
    && Sum(DeficitWith(s, baseload, Fills(s, baseload, b, k))) > s.setup.allowance * s.setup.years as real
  }

  /** Every round from the first up to, not including, `n` left the deficit
      above the allowance. */
  predicate UnmetBefore(s: Solution, baseload: seq<seq<real>>, b: Budget, n: nat)
  {
    n <= 1 || (UnmetBefore(s, baseload, b, n - 1) && Unmet(s, baseload, b, n - 1))
  }

  /** The recursive form of "every earlier round missed the allowance" gives
      the quantified one. */
  lemma {:induction false} UnmetRounds(s: Solution, baseload: seq<seq<real>>, b: Budget, n: nat)
    requires UnmetBefore(s, baseload, b, n)
    ensures forall k :: 1 <= k < n ==> Unmet(s, baseload, b, k)
  {
    if n > 1 {
      UnmetRounds(s, baseload, b, n - 1);
    }
  }

  /** What a finished analysis promises: the imports are those of `c.rounds`
      fills from zero imports, the deficit is the one they leave, the loop
      stopped at the first round within the allowance or after fifty fills, and
      admissibility under a non-negative budget is kept. */
  ghost predicate Converged(s: Solution, baseload: seq<seq<real>>, c: Convergence)
    requires s.Configured() && |baseload| == s.setup.intervals
  {
    && 1 <= c.rounds <= Rounds
    && c.imports == Fills(s, baseload, BudgetOf(s), c.rounds)
    && c.deficit == DeficitWith(s, baseload, c.imports)
    && (c.rounds < Rounds ==> Sum(c.deficit) <= s.setup.allowance * s.setup.years as real)
    && (forall k :: 1 <= k < c.rounds ==> Unmet(s, baseload, BudgetOf(s), k))
    && (BudgetOf(s).limit >= 0.0 && BudgetOf(s).annual >= 0.0 ==> Admissible(c.imports, BudgetOf(s)))
  }

  /** Fill.py:76-86: fills from zero imports, re-simulating after every fill,
      until the deficit is within the allowance or fifty fills have been made. A
      simulation whose closing assertions fail ends the analysis. */
  method Analysis(solution: Solution, baseload: seq<seq<real>>) returns (result: Result<Convergence, Violation>)
    requires solution.Configured() && |baseload| == solution.setup.intervals
    modifies solution
    ensures result.Success? ==> Converged(solution, baseload, result.value)
    ensures solution.net == old(solution.net) && solution.TDC == old(solution.TDC) && solution.CAC == old(solution.CAC)
    ensures solution.MPHS == old(solution.MPHS) && solution.Topology == old(solution.Topology)
  {
    var T := solution.setup.intervals;
    var b := BudgetOf(solution);
    var imports := new real[T](_ => 0.0);
    ghost var zero := imports[..];
    assert zero == Fills(solution, baseload, b, 0);
    ZerosAdmissible(zero, b);
    var run := Resimulate(solution, baseload, imports);
    if run.Failure? {
      return Failure(run.error);
    }
    assert Fills(solution, baseload, b, 1) == Filled(run.value.deficit, zero, b);
    run := Refill(solution, baseload, imports, run.value.deficit, b);
    if run.Failure? {
      return Failure(run.error);
    }
    result := Converge(solution, baseload, imports, run.value.deficit);
  }

  /** Fill.py:83-86: the loop of `Analysis` after the first fill, refilling
      while the deficit exceeds the allowance and fewer than fifty fills have
      been made. */
  method Converge(solution: Solution, baseload: seq<seq<real>>, imports: array<real>, deficit: seq<real>)
    returns (result: Result<Convergence, Violation>)
    requires solution.Configured() && |baseload| == solution.setup.intervals
    requires imports.Length == solution.setup.intervals
    requires imports[..] == Fills(solution, baseload, BudgetOf(solution), 1)
    requires deficit == DeficitWith(solution, baseload, imports[..])
    requires BudgetOf(solution).limit >= 0.0 && BudgetOf(solution).annual >= 0.0 ==> Admissible(imports[..], BudgetOf(solution))
    modifies solution, imports
    ensures result.Success? ==> Converged(solution, baseload, result.value)
    ensures solution.net == old(solution.net) && solution.TDC == old(solution.TDC) && solution.CAC == old(solution.CAC)
    ensures solution.MPHS == old(solution.MPHS) && solution.Topology == old(solution.Topology)
  {
    var b := BudgetOf(solution);
    var left := deficit;
    var rounds := 1;
    var limit := solution.setup.allowance * solution.setup.years as real;
    while Sum(left) > limit && rounds < Rounds
      invariant 1 <= rounds <= Rounds
      invariant imports[..] == Fills(solution, baseload, b, rounds)
      invariant left == DeficitWith(solution, baseload, imports[..])
      invariant UnmetBefore(solution, baseload, b, rounds)
      invariant b.limit >= 0.0 && b.annual >= 0.0 ==> Admissible(imports[..], b)
      invariant solution.net == old(solution.net) && solution.TDC == old(solution.TDC) && solution.CAC == old(solution.CAC)
      invariant solution.MPHS == old(solution.MPHS) && solution.Topology == old(solution.Topology)
      decreases Rounds - rounds
    {
      var run, next := Round(solution, baseload, imports, left, rounds);
      if run.Failure? {
        return Failure(run.error);
      }
      left, rounds := run.value.deficit, next;
    }
    ConvergedAt(solution, baseload, imports[..], left, rounds);
    result := Success(Convergence(imports[..], left, rounds));
  }

  /** Fill.py:84-86: one pass of the loop, made when the deficit the `k`th
      fill left is above the allowance: the next fill, then a simulation. */
  method Round(solution: Solution, baseload: seq<seq<real>>, imports: array<real>, left: seq<real>, k: nat)
    returns (run: Result<Outcome, Violation>, next: nat)
    requires solution.Configured() && |baseload| == solution.setup.intervals
    requires imports.Length == solution.setup.intervals
    requires imports[..] == Fills(solution, baseload, BudgetOf(solution), k)
    requires left == DeficitWith(solution, baseload, imports[..])
    requires UnmetBefore(solution, baseload, BudgetOf(solution), k) && Unmet(solution, baseload, BudgetOf(solution), k)
    modifies solution, imports
    ensures next == k + 1 && imports[..] == Fills(solution, baseload, BudgetOf(solution), next)
    ensures run.Success? ==> run.value.deficit == DeficitWith(solution, baseload, imports[..])
    ensures UnmetBefore(solution, baseload, BudgetOf(solution), next)
    ensures var b := BudgetOf(solution);
      b.limit >= 0.0 && b.annual >= 0.0 && Admissible(old(imports[..]), b) ==> Admissible(imports[..], b)
    ensures solution.net == old(solution.net) && solution.TDC == old(solution.TDC) && solution.CAC == old(solution.CAC)
    ensures solution.MPHS == old(solution.MPHS) && solution.Topology == old(solution.Topology)
  {
    var b := BudgetOf(solution);
    next := k + 1;
    ghost var filled := Filled(left, imports[..], b);
    assert Fills(solution, baseload, b, next) == filled;
    run := Refill(solution, baseload, imports, left, b);
    assert imports[..] == filled;
    assert UnmetBefore(solution, baseload, b, k) && Unmet(solution, baseload, b, k);
  }

  /** The state `Converge` leaves when its loop stops is a finished analysis. */
  lemma ConvergedAt(s: Solution, baseload: seq<seq<real>>, imp: seq<real>, left: seq<real>, rounds: nat)
    requires s.Configured() && |baseload| == s.setup.intervals
    requires 1 <= rounds <= Rounds && imp == Fills(s, baseload, BudgetOf(s), rounds)
    requires left == DeficitWith(s, baseload, imp) && UnmetBefore(s, baseload, BudgetOf(s), rounds)
    requires rounds < Rounds ==> Sum(left) <= s.setup.allowance * s.setup.years as real
    requires BudgetOf(s).limit >= 0.0 && BudgetOf(s).annual >= 0.0 ==> Admissible(imp, BudgetOf(s))
    ensures Converged(s, baseload, Convergence(imp, left, rounds))
  {
    UnmetRounds(s, baseload, BudgetOf(s), rounds);
  }

  /** Fill.py:78-79, 84-85: one fill of the imports followed by a simulation
      with them; admissible imports stay admissible. */
  method Refill(solution: Solution, baseload: seq<seq<real>>, imports: array<real>, deficit: seq<real>, b: Budget)
    returns (run: Result<Outcome, Violation>)
    requires solution.Configured() && |baseload| == solution.setup.intervals
    requires imports.Length == solution.setup.intervals && b.Valid()
    modifies solution, imports
    ensures imports[..] == Filled(deficit, old(imports[..]), b)
    ensures run.Success? ==> run.value.deficit == DeficitWith(solution, baseload, imports[..])
    ensures b.limit >= 0.0 && b.annual >= 0.0 && Admissible(old(imports[..]), b) ==> Admissible(imports[..], b)
    ensures solution.net == old(solution.net) && solution.TDC == old(solution.TDC) && solution.CAC == old(solution.CAC)
    ensures solution.MPHS == old(solution.MPHS) && solution.Topology == old(solution.Topology)
  {
    ghost var before := imports[..];
    FillDeficit(deficit, imports, b);
    if b.limit >= 0.0 && b.annual >= 0.0 && Admissible(before, b) {
      FillAdmissible(deficit, before, b);
    }
    run := Resimulate(solution, baseload, imports);
  }

  /** `Reliability` over the whole horizon with the imports as they stand. */
  method Resimulate(solution: Solution, baseload: seq<seq<real>>, imports: array<real>)
    returns (run: Result<Outcome, Violation>)
    requires solution.Configured() && |baseload| == solution.setup.intervals
    requires imports.Length == solution.setup.intervals
    modifies solution
    ensures run.Success? ==> run.value.deficit == DeficitWith(solution, baseload, imports[..])
    ensures solution.net == old(solution.net) && solution.TDC == old(solution.TDC) && solution.CAC == old(solution.CAC)
    ensures solution.MPHS == old(solution.MPHS) && solution.Topology == old(solution.Topology)
  {
    run := Reliability(solution, baseload, imports[..], 0, imports.Length);
  }

  /** All-zero imports are admissible under a non-negative budget. */
  lemma ZerosAdmissible(imp: seq<real>, b: Budget)
    requires forall k :: 0 <= k < |imp| ==> imp[k] == 0.0
    ensures b.limit >= 0.0 && b.annual >= 0.0 ==> Admissible(imp, b)
  {
    if b.limit >= 0.0 && b.annual >= 0.0 {
      forall y: nat | y * HoursPerYear <= |imp| ensures Annual(imp, y) <= b.annual {
        TotalZeros(imp, y * HoursPerYear, Clamp((y + 1) * HoursPerYear, |imp|));
      }
    }
  }

  // ---------------------------------------------------------------------
  // Reporting helpers (Fill.py:48-52)
  // ---------------------------------------------------------------------

  /** `maxx`: the largest calendar-year total, in TWh; undefined (the reshape
      fails) unless the series is whole years, and for an empty series. */
  function Peak(x: seq<real>): (r: Option<real>)
    ensures r.Some? <==> |x| > 0 && |x| % HoursPerYear == 0
    ensures r.Some? ==> forall y :: 0 <= y < |x| / HoursPerYear ==> AnnualTotals(x)[y] / 1000000.0 <= r.value
    ensures r.Some? ==> exists y :: 0 <= y < |x| / HoursPerYear && AnnualTotals(x)[y] / 1000000.0 == r.value
  {
    if |x| > 0 && |x| % HoursPerYear == 0 then Some(Largest(AnnualTotals(x)) / 1000000.0) else None
  }

  /** `mean`: the average annual total over `years` years, in TWh. */
  function Mean(x: seq<real>, years: nat): (r: real)
    requires years > 0
    ensures r * years as real * 1000000.0 == Sum(x)
  {
    Sum(x) / years as real / 1000000.0
  }
}
