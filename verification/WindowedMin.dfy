/**
 The constant-space windowed minimum used for RTT floors, specified against the
 full history of samples it has been fed since its last reset.
 */
module WindowedMin {
  import opened Prelude

  datatype Sample = Sample(t: nat, v: real)

  /** Best, second-best and third-best of successive sub-windows. */
  datatype Slots = Slots(best: Sample, second: Sample, third: Sample)

  function Insert(s: Slots, x: Sample): Slots {
    if x.v <= s.second.v then Slots(s.best, x, x)
    else if x.v <= s.third.v then Slots(s.best, s.second, x)
    else s
  }

  function Shift(s: Slots, x: Sample): Slots {
    Slots(s.second, s.third, x)
  }

  /** Expire the best sample, or refresh a runner-up that has gone too long without one. */
  function Age(win: nat, s: Slots, x: Sample): Slots {
    var dt := SatSub(x.t, s.best.t);
    if dt > win then
      var s1 := Shift(s, x);
      if SatSub(x.t, s1.best.t) > win then Shift(s1, x) else s1
    else if s.second.t == s.best.t && dt > win / 4 then
      Slots(s.best, x, x)
    else if s.third.t == s.second.t && dt > win / 2 then
      Slots(s.best, s.second, x)
    else
      s
  }

  /** Whether a sample restarts the filter: nothing held, at or below the best, or all slots expired. */
  predicate Restarts(win: nat, s: Option<Slots>, x: Sample) {
    s.None? || x.v <= s.value.best.v || SatSub(x.t, s.value.third.t) > win
  }

  function Update(win: nat, s: Option<Slots>, x: Sample): Slots {
    if Restarts(win, s, x) then Slots(x, x, x) else Age(win, Insert(s.value, x), x)
  }

  function Run(win: nat, h: seq<Sample>): Option<Slots> {
    if h == [] then None else Some(Update(win, Run(win, h[..|h| - 1]), h[|h| - 1]))
  }

  predicate TimeOrdered(h: seq<Sample>) {
    forall i, j | 0 <= i < j < |h| :: h[i].t <= h[j].t
  }

  /** `s` arrived as sample `i` and everything that arrived later is strictly larger. */
  predicate MinimumSince(h: seq<Sample>, s: Sample, i: nat) {
    && i < |h| && h[i] == s
    && forall j | i < j < |h| :: h[j].v > s.v
  }

  /** The three slots, named by their arrival positions. */
  predicate Summary(h: seq<Sample>, s: Slots, i: nat, j: nat, k: nat) {
    && i <= j <= k
    && MinimumSince(h, s.best, i) && MinimumSince(h, s.second, j) && MinimumSince(h, s.third, k)
  }

  lemma Extend(h: seq<Sample>, s: Sample, i: nat, x: Sample)
    requires MinimumSince(h, s, i) && x.v > s.v
    ensures MinimumSince(h + [x], s, i)
  {
  }

  lemma StepSummary(win: nat, h: seq<Sample>, s: Slots, i: nat, j: nat, k: nat, x: Sample)
    returns (i': nat, j': nat, k': nat)
    requires Summary(h, s, i, j, k) && TimeOrdered(h + [x])
    ensures Summary(h + [x], Update(win, Some(s), x), i', j', k')
    ensures x.t - Update(win, Some(s), x).best.t <= win
  {
    var n := |h|;
    var h' := h + [x];
    assert h'[n] == x && h'[i] == s.best && h'[j] == s.second && h'[k] == s.third;
    assert s.best.t <= s.second.t <= s.third.t <= x.t;
    i', j', k' := n, n, n;
    if !Restarts(win, Some(s), x) {
      i' := i;
      Extend(h, s.best, i, x);
      if x.v > s.second.v {
        j' := j;
        Extend(h, s.second, j, x);
        if x.v > s.third.v {
          k' := k;
          Extend(h, s.third, k, x);
        }
      }
      var s1 := Insert(s, x);
      assert Summary(h', s1, i', j', k');
      var dt := SatSub(x.t, s1.best.t);
      if dt > win {
        i', j', k' := j', k', n;
        if SatSub(x.t, Shift(s1, x).best.t) > win {
          i', j', k' := j', n, n;
        }
      } else if s1.second.t == s1.best.t && dt > win / 4 {
        j', k' := n, n;
      } else if s1.third.t == s1.second.t && dt > win / 2 {
        k' := n;
      }
    }
  }

  lemma RunSnoc(win: nat, p: seq<Sample>, x: Sample)
    ensures Run(win, p + [x]) == Some(Update(win, Run(win, p), x))
  {
    assert (p + [x])[..|p|] == p;
  }

  lemma SlotsAreOrdered(h: seq<Sample>, s: Slots, i: nat, j: nat, k: nat)
    requires Summary(h, s, i, j, k) && TimeOrdered(h)
    ensures s.best.t <= s.second.t <= s.third.t <= h[|h| - 1].t
    ensures s.best.v <= s.second.v <= s.third.v <= h[|h| - 1].v
  {
  }

  /**
   After any time-ordered history, each slot is a sample that was really taken,
   is the exact minimum of everything taken since, arrived no later than the next
   slot, and the reported one is at most a window old.
   */
  lemma {:induction false} RunSummary(win: nat, h: seq<Sample>) returns (i: nat, j: nat, k: nat)
    requires h != [] && TimeOrdered(h)
    ensures Run(win, h).Some? && Summary(h, Run(win, h).value, i, j, k)
    ensures h[|h| - 1].t - Run(win, h).value.best.t <= win
  {
    var n := |h| - 1;
    var p, x := h[..n], h[n];
    assert h == p + [x];
    RunSnoc(win, p, x);
    if n == 0 {
      i, j, k := 0, 0, 0;
    } else {
      PrefixOrdered(p, x);
      i, j, k := RunSummary(win, p);
      i, j, k := StepSummary(win, p, Run(win, p).value, i, j, k, x);
    }
  }

  lemma PrefixOrdered(p: seq<Sample>, x: Sample)
    requires TimeOrdered(p + [x])
    ensures TimeOrdered(p)
  {
    assert forall i | 0 <= i < |p| :: (p + [x])[i] == p[i];
  }

  /** One sample above a held minimum, within its window, leaves it reported. */
  lemma StepHolds(win: nat, s: Slots, x: Sample)
    requires s.best.t <= s.third.t && x.v > s.best.v && s.best.t <= x.t <= s.best.t + win
    ensures Update(win, Some(s), x).best == s.best
  {
  }

  /**
   A sample at or below the reported minimum takes over at once and stays
   reported for a whole window while only larger samples arrive, however many.
   */
  lemma {:induction false} MinimumIsHeld(win: nat, p: seq<Sample>, x: Sample, q: seq<Sample>)
    requires TimeOrdered(p + [x] + q)
    requires p == [] || (Run(win, p).Some? && x.v <= Run(win, p).value.best.v)
    requires forall y | y in q :: y.v > x.v && y.t <= x.t + win
    ensures Run(win, p + [x] + q).Some? && Run(win, p + [x] + q).value.best == x
  {
    var h := p + [x] + q;
    if q == [] {
      assert h == p + [x];
      RunSnoc(win, p, x);
    } else {
      var q', y := q[..|q| - 1], q[|q| - 1];
      var h' := p + [x] + q';
      assert h == h' + [y];
      PrefixOrdered(h', y);
      RunSnoc(win, h', y);
      MinimumIsHeld(win, p, x, q');
      var i, j, k := RunSummary(win, h');
      SlotsAreOrdered(h', Run(win, h').value, i, j, k);
      assert h[|p|] == x && h[|h'|] == y;
      StepHolds(win, Run(win, h').value, y);
    }
  }

  /** A new overall minimum of the history meets the take-over condition. */
  lemma OverallMinimumTakesOver(win: nat, p: seq<Sample>, x: Sample)
    requires p != [] && TimeOrdered(p) && forall y | y in p :: x.v <= y.v
    ensures Run(win, p).Some? && x.v <= Run(win, p).value.best.v
  {
    var i, j, k := RunSummary(win, p);
    assert Run(win, p).value.best in p;
  }

  /**
   While the best sample is kept, a fallback is never missing for long: the second
   slot differs from the best after a quarter window, the third from the second
   after half a window (unless the second itself has only just arrived).
   */
  lemma RunnersUpStayRecent(win: nat, s: Slots, x: Sample)
    requires s.best.t <= s.second.t <= s.third.t <= x.t
    requires !Restarts(win, Some(s), x) && x.t - s.best.t <= win
    ensures var n := Update(win, Some(s), x);
            n.best == s.best
            && (n.second.t == n.best.t ==> x.t - n.best.t <= win / 4)
            && (n.third.t == n.second.t ==> x.t - n.best.t <= win / 2 || n.second.t == x.t)
  {
    var s1 := Insert(s, x);
    assert s1.best == s.best && s1.best.t <= s1.second.t <= s1.third.t <= x.t;
  }

  /** The filter object: three slots, overwritten in place; `filled` is false before the first sample. */
  class WindowedMinimum {
    const windowMs: nat
    var filled: bool
    const s: array<Sample>

    ghost predicate Valid()
      reads this, s
    {
      s.Length == 3
    }

    ghost function View(): Option<Slots>
      requires Valid()
      reads this, s
    {
      if filled then Some(Slots(s[0], s[1], s[2])) else None
    }

    constructor (windowMs: nat)
      ensures Valid() && fresh(s) && this.windowMs == windowMs && View() == None
    {
      this.windowMs := windowMs;
      filled := false;
      s := new Sample[3](i => Sample(0, 0.0));
    }

    method Reset()
      requires Valid()
      modifies this
      ensures Valid() && View() == None
    {
      filled := false;
    }

    method UpdateWith(now: nat, v: real) returns (m: real)
      requires Valid()
      modifies this, s
      ensures Valid() && View() == Some(Update(windowMs, old(View()), Sample(now, v)))
      ensures m == View().value.best.v
    {
      var val := Sample(now, v);
      var win := windowMs;
      if !(filled && v > s[0].v && SatSub(now, s[2].t) <= win) {
        filled := true;
        s[0], s[1], s[2] := val, val, val;
        return v;
      }
      ghost var before := Slots(s[0], s[1], s[2]);
      if v <= s[1].v {
        s[1] := val;
        s[2] := val;
      } else if v <= s[2].v {
        s[2] := val;
      }
      assert Slots(s[0], s[1], s[2]) == Insert(before, val);
      var dt := SatSub(now, s[0].t);
      if dt > win {
        s[0] := s[1];
        s[1] := s[2];
        s[2] := val;
        if SatSub(now, s[0].t) > win {
          s[0] := s[1];
          s[1] := s[2];
          s[2] := val;
        }
      } else if s[1].t == s[0].t && dt > win / 4 {
        s[1] := val;
        s[2] := val;
      } else if s[2].t == s[1].t && dt > win / 2 {
        s[2] := val;
      }
      return s[0].v;
    }
  }
}
