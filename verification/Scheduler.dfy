/**
 Selection as the sender runs it: loops over the slice of connections that write
 latch, gate, role, exclusion and ramp fields in place.
 */
module Scheduler {
  import opened Prelude
  import opened Links
  import opened Connection
  import opened Selection
  import St = Stall
  import Sc = SoleCarrier

  /** The slice holds distinct connections, as a vector of owned structs does. */
  ghost predicate Distinct(conns: seq<SrtlaConnection>) {
    forall i, j | 0 <= i < j < |conns| :: conns[i] != conns[j]
  }

  ghost function Views(conns: seq<SrtlaConnection>): (vs: seq<Link>)
    reads conns
    ensures |vs| == |conns| && forall i | 0 <= i < |conns| :: vs[i] == conns[i].View()
  {
    seq(|conns|, i requires 0 <= i < |conns| reads conns => conns[i].View())
  }

  // ----- the stall gate -----

  method Retime(conns: seq<SrtlaConnection>, cfg: Config)
    requires Distinct(conns)
    modifies conns
    ensures forall i | 0 <= i < |conns| :: conns[i].View() == Retimed(old(conns[i].View()), cfg)
  {
    for i := 0 to |conns|
      invariant forall j | 0 <= j < i :: conns[j].View() == Retimed(old(conns[j].View()), cfg)
      invariant forall j | i <= j < |conns| :: conns[j].View() == old(conns[j].View())
    {
      var c := conns[i];
      c.life := c.life.(timeoutMs := cfg.connTimeoutMs);
      c.budgetMs := cfg.negotiatedLatencyMs;
    }
  }

  method ClearGuard(conns: seq<SrtlaConnection>)
    requires Distinct(conns)
    modifies conns
    ensures forall i | 0 <= i < |conns| :: conns[i].View() == Ungated(old(conns[i].View()))
  {
    for i := 0 to |conns|
      invariant forall j | 0 <= j < i :: conns[j].View() == Ungated(old(conns[j].View()))
      invariant forall j | i <= j < |conns| :: conns[j].View() == old(conns[j].View())
    {
      var c := conns[i];
      c.guard := c.guard.(gated := false);
      c.guard := c.guard.(pulled := false);
      c.ClearStallLatch();
    }
  }

  method DriveLatches(conns: seq<SrtlaConnection>, now: nat, lim: St.Limits)
    requires Distinct(conns)
    modifies conns
    ensures forall i | 0 <= i < |conns| :: conns[i].View() == Passed(old(conns[i].View()), now, lim)
  {
    for i := 0 to |conns|
      invariant forall j | 0 <= j < i :: conns[j].View() == Passed(old(conns[j].View()), now, lim)
      invariant forall j | i <= j < |conns| :: conns[j].View() == old(conns[j].View())
    {
      conns[i].UpdateSilencePull(now, lim);
      conns[i].UpdateStallLatch(now, lim);
    }
  }

  method MarkGates(conns: seq<SrtlaConnection>, anyHealthy: bool)
    requires Distinct(conns)
    modifies conns
    ensures forall i | 0 <= i < |conns| :: conns[i].View() == MarkGated(old(conns[i].View()), anyHealthy)
  {
    for i := 0 to |conns|
      invariant forall j | 0 <= j < i :: conns[j].View() == MarkGated(old(conns[j].View()), anyHealthy)
      invariant forall j | i <= j < |conns| :: conns[j].View() == old(conns[j].View())
    {
      var c := conns[i];
      c.guard := c.guard.(gated := anyHealthy && (c.guard.latchedSince != 0 || c.guard.pulled));
    }
  }

  method FindHealthy(conns: seq<SrtlaConnection>, now: nat) returns (any: bool)
    ensures any == AnyHealthy(Views(conns), now)
  {
    any := false;
    for i := 0 to |conns|
      invariant any ==> AnyHealthy(Views(conns), now)
      invariant !any ==> forall j | 0 <= j < i :: !(conns[j].View().Usable(now) && !Suspect(conns[j].View()))
    {
      var c := conns[i].View();
      if c.Usable(now) && !Suspect(c) {
        assert Views(conns)[i] == c;
        any := true;
      }
    }
  }

  method ApplyStallGate(conns: seq<SrtlaConnection>, now: nat, cfg: Config)
    requires Distinct(conns)
    modifies conns
    ensures Views(conns) == Gate(old(Views(conns)), now, cfg)
  {
    ghost var was := Views(conns);
    Retime(conns, cfg);
    if !cfg.stallDeselect {
      ClearGuard(conns);
      return;
    }
    DriveLatches(conns, now, cfg.limits);
    assert Views(conns) == PassedAll(was, now, cfg);
    var any := FindHealthy(conns, now);
    MarkGates(conns, any);
  }

  // ----- classic -----

  method ClearQualityGates(conns: seq<SrtlaConnection>)
    requires Distinct(conns)
    modifies conns
    ensures forall i | 0 <= i < |conns| :: conns[i].View() == ClearQualityGate(old(conns[i].View()))
  {
    for i := 0 to |conns|
      invariant forall j | 0 <= j < i :: conns[j].View() == ClearQualityGate(old(conns[j].View()))
      invariant forall j | i <= j < |conns| :: conns[j].View() == old(conns[j].View())
    {
      var c := conns[i];
      c.excluded := false;
      c.role := c.role.(carrier := false, excluded := false, sinceMs := 0);
    }
  }

  method PickClassic(conns: seq<SrtlaConnection>, now: nat) returns (best: Option<nat>)
    ensures best == BestClassic(Views(conns), now, |conns|)
  {
    ghost var vs := Views(conns);
    best := None;
    var bestScore := -1;
    for i := 0 to |conns|
      invariant best == BestClassic(vs, now, i)
      invariant bestScore == if best.Some? then WeightedScore(vs[best.value]) else -1
    {
      var c := conns[i].View();
      assert c == vs[i];
      if !c.life.TimedOut(now) && c.life.Schedulable() && !c.guard.gated {
        var score := WeightedScore(c);
        if score > bestScore {
          bestScore := score;
          best := Some(i);
        }
      }
    }
  }

  // ----- the election -----

  /** Incumbent, best measured and best unmeasured candidate in one scan. */
  method ScanCandidates(conns: seq<SrtlaConnection>, now: nat)
    returns (incumbent: Option<nat>, measured: Option<nat>, unmeasured: Option<nat>)
    ensures incumbent == Sc.Incumbent(Views(conns), now, |conns|)
    ensures measured == Sc.BestMeasured(Views(conns), now, |conns|)
    ensures unmeasured == Sc.BestUnmeasured(Views(conns), now, |conns|)
  {
    ghost var vs := Views(conns);
    incumbent, measured, unmeasured := None, None, None;
    for i := 0 to |conns|
      invariant incumbent == Sc.Incumbent(vs, now, i)
      invariant measured == Sc.BestMeasured(vs, now, i)
      invariant unmeasured == Sc.BestUnmeasured(vs, now, i)
    {
      var c := conns[i].View();
      assert c == vs[i];
      if c.Candidate(now) {
        if c.signals.smoothRtt > 0.0 {
          if measured.None? || c.signals.smoothRtt < conns[measured.value].signals.smoothRtt {
            measured := Some(i);
          }
        } else {
          if unmeasured.None? || c.Score() > conns[unmeasured.value].View().Score() {
            unmeasured := Some(i);
          }
        }
        if c.role.carrier {
          incumbent := Some(i);
        }
      }
    }
  }

  method ReleaseAll(conns: seq<SrtlaConnection>, now: nat)
    requires Distinct(conns)
    modifies conns
    ensures forall i | 0 <= i < |conns| :: conns[i].View() == Sc.Released(old(conns[i].View()), now)
  {
    for i := 0 to |conns|
      invariant forall j | 0 <= j < i :: conns[j].View() == Sc.Released(old(conns[j].View()), now)
      invariant forall j | i <= j < |conns| :: conns[j].View() == old(conns[j].View())
    {
      var c := conns[i];
      if c.role.excluded {
        c.ArmRejoinRamp(now, HELD_OUT_RAMP_MS, false);
        c.role := c.role.(excluded := false);
      }
      c.role := c.role.(carrier := false);
    }
  }

  /** Role fields of one connection after an election. */
  method Assign(c: SrtlaConnection, now: nat, elected: bool, running: bool, handover: bool)
    modifies c
    ensures c.View() == Sc.Assigned(old(c.View()), now, elected, running, handover)
  {
    if elected {
      if c.role.excluded {
        c.ArmRejoinRamp(now, HELD_OUT_RAMP_MS, false);
      }
      if !c.role.carrier {
        c.role := c.role.(carrier := true);
        if handover || c.role.sinceMs == 0 {
          c.role := c.role.(sinceMs := now);
        }
        if handover {
          c.role := c.role.(elections := c.role.elections + 1);
        }
      }
      c.role := c.role.(excluded := false);
    } else {
      c.role := c.role.(carrier := false);
      if handover {
        c.role := c.role.(sinceMs := 0);
      }
      c.role := c.role.(excluded := running && c.View().Candidate(now));
    }
  }

  method AssignAll(conns: seq<SrtlaConnection>, now: nat, keep: Option<nat>, handover: bool)
    requires Distinct(conns)
    modifies conns
    ensures forall i | 0 <= i < |conns| ::
              conns[i].View() == Sc.Assigned(old(conns[i].View()), now, keep == Some(i), keep.Some?, handover)
  {
    for i := 0 to |conns|
      invariant forall j | 0 <= j < i ::
                  conns[j].View() == Sc.Assigned(old(conns[j].View()), now, keep == Some(j), keep.Some?, handover)
      invariant forall j | i <= j < |conns| :: conns[j].View() == old(conns[j].View())
    {
      Assign(conns[i], now, keep == Some(i), keep.Some?, handover);
    }
  }

  /** Who keeps or takes the role, and whether it moves. */
  method DecideCarrier(conns: seq<SrtlaConnection>, now: nat) returns (keep: Option<nat>, handover: bool)
    ensures keep == Sc.Keep(Views(conns), now) && handover == Sc.Hands(Views(conns), now)
  {
    var incumbent, measured, unmeasured := ScanCandidates(conns, now);
    var best := if measured.Some? then measured else unmeasured;
    keep, handover := best, false;
    if incumbent.Some? {
      keep := incumbent;
      if measured.Some? && best != incumbent {
        var inc, challenger := conns[incumbent.value], conns[measured.value];
        handover := Sc.HandoverDue(inc.signals.smoothRtt, challenger.signals.smoothRtt, SatSub(now, inc.role.sinceMs));
        if handover {
          keep := best;
        }
      }
    }
  }

  method ElectSoleCarrier(conns: seq<SrtlaConnection>, now: nat, anyQualityOk: bool) returns (keep: Option<nat>)
    requires Distinct(conns)
    modifies conns
    ensures (Views(conns), keep) == Sc.Elect(old(Views(conns)), now, anyQualityOk)
  {
    ghost var was := Views(conns);
    if anyQualityOk {
      ReleaseAll(conns, now);
      assert Views(conns) == Sc.ReleasedAll(was, now);
      return None;
    }
    var handover;
    keep, handover := DecideCarrier(conns, now);
    AssignAll(conns, now, keep, handover);
    assert Views(conns) == Sc.Elected(was, now);
  }

  // ----- enhanced -----

  method ScanPool(conns: seq<SrtlaConnection>, now: nat) returns (unconstrained: bool, qualityOk: bool)
    ensures unconstrained == AnyUnconstrained(Views(conns), now)
    ensures qualityOk == AnyQualityOk(Views(conns), now)
  {
    ghost var vs := Views(conns);
    unconstrained, qualityOk := false, false;
    for i := 0 to |conns|
      invariant unconstrained == exists j | 0 <= j < i :: Unconstrained(vs[j], now)
      invariant qualityOk == exists j | 0 <= j < i :: vs[j].Candidate(now) && vs[j].QualityOk()
    {
      var c := conns[i].View();
      assert c == vs[i];
      if c.Candidate(now) && c.QualityOk() {
        qualityOk := true;
        if !c.CapExceeded() {
          assert Unconstrained(vs[i], now);
          unconstrained := true;
        }
      }
    }
  }

  method MarkExclusions(conns: seq<SrtlaConnection>, now: nat, unconstrained: bool, carrier: Option<nat>)
    requires Distinct(conns)
    modifies conns
    ensures Views(conns) == Excluded(old(Views(conns)), now, unconstrained, carrier)
  {
    for i := 0 to |conns|
      invariant forall j | 0 <= j < i ::
                  var w := old(conns[j].View());
                  conns[j].View()
                    == MarkExcluded(w, now, HeldOut(w, now, unconstrained, carrier.Some? && carrier != Some(j)))
      invariant forall j | i <= j < |conns| :: conns[j].View() == old(conns[j].View())
    {
      var c := conns[i];
      var out := HeldOut(c.View(), now, unconstrained, carrier.Some? && carrier != Some(i));
      if c.excluded && !out {
        c.ArmRejoinRamp(now, HELD_OUT_RAMP_MS, false);
      }
      c.excluded := out;
    }
  }

  /** Score one connection if it is ranked, refreshing its quality cache first. */
  method ScoreLink(c: SrtlaConnection, v: View, q: real) returns (score: Option<real>)
    modifies c
    ensures c.View() == Refreshed(old(c.View()), v.now, v.useQuality, v.unconstrained, q)
    ensures score == Entry(c.View(), v)
  {
    RankedIgnoresQuality(c.View(), Quality(q, v.now), v.now, v.unconstrained);
    if !v.Ranks(c.View()) {
      return None;
    }
    if v.useQuality && SatSub(v.now, c.quality.calculatedMs) >= QUALITY_CACHE_MS {
      c.quality := Quality(q, v.now);
    }
    return Some(v.Of(c.View()));
  }

  /** One ranking loop: the best entry, its score, and the entry of the current link. */
  method Rank(conns: seq<SrtlaConnection>, last: Option<nat>, v: View, qs: seq<real>, ghost ss: seq<Option<real>>)
    returns (best: Option<nat>, top: real, current: Option<real>)
    requires Distinct(conns) && |qs| == |conns| == |ss|
    requires forall i | 0 <= i < |conns| ::
               ss[i] == Entry(Refreshed(conns[i].View(), v.now, v.useQuality, v.unconstrained, qs[i]), v)
    modifies conns
    ensures forall i | 0 <= i < |conns| ::
              conns[i].View() == Refreshed(old(conns[i].View()), v.now, v.useQuality, v.unconstrained, qs[i])
    ensures best == BestScore(ss, |ss|)
    ensures top == if best.Some? then ss[best.value].value else -1.0
    ensures current == if last.Some? && last.value < |ss| then ss[last.value] else None
  {
    best, top, current := None, -1.0, None;
    for i := 0 to |conns|
      invariant forall j | 0 <= j < i ::
                  conns[j].View() == Refreshed(old(conns[j].View()), v.now, v.useQuality, v.unconstrained, qs[j])
      invariant forall j | i <= j < |conns| :: conns[j].View() == old(conns[j].View())
      invariant best == BestScore(ss, i)
      invariant top == if best.Some? then ss[best.value].value else -1.0
      invariant current == if last.Some? && last.value < i then ss[last.value] else None
    {
      var score := ScoreLink(conns[i], v, qs[i]);
      best, top, current := Consider(i, score, last, best, top, current, ss);
    }
  }

  /** Fold entry `i` into the running best and remember the entry of the current link. */
  method Consider(i: nat, score: Option<real>, last: Option<nat>, best: Option<nat>, top: real, current: Option<real>,
                  ghost ss: seq<Option<real>>)
    returns (best': Option<nat>, top': real, current': Option<real>)
    requires i < |ss| && score == ss[i] && best == BestScore(ss, i)
    requires top == if best.Some? then ss[best.value].value else -1.0
    requires current == if last.Some? && last.value < i then ss[last.value] else None
    ensures best' == BestScore(ss, i + 1)
    ensures top' == if best'.Some? then ss[best'.value].value else -1.0
    ensures current' == if last.Some? && last.value < i + 1 then ss[last.value] else None
  {
    best', top', current' := best, top, current;
    if score.Some? {
      if last == Some(i) {
        current' := score;
      }
      if score.value > top {
        top' := score.value;
        best' := Some(i);
      }
    }
  }

  /** Rank, then stay on the current link unless the best is at least ten percent better. */
  method RankAndSettle(conns: seq<SrtlaConnection>, last: Option<nat>, v: View, qs: seq<real>)
      returns (pick: Option<nat>)
    requires Distinct(conns) && |qs| == |conns|
    modifies conns
    ensures Views(conns) == RefreshedAll(old(Views(conns)), v.now, v.useQuality, v.unconstrained, qs)
    ensures pick == Settle(Scores(Views(conns), v), last)
  {
    ghost var rs := RefreshedAll(Views(conns), v.now, v.useQuality, v.unconstrained, qs);
    var best, top, current := Rank(conns, last, v, qs, Scores(rs, v));
    assert Views(conns) == rs;
    if last.Some? && best != last && current.Some? && top < current.value * SWITCH_THRESHOLD {
      return last;
    }
    return best;
  }

  method RunEnhanced(conns: seq<SrtlaConnection>, last: Option<nat>, now: nat, useQuality: bool, qs: seq<real>)
    returns (pick: Option<nat>)
    requires Distinct(conns) && |qs| == |conns|
    modifies conns
    ensures (Views(conns), pick) == SelectEnhanced(old(Views(conns)), last, now, useQuality, qs)
  {
    ghost var was := Views(conns);
    var unconstrained, qualityOk := ScanPool(conns, now);
    var carrier := ElectSoleCarrier(conns, now, qualityOk);
    MarkExclusions(conns, now, unconstrained, carrier);
    assert Views(conns) == Prepared(was, now);
    pick := RankAndSettle(conns, last, View(now, useQuality, unconstrained), qs);
  }

  method SelectConnectionIdx(conns: seq<SrtlaConnection>, last: Option<nat>, now: nat, cfg: Config, qs: seq<real>)
    returns (pick: Option<nat>)
    requires Distinct(conns) && |qs| == |conns|
    modifies conns
    ensures (Views(conns), pick) == Select(old(Views(conns)), last, now, cfg, qs)
  {
    ApplyStallGate(conns, now, cfg);
    match cfg.mode {
      case Classic =>
        ghost var gs := Views(conns);
        ClearQualityGates(conns);
        assert Views(conns) == SelectClassic(gs, now).0;
        pick := PickClassic(conns, now);
      case Enhanced =>
        pick := RunEnhanced(conns, last, now, cfg.qualityEnabled, qs);
    }
  }
}
