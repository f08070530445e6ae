/**
 Election of the one link that carries the payload while every usable link is
 quality-gated, and the minimum hold that keeps the role from ping-ponging.
 */
module SoleCarrier {
  import opened Prelude
  import opened Links

  const MARGIN := 2.0
  const MIN_HOLD_MS: nat := 2000

  /** Should the role move?  An unmeasured RTT on either side blocks the handover. */
  predicate HandoverDue(incumbentRtt: real, challengerRtt: real, heldFor: nat) {
    && heldFor >= MIN_HOLD_MS
    && incumbentRtt > 0.0 && challengerRtt > 0.0
    && challengerRtt * MARGIN <= incumbentRtt
  }

  /** First candidate of the first `n` with the lowest measured RTT. */
  function BestMeasured(ls: seq<Link>, now: nat, n: nat): (b: Option<nat>)
    requires n <= |ls|
    ensures b.Some? ==> b.value < n && ls[b.value].Candidate(now) && ls[b.value].signals.smoothRtt > 0.0
  {
    if n == 0 then None else
    var p := BestMeasured(ls, now, n - 1);
    var l := ls[n - 1];
    if l.Candidate(now) && l.signals.smoothRtt > 0.0
       && (p.None? || l.signals.smoothRtt < ls[p.value].signals.smoothRtt) then Some(n - 1) else p
  }

  /** First candidate of the first `n` without a measured RTT that has the highest raw score. */
  function BestUnmeasured(ls: seq<Link>, now: nat, n: nat): (b: Option<nat>)
    requires n <= |ls|
    ensures b.Some? ==> b.value < n && ls[b.value].Candidate(now) && ls[b.value].signals.smoothRtt <= 0.0
  {
    if n == 0 then None else
    var p := BestUnmeasured(ls, now, n - 1);
    var l := ls[n - 1];
    if l.Candidate(now) && l.signals.smoothRtt <= 0.0
       && (p.None? || l.Score() > ls[p.value].Score()) then Some(n - 1) else p
  }

  /** The candidate currently holding the role. */
  function Incumbent(ls: seq<Link>, now: nat, n: nat): (b: Option<nat>)
    requires n <= |ls|
    ensures b.Some? ==> b.value < n && ls[b.value].Candidate(now) && ls[b.value].role.carrier
  {
    if n == 0 then None
    else if ls[n - 1].Candidate(now) && ls[n - 1].role.carrier then Some(n - 1)
    else Incumbent(ls, now, n - 1)
  }

  function Best(ls: seq<Link>, now: nat): Option<nat> {
    var m := BestMeasured(ls, now, |ls|);
    if m.Some? then m else BestUnmeasured(ls, now, |ls|)
  }

  /** The incumbent's role passes to the best measured sibling. */
  predicate Hands(ls: seq<Link>, now: nat) {
    var inc := Incumbent(ls, now, |ls|);
    var m := BestMeasured(ls, now, |ls|);
    && inc.Some? && m.Some? && m != inc
    && HandoverDue(ls[inc.value].signals.smoothRtt, ls[m.value].signals.smoothRtt,
                   SatSub(now, ls[inc.value].role.sinceMs))
  }

  function Keep(ls: seq<Link>, now: nat): Option<nat> {
    var inc := Incumbent(ls, now, |ls|);
    if inc.None? || Hands(ls, now) then Best(ls, now) else inc
  }

  function Released(l: Link, now: nat): Link {
    var r := if l.role.excluded then ArmRamp(l, now) else l;
    r.(role := l.role.(carrier := false, excluded := false))
  }

  /** The new role fields of one link; `elected` says it keeps or takes the role, `running` that somebody does. */
  function Assigned(l: Link, now: nat, elected: bool, running: bool, handover: bool): Link {
    if elected then
      var r := if l.role.excluded then ArmRamp(l, now) else l;
      if l.role.carrier then r.(role := l.role.(excluded := false)) else
      r.(role := Role(true, if handover || l.role.sinceMs == 0 then now else l.role.sinceMs, false,
                      l.role.elections + if handover then 1 else 0))
    else
      l.(role := Role(false, if handover then 0 else l.role.sinceMs, running && l.Candidate(now), l.role.elections))
  }

  function Elected(ls: seq<Link>, now: nat): seq<Link> {
    seq(|ls|, i requires 0 <= i < |ls| =>
      Assigned(ls[i], now, Keep(ls, now) == Some(i), Keep(ls, now).Some?, Hands(ls, now)))
  }

  function ReleasedAll(ls: seq<Link>, now: nat): seq<Link> {
    seq(|ls|, i requires 0 <= i < |ls| => Released(ls[i], now))
  }

  function Elect(ls: seq<Link>, now: nat, anyQualityOk: bool): (seq<Link>, Option<nat>) {
    if anyQualityOk then (ReleasedAll(ls, now), None) else (Elected(ls, now), Keep(ls, now))
  }

  // ----- what the election picks -----

  lemma {:induction false} BestMeasuredIsLowest(ls: seq<Link>, now: nat, n: nat)
    requires n <= |ls|
    ensures forall i | 0 <= i < n && ls[i].Candidate(now) && ls[i].signals.smoothRtt > 0.0 ::
              var b := BestMeasured(ls, now, n);
              b.Some? && ls[b.value].signals.smoothRtt <= ls[i].signals.smoothRtt
  {
    if n > 0 {
      BestMeasuredIsLowest(ls, now, n - 1);
    }
  }

  lemma {:induction false} BestUnmeasuredIsHighest(ls: seq<Link>, now: nat, n: nat)
    requires n <= |ls|
    ensures forall i | 0 <= i < n && ls[i].Candidate(now) && ls[i].signals.smoothRtt <= 0.0 ::
              var b := BestUnmeasured(ls, now, n);
              b.Some? && ls[b.value].Score() >= ls[i].Score()
  {
    if n > 0 {
      BestUnmeasuredIsHighest(ls, now, n - 1);
    }
  }

  /** Some link carries exactly when some link could: the election never leaves a non-empty pool without a carrier. */
  lemma CarrierExistsIff(ls: seq<Link>, now: nat)
    ensures Keep(ls, now).Some? <==> exists i | 0 <= i < |ls| :: ls[i].Candidate(now)
    ensures Keep(ls, now).Some? ==> Keep(ls, now).value < |ls| && ls[Keep(ls, now).value].Candidate(now)
  {
    BestMeasuredIsLowest(ls, now, |ls|);
    BestUnmeasuredIsHighest(ls, now, |ls|);
  }

  /**
   With an incumbent, the role moves exactly when the incumbent has served its hold
   and some candidate measures at least twice as fast; otherwise the incumbent stays.
   */
  lemma HandoverIff(ls: seq<Link>, now: nat)
    requires Incumbent(ls, now, |ls|).Some?
    ensures var inc := Incumbent(ls, now, |ls|).value;
            Keep(ls, now) != Some(inc) <==>
              SatSub(now, ls[inc].role.sinceMs) >= 2000
              && exists i | 0 <= i < |ls| :: ls[i].Candidate(now) && 0.0 < ls[i].signals.smoothRtt
                                             && 2.0 * ls[i].signals.smoothRtt <= ls[inc].signals.smoothRtt
  {
    BestMeasuredIsLowest(ls, now, |ls|);
    var inc := Incumbent(ls, now, |ls|).value;
    if Hands(ls, now) {
      var b := BestMeasured(ls, now, |ls|).value;
      assert ls[b].Candidate(now);
    }
  }

  /** A handover lands on the fastest measured candidate. */
  lemma HandoverGoesToFastest(ls: seq<Link>, now: nat)
    requires Hands(ls, now)
    ensures Keep(ls, now).Some?
    ensures forall i | 0 <= i < |ls| && ls[i].Candidate(now) && ls[i].signals.smoothRtt > 0.0 ::
              0.0 < ls[Keep(ls, now).value].signals.smoothRtt <= ls[i].signals.smoothRtt
  {
    BestMeasuredIsLowest(ls, now, |ls|);
  }

  // ----- runs -----

  function Elections(ls: seq<Link>): nat {
    if ls == [] then 0 else Elections(ls[..|ls| - 1]) + ls[|ls| - 1].role.elections
  }

  lemma {:induction false} ElectionsUnchanged(ls: seq<Link>, ms: seq<Link>)
    requires |ls| == |ms| && forall i | 0 <= i < |ls| :: ls[i].role.elections == ms[i].role.elections
    ensures Elections(ls) == Elections(ms)
  {
    if ls != [] {
      ElectionsUnchanged(ls[..|ls| - 1], ms[..|ms| - 1]);
    }
  }

  lemma {:induction false} ElectionsBumped(ls: seq<Link>, ms: seq<Link>, k: nat)
    requires |ls| == |ms| && k < |ls| && ms[k].role.elections == ls[k].role.elections + 1
    requires forall i | 0 <= i < |ls| && i != k :: ls[i].role.elections == ms[i].role.elections
    ensures Elections(ms) == Elections(ls) + 1
  {
    if k == |ls| - 1 {
      ElectionsUnchanged(ls[..|ls| - 1], ms[..|ms| - 1]);
    } else {
      ElectionsBumped(ls[..|ls| - 1], ms[..|ms| - 1], k);
    }
  }

  /** What can happen to a bond between two instants, as far as the role is concerned. */
  datatype Move =
    | Election(anyQualityOk: bool)  // enhanced selection
    | Classic                       // a selection in classic mode clears the gate state
    | Reset(index: nat)             // a link is recovered or reconnected
    | Other                         // anything that leaves every role as it is

  datatype Act = Act(move: Move, now: nat)

  function ClassicRole(r: Role): Role {
    Role(false, 0, false, r.elections)
  }

  predicate Follows(ls: seq<Link>, a: Act, ms: seq<Link>) {
    && |ms| == |ls|
    && match a.move
       case Election(ok) => ms == Elect(ls, a.now, ok).0
       case Classic => forall i | 0 <= i < |ls| :: ms[i].role == ClassicRole(ls[i].role)
       case Reset(k) => forall i | 0 <= i < |ls| ::
                          ms[i].role == if i == k then ClassicRole(ls[i].role) else ls[i].role
       case Other => forall i | 0 <= i < |ls| :: ms[i].role == ls[i].role
  }

  predicate Unheld(ls: seq<Link>) {
    forall i | 0 <= i < |ls| :: !ls[i].role.carrier && ls[i].role.sinceMs == 0
  }

  predicate Clocked(acts: seq<Act>) {
    && (forall n | 0 <= n < |acts| :: acts[n].now > 0)
    && (forall i, j | 0 <= i < j < |acts| :: acts[i].now <= acts[j].now)
  }

  /** A fixed bond over time: positive, nondecreasing clock, nobody holding the role at first. */
  predicate Run(bs: seq<seq<Link>>, acts: seq<Act>) {
    && |bs| == |acts| + 1 && Unheld(bs[0])
    && Clocked(acts)
    && (forall n | 0 <= n < |acts| :: Follows(bs[n], acts[n], bs[n + 1]))
  }

  lemma RunContinues(bs: seq<seq<Link>>, acts: seq<Act>, a: Act, ms: seq<Link>)
    requires Run(bs, acts) && Follows(bs[|acts|], a, ms)
    requires a.now > 0 && forall n | 0 <= n < |acts| :: acts[n].now <= a.now
    ensures Run(bs + [ms], acts + [a])
  {
    var cs, more := bs + [ms], acts + [a];
    assert cs[0] == bs[0];
    forall n | 0 <= n < |more|
      ensures Follows(cs[n], more[n], cs[n + 1])
    {
      if n < |acts| {
        assert cs[n] == bs[n] && cs[n + 1] == bs[n + 1] && more[n] == acts[n];
      }
    }
  }

  /** Three acts at one instant. */
  lemma RunContinuesThrice(bs: seq<seq<Link>>, acts: seq<Act>, a: Act, b: Act, c: Act, gs: seq<Link>, es: seq<Link>,
                           rs: seq<Link>)
    requires Run(bs, acts) && Follows(bs[|acts|], a, gs) && Follows(gs, b, es) && Follows(es, c, rs)
    requires 0 < a.now == b.now == c.now && forall n | 0 <= n < |acts| :: acts[n].now <= a.now
    ensures Run(bs + [gs, es, rs], acts + [a, b, c])
  {
    RunContinues(bs, acts, a, gs);
    RunContinues(bs + [gs], acts + [a], b, es);
    RunContinues(bs + [gs] + [es], acts + [a] + [b], c, rs);
    assert bs + [gs, es, rs] == bs + [gs] + [es] + [rs] && acts + [a, b, c] == acts + [a] + [b] + [c];
  }

  /** At most one carrier; a carrier has a stamp; no stamp is older than `t`. */
  predicate RolesOk(ls: seq<Link>, t: nat) {
    && (forall i, j | 0 <= i < j < |ls| :: !(ls[i].role.carrier && ls[j].role.carrier))
    && (forall i | 0 <= i < |ls| :: ls[i].role.carrier ==> ls[i].role.sinceMs != 0)
    && (forall i | 0 <= i < |ls| :: ls[i].role.sinceMs != 0 ==> ls[i].role.sinceMs >= t)
  }

  predicate HandsOver(ls: seq<Link>, a: Act) {
    a.move.Election? && !a.move.anyQualityOk && Hands(ls, a.now)
  }

  lemma ElectedRoles(ls: seq<Link>, now: nat, t: nat)
    requires RolesOk(ls, t) && now > 0 && now >= t
    ensures RolesOk(Elected(ls, now), if Hands(ls, now) then now else t)
  {
    var k := Keep(ls, now);
    var ms := Elected(ls, now);
    forall i | 0 <= i < |ls|
      ensures ms[i].role.carrier ==> k == Some(i) && ms[i].role.sinceMs != 0
      ensures ms[i].role.sinceMs != 0 ==> ms[i].role.sinceMs >= t
    {
    }
    if Hands(ls, now) {
      HandedOver(ls, now);
    }
  }

  /** Any act keeps the role rules for an old bound, and a handover re-establishes them for its own time. */
  lemma ActKeepsRoles(ls: seq<Link>, a: Act, ms: seq<Link>, t: nat)
    requires RolesOk(ls, t) && Follows(ls, a, ms) && a.now > 0 && a.now >= t
    ensures RolesOk(ms, if HandsOver(ls, a) then a.now else t)
  {
    match a.move {
      case Election(ok) =>
        if !ok {
          ElectedRoles(ls, a.now, t);
        }
      case Classic =>
      case Reset(k) =>
      case Other =>
    }
  }

  /** The link taking over was not the incumbent, so it did not hold the role. */
  lemma HandedOver(ls: seq<Link>, now: nat)
    requires Hands(ls, now) && forall i, j | 0 <= i < j < |ls| :: !(ls[i].role.carrier && ls[j].role.carrier)
    ensures Keep(ls, now).Some? && Keep(ls, now).value < |ls| && !ls[Keep(ls, now).value].role.carrier
  {
    var inc := Incumbent(ls, now, |ls|).value;
    var k := BestMeasured(ls, now, |ls|).value;
    assert k != inc && ls[inc].role.carrier;
  }

  lemma ElectedCounter(ls: seq<Link>, now: nat, i: nat)
    requires i < |ls|
    ensures Elected(ls, now)[i].role.elections
            == ls[i].role.elections + if Keep(ls, now) == Some(i) && !ls[i].role.carrier && Hands(ls, now) then 1 else 0
  {
  }

  lemma ElectionCounts(ls: seq<Link>, ms: seq<Link>, k: Option<nat>)
    requires |ms| == |ls| && (k.Some? ==> k.value < |ls|)
    requires forall i | 0 <= i < |ls| :: ms[i].role.elections == ls[i].role.elections + if k == Some(i) then 1 else 0
    ensures Elections(ms) == Elections(ls) + if k.Some? then 1 else 0
  {
    if k.Some? {
      ElectionsBumped(ls, ms, k.value);
    } else {
      ElectionsUnchanged(ls, ms);
    }
  }

  /** An election raises the counter of the link taking over, and no other. */
  lemma HandoverCounts(ls: seq<Link>, now: nat)
    requires forall i, j | 0 <= i < j < |ls| :: !(ls[i].role.carrier && ls[j].role.carrier)
    ensures Elections(Elected(ls, now)) == Elections(ls) + if Hands(ls, now) then 1 else 0
  {
    var k := if Hands(ls, now) then Keep(ls, now) else None;
    if Hands(ls, now) {
      HandedOver(ls, now);
    }
    var ms := Elected(ls, now);
    forall i | 0 <= i < |ls|
      ensures ms[i].role.elections == ls[i].role.elections + if k == Some(i) then 1 else 0
    {
      ElectedCounter(ls, now, i);
    }
    ElectionCounts(ls, ms, k);
  }

  /** Handovers are exactly what the per-link counters count, one at a time. */
  lemma ActCounts(ls: seq<Link>, a: Act, ms: seq<Link>, t: nat)
    requires RolesOk(ls, t) && Follows(ls, a, ms)
    ensures Elections(ms) == Elections(ls) + if HandsOver(ls, a) then 1 else 0
  {
    if a.move.Election? && !a.move.anyQualityOk {
      HandoverCounts(ls, a.now);
    } else {
      ElectionsUnchanged(ls, ms);
    }
  }

  /** Latest handover among the first `n` acts, as a time; 0 if there was none. */
  function LastHandover(bs: seq<seq<Link>>, acts: seq<Act>, n: nat): nat
    requires n <= |acts| <= |bs|
  {
    if n == 0 then 0 else if HandsOver(bs[n - 1], acts[n - 1]) then acts[n - 1].now else LastHandover(bs, acts, n - 1)
  }

  lemma {:induction false} RolesOverRuns(bs: seq<seq<Link>>, acts: seq<Act>, n: nat)
    requires Run(bs, acts) && n <= |acts|
    ensures RolesOk(bs[n], LastHandover(bs, acts, n))
    ensures n > 0 ==> LastHandover(bs, acts, n) <= acts[n - 1].now
  {
    if n > 0 {
      RolesOverRuns(bs, acts, n - 1);
      ActKeepsRoles(bs[n - 1], acts[n - 1], bs[n], LastHandover(bs, acts, n - 1));
    }
  }

  /** At no instant do two links hold the role. */
  lemma AtMostOneCarrier(bs: seq<seq<Link>>, acts: seq<Act>, n: nat, i: nat, j: nat)
    requires Run(bs, acts) && n <= |acts| && i < |bs[n]| && j < |bs[n]|
    requires bs[n][i].role.carrier && bs[n][j].role.carrier
    ensures i == j
  {
    RolesOverRuns(bs, acts, n);
  }

  /** A handover comes at least the hold after the one before it, whoever held the role in between. */
  lemma HandoverAfterHold(bs: seq<seq<Link>>, acts: seq<Act>, n: nat)
    requires Run(bs, acts) && n < |acts| && HandsOver(bs[n], acts[n]) && LastHandover(bs, acts, n) > 0
    ensures acts[n].now - LastHandover(bs, acts, n) >= MIN_HOLD_MS
  {
    RolesOverRuns(bs, acts, n);
    var inc := Incumbent(bs[n], acts[n].now, |bs[n]|).value;
    assert bs[n][inc].role.sinceMs >= LastHandover(bs, acts, n);
  }

  lemma {:induction false} LastHandoverIsLatest(bs: seq<seq<Link>>, acts: seq<Act>, i: nat, n: nat)
    requires Clocked(acts) && i < n <= |acts| <= |bs| && HandsOver(bs[i], acts[i])
    ensures LastHandover(bs, acts, n) >= acts[i].now > 0
    decreases n
  {
    if n > i + 1 && !HandsOver(bs[n - 1], acts[n - 1]) {
      LastHandoverIsLatest(bs, acts, i, n - 1);
    }
  }

  /** Two handovers anywhere in the bond are at least 2000 ms apart. */
  lemma HandoversAreSpaced(bs: seq<seq<Link>>, acts: seq<Act>, i: nat, j: nat)
    requires Run(bs, acts) && i < j < |acts| && HandsOver(bs[i], acts[i]) && HandsOver(bs[j], acts[j])
    ensures acts[j].now - acts[i].now >= 2000
  {
    LastHandoverIsLatest(bs, acts, i, j);
    HandoverAfterHold(bs, acts, j);
  }

  /** So many handovers since act `m` have pushed the latest one that far from it. */
  lemma {:induction false} HandoversTakeTime(bs: seq<seq<Link>>, acts: seq<Act>, m: nat, n: nat)
    requires Run(bs, acts) && m <= n <= |acts|
    ensures var h := Elections(bs[n]) - Elections(bs[m]);
            h >= 0 && (h >= 1 ==> m < n && LastHandover(bs, acts, n) >= acts[m].now + MIN_HOLD_MS * (h - 1))
    decreases n
  {
    if m < n {
      HandoversTakeTime(bs, acts, m, n - 1);
      RolesOverRuns(bs, acts, n - 1);
      ActCounts(bs[n - 1], acts[n - 1], bs[n], LastHandover(bs, acts, n - 1));
      if HandsOver(bs[n - 1], acts[n - 1]) && LastHandover(bs, acts, n - 1) > 0 {
        HandoverAfterHold(bs, acts, n - 1);
      }
      assert m < n - 1 ==> acts[m].now <= acts[n - 1].now;
    }
  }

  /** In any span of D ms, from any act of the run on, the whole bond counts at most 1 + D / 2000 handovers. */
  lemma HandoverBudget(bs: seq<seq<Link>>, acts: seq<Act>, m: nat, n: nat)
    requires Run(bs, acts) && m < n <= |acts|
    ensures Elections(bs[n]) - Elections(bs[m]) <= 1 + (acts[n - 1].now - acts[m].now) / 2000
  {
    HandoversTakeTime(bs, acts, m, n);
    RolesOverRuns(bs, acts, n);
    assert m < n - 1 ==> acts[m].now <= acts[n - 1].now;
  }
}
