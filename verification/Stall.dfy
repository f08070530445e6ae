/**
 The stalled-link guard of one link: the fast silence pull, the asymmetric stall
 latch with its rejoin backoff, and the share ramp that follows a release.
 */
module Stall {
  import opened Prelude

  const STALE_RTT_MULT: nat := 4
  const STALE_FLOOR_MS: nat := 1_000
  const PROOF_FLOOR_MS: nat := 1_500
  const REJOIN_DWELL_MULT: nat := 2
  const REJOIN_BACKOFF_MAX: nat := 16
  const REJOIN_PROBATION_MULT: nat := 3
  const PULL_FLOOR_MS: nat := 250
  const PULL_RTT_MULT: nat := 2
  const RAMP_FLOOR := 0.05

  /** Latch, pull and gate fields; a zero stamp means "not set". */
  datatype Guard = Guard(
    gated: bool,
    latchedSince: nat,
    recoverySince: nat,
    gateEvents: nat,
    releasedAt: nat,
    backoff: nat,
    pulled: bool,
    pulls: nat)
  {
    predicate Latched() {
      latchedSince != 0
    }
  }

  datatype Ramp = Ramp(startMs: nat, lengthMs: nat, fromStallGate: bool)

  const CLEAR := Guard(false, 0, 0, 0, 0, 0, false, 0)
  const NO_RAMP := Ramp(0, 0, false)

  /** What a pass reads off the link. `smoothRtt` is never negative. */
  datatype Reading = Reading(
    connected: bool,
    inFlight: int,
    lastReceived: Option<nat>,
    lastProofMs: nat,
    smoothRtt: real,
    budgetMs: nat)

  datatype Limits = Limits(minInFlight: int, ceilingMs: nat)

  function Whole(x: real): nat {
    if x <= 0.0 then 0 else if x.Floor > U64_MAX then U64_MAX else x.Floor
  }

  // ----- pure reads -----

  function StaleMs(r: Reading, lim: Limits): nat {
    if r.smoothRtt <= 0.0 then lim.ceilingMs
    else Min(Max(SatMul(Whole(r.smoothRtt), STALE_RTT_MULT), STALE_FLOOR_MS), lim.ceilingMs)
  }

  predicate ProofStale(r: Reading, lim: Limits, now: nat) {
    r.lastProofMs != 0 && SatSub(now, r.lastProofMs) >= StaleMs(r, lim)
  }

  predicate Stalled(r: Reading, lim: Limits, now: nat) {
    r.connected && r.inFlight >= lim.minInFlight && ProofStale(r, lim, now)
  }

  predicate Timely(smoothRtt: real, budgetMs: nat) {
    budgetMs == 0 || smoothRtt <= 0.0 || smoothRtt / 2.0 <= budgetMs as real
  }

  /** Recent enough and fast enough to count towards a rejoin. */
  predicate ProofFresh(r: Reading, lim: Limits, now: nat) {
    && r.lastProofMs != 0
    && SatSub(now, r.lastProofMs) < Max(StaleMs(r, lim), PROOF_FLOOR_MS)
    && Timely(r.smoothRtt, r.budgetMs)
  }

  function PullWindowMs(r: Reading, lim: Limits): nat {
    var base := if r.smoothRtt <= 0.0 then PULL_FLOOR_MS
                else Max(SatMul(Whole(r.smoothRtt), PULL_RTT_MULT), PULL_FLOOR_MS);
    Min(base, StaleMs(r, lim))
  }

  predicate BrieflySilent(r: Reading, lim: Limits, now: nat) {
    && r.connected && r.inFlight >= lim.minInFlight
    && r.lastReceived.Some? && SatSub(now, r.lastReceived.value) >= PullWindowMs(r, lim)
  }

  predicate Spoke(r: Reading, lim: Limits, now: nat) {
    r.lastReceived.Some? && SatSub(now, r.lastReceived.value) < PullWindowMs(r, lim)
  }

  function BackoffNext(backoff: nat, releasedAt: nat, heldFor: nat, probation: nat): nat {
    if releasedAt == 0 || heldFor >= probation then 1
    else Min(if backoff <= 1 then 2 else backoff * 2, REJOIN_BACKOFF_MAX)
  }

  function Multiplier(p: Ramp, now: nat): real {
    if p.startMs == 0 || p.lengthMs == 0 then 1.0 else
    var elapsed := SatSub(now, p.startMs);
    if elapsed >= p.lengthMs then 1.0
    else RMin(RMax(RAMP_FLOOR + (1.0 - RAMP_FLOOR) * (elapsed as real / p.lengthMs as real), RAMP_FLOOR), 1.0)
  }

  // ----- updates -----

  function ArmRamp(p: Ramp, now: nat, lengthMs: nat, fromStallGate: bool): Ramp {
    if Multiplier(p, now) < 1.0 then p else Ramp(now, lengthMs, fromStallGate)
  }

  function UpdatePull(g: Guard, r: Reading, lim: Limits, now: nat): Guard {
    if BrieflySilent(r, lim, now) then
      g.(pulled := true, pulls := if g.pulled then g.pulls else g.pulls + 1)
    else if g.pulled && (Spoke(r, lim, now) || !r.connected) then
      g.(pulled := false)
    else g
  }

  /** The signal that engages the latch: a stall, or a pull held until the proof went fully stale. */
  predicate EngageSignal(g: Guard, r: Reading, lim: Limits, now: nat) {
    Stalled(r, lim, now) || (g.pulled && ProofStale(r, lim, now))
  }

  function BaseDwell(r: Reading, lim: Limits): nat {
    SatMul(StaleMs(r, lim), REJOIN_DWELL_MULT)
  }

  function Dwell(g: Guard, r: Reading, lim: Limits): nat {
    SatMul(BaseDwell(r, lim), Max(g.backoff, 1))
  }

  /** Start of the proof run a fresh proof at `now` belongs to. */
  function RunStart(g: Guard, now: nat): nat {
    if g.recoverySince == 0 then now else g.recoverySince
  }

  predicate Releases(g: Guard, r: Reading, lim: Limits, now: nat) {
    && g.Latched() && !EngageSignal(g, r, lim, now) && ProofFresh(r, lim, now)
    && SatSub(now, RunStart(g, now)) >= Dwell(g, r, lim)
  }

  function UpdateLatch(g: Guard, r: Reading, lim: Limits, now: nat): Guard {
    if EngageSignal(g, r, lim, now) then
      if g.Latched() then g.(recoverySince := 0) else
      g.(backoff := BackoffNext(g.backoff, g.releasedAt, SatSub(now, g.releasedAt),
                                SatMul(StaleMs(r, lim), REJOIN_PROBATION_MULT)),
         latchedSince := now, gateEvents := g.gateEvents + 1, recoverySince := 0)
    else if !g.Latched() then g
    else if !ProofFresh(r, lim, now) then g.(recoverySince := 0)
    else if Releases(g, r, lim, now) then g.(latchedSince := 0, recoverySince := 0, releasedAt := now)
    else g.(recoverySince := RunStart(g, now))
  }

  /** A release arms the share ramp over the base dwell. */
  function UpdateRamp(g: Guard, p: Ramp, r: Reading, lim: Limits, now: nat): Ramp {
    if Releases(g, r, lim, now) then ArmRamp(p, now, BaseDwell(r, lim), true) else p
  }

  /** One selection pass: the pull first, since the latch escalates from it. */
  function Pass(g: Guard, r: Reading, lim: Limits, now: nat): Guard {
    UpdateLatch(UpdatePull(g, r, lim, now), r, lim, now)
  }

  /** Guard switched off: everything the guard owns goes, including a ramp it armed. */
  function ClearLatch(g: Guard): Guard {
    g.(latchedSince := 0, recoverySince := 0, releasedAt := 0, backoff := 0)
  }

  function ClearStallRamp(p: Ramp): Ramp {
    if p.fromStallGate then NO_RAMP else p
  }

  /** A link reset: engagement and pull counters survive. */
  function ResetGuard(g: Guard): Guard {
    CLEAR.(gateEvents := g.gateEvents, pulls := g.pulls)
  }

  // ----- the ramp -----

  /** A ramp never silences a link, never boosts it, and never falls while it runs. */
  lemma RampIsMonotone(p: Ramp, t: nat, t': nat)
    requires p.startMs <= t <= t'
    ensures RAMP_FLOOR <= Multiplier(p, t) <= Multiplier(p, t') <= 1.0
    ensures p.startMs != 0 && p.lengthMs != 0 ==> (Multiplier(p, t) < 1.0 <==> t < p.startMs + p.lengthMs)
  {
    if p.startMs != 0 && p.lengthMs != 0 && t < p.startMs + p.lengthMs {
      var l := p.lengthMs as real;
      var x := (t - p.startMs) as real;
      Fraction(x, l);
      if t' < p.startMs + p.lengthMs {
        var y := (t' - p.startMs) as real;
        Fraction(y, l);
        FractionMonotone(x, y, l);
      }
    }
  }

  lemma Fraction(x: real, l: real)
    requires 0.0 <= x < l
    ensures 0.0 <= x / l < 1.0
  {
    var q := x / l;
    assert q * l == x;
  }

  lemma FractionMonotone(x: real, y: real, l: real)
    requires x <= y && l > 0.0
    ensures x / l <= y / l
  {
    var a, b := x / l, y / l;
    assert a * l == x && b * l == y;
  }

  /** Arming is idempotent while a ramp runs, and a fresh ramp starts at the floor. */
  lemma RunningRampIsKept(p: Ramp, now: nat, len: nat, from: bool)
    requires now > 0
    ensures Multiplier(p, now) < 1.0 ==> ArmRamp(p, now, len, from) == p
    ensures Multiplier(p, now) >= 1.0 && len > 0 ==> Multiplier(ArmRamp(p, now, len, from), now) == RAMP_FLOOR
  {
  }

  // ----- passes over time -----

  datatype Look = Look(reading: Reading, now: nat)

  predicate Clocked(ps: seq<Look>) {
    && (forall i | 0 <= i < |ps| :: ps[i].now > 0)
    && (forall i, j | 0 <= i < j < |ps| :: ps[i].now <= ps[j].now)
  }

  /**
   A run: the guard before and after every pass, with fixed limits and no reset in
   between.  It starts wherever a reset leaves the guard, and the gate may set or
   clear the gate flag after each pass as it likes.
   */
  predicate Run(gs: seq<Guard>, ps: seq<Look>, lim: Limits) {
    && Clocked(ps) && |gs| == |ps| + 1 && gs[0] == ResetGuard(gs[0])
    && forall n | 0 <= n < |ps| :: gs[n + 1] == Pass(gs[n], ps[n].reading, lim, ps[n].now).(gated := gs[n + 1].gated)
  }

  /** What one pass can do to the latch, case by case. */
  predicate Effect(g: Guard, h: Guard, k: Look, lim: Limits) {
    var good := ProofFresh(k.reading, lim, k.now) && !Stalled(k.reading, lim, k.now);
    var since := RunStart(g, k.now);
    if !g.Latched() then
      if h.Latched() then
        h.recoverySince == 0 && (g.backoff == 0 || PowerUpTo16(g.backoff) ==> PowerUpTo16(h.backoff))
      else h.recoverySince == g.recoverySince && h.backoff == g.backoff
    else
      && h.backoff == g.backoff
      && if h.Latched() then h.recoverySince == 0 || (good && h.recoverySince == since)
         else good && SatSub(k.now, since) >= Dwell(g, k.reading, lim) && h.recoverySince == 0
  }

  lemma LatchEffect(g: Guard, k: Look, lim: Limits)
    requires k.now > 0
    ensures Effect(g, UpdateLatch(g, k.reading, lim, k.now), k, lim)
  {
  }

  lemma PassEffect(g: Guard, k: Look, lim: Limits, gated: bool)
    requires k.now > 0
    ensures Effect(g, Pass(g, k.reading, lim, k.now).(gated := gated), k, lim)
  {
    LatchEffect(UpdatePull(g, k.reading, lim, k.now), k, lim);
  }

  /** What one pass does to the release stamp, the pull and, at an engagement, the backoff. */
  predicate Records(g: Guard, h: Guard, k: Look, lim: Limits) {
    && h.releasedAt == (if g.Latched() && !h.Latched() then k.now else g.releasedAt)
    && h.pulled == (Silent(k, lim) || (g.pulled && !Lifts(k, lim)))
    && h.backoff == if g.Latched() || !h.Latched() then g.backoff
                    else BackoffNext(g.backoff, g.releasedAt, SatSub(k.now, g.releasedAt),
                                     SatMul(StaleMs(k.reading, lim), REJOIN_PROBATION_MULT))
  }

  lemma PassRecords(g: Guard, k: Look, lim: Limits, gated: bool)
    requires k.now > 0
    ensures Records(g, Pass(g, k.reading, lim, k.now).(gated := gated), k, lim)
  {
  }

  /** A sequence of guards, each reached from the one before by an allowed effect of its pass. */
  predicate Linked(gs: seq<Guard>, ps: seq<Look>, lim: Limits) {
    && Clocked(ps) && |gs| == |ps| + 1 && gs[0] == ResetGuard(gs[0])
    && forall n | 0 <= n < |ps| :: Effect(gs[n], gs[n + 1], ps[n], lim)
  }

  predicate Recorded(gs: seq<Guard>, ps: seq<Look>, lim: Limits) {
    && Clocked(ps) && |gs| == |ps| + 1 && gs[0] == ResetGuard(gs[0])
    && forall n | 0 <= n < |ps| :: Records(gs[n], gs[n + 1], ps[n], lim)
  }

  lemma RunIsRecorded(gs: seq<Guard>, ps: seq<Look>, lim: Limits)
    requires Run(gs, ps, lim)
    ensures Recorded(gs, ps, lim)
  {
    forall n | 0 <= n < |ps|
      ensures Records(gs[n], gs[n + 1], ps[n], lim)
    {
      PassRecords(gs[n], ps[n], lim, gs[n + 1].gated);
    }
  }

  lemma RunIsLinked(gs: seq<Guard>, ps: seq<Look>, lim: Limits)
    requires Run(gs, ps, lim)
    ensures Linked(gs, ps, lim)
  {
    forall n | 0 <= n < |ps|
      ensures Effect(gs[n], gs[n + 1], ps[n], lim)
    {
      PassEffect(gs[n], ps[n], lim, gs[n + 1].gated);
    }
  }

  predicate EngagesAt(gs: seq<Guard>, n: nat)
    requires n + 1 < |gs|
  {
    !gs[n].Latched() && gs[n + 1].Latched()
  }

  predicate ReleasesAt(gs: seq<Guard>, n: nat)
    requires n + 1 < |gs|
  {
    gs[n].Latched() && !gs[n + 1].Latched()
  }

  /** Pass `i` neither breaks the proof run nor finds the link stalled, and the latch is engaged before it. */
  predicate GoodPass(gs: seq<Guard>, ps: seq<Look>, lim: Limits, i: nat)
    requires i < |ps| && |gs| == |ps| + 1
  {
    && gs[i].Latched()
    && ProofFresh(ps[i].reading, lim, ps[i].now)
    && !Stalled(ps[i].reading, lim, ps[i].now)
  }

  /** The recovery stamp always names the start of the current unbroken run of good passes. */
  lemma {:induction false} RecoveryStampIsARun(gs: seq<Guard>, ps: seq<Look>, lim: Limits, n: nat) returns (j: nat)
    requires Linked(gs, ps, lim) && n <= |ps|
    ensures gs[n].recoverySince != 0 ==>
              gs[n].Latched() && j < n && ps[j].now == gs[n].recoverySince
              && forall i | j <= i < n :: GoodPass(gs, ps, lim, i)
  {
    j := 0;
    if n > 0 {
      j := RecoveryStampIsARun(gs, ps, lim, n - 1);
      assert Effect(gs[n - 1], gs[n], ps[n - 1], lim);
      if gs[n - 1].recoverySince == 0 {
        j := n - 1;
      }
    }
  }

  /**
   Conservative to rejoin: a latch releases only at the end of an unbroken run of
   passes, each with recent and timely proof, that spans the whole dwell.
   */
  lemma ReleaseIsEarned(gs: seq<Guard>, ps: seq<Look>, lim: Limits, n: nat) returns (j: nat)
    requires Run(gs, ps, lim) && n < |ps| && ReleasesAt(gs, n)
    ensures j <= n && (forall i | j <= i <= n :: GoodPass(gs, ps, lim, i))
    ensures ps[n].now - ps[j].now >= Dwell(gs[n], ps[n].reading, lim)
  {
    RunIsLinked(gs, ps, lim);
    j := RecoveryStampIsARun(gs, ps, lim, n);
    assert Effect(gs[n], gs[n + 1], ps[n], lim);
    if gs[n].recoverySince == 0 {
      j := n;
    }
  }

  /** A latch that is gone was released in between. */
  lemma {:induction false} UnlatchedMeansReleased(gs: seq<Guard>, m: nat, n: nat) returns (k: nat)
    requires m <= n < |gs| && gs[m].Latched() && !gs[n].Latched()
    ensures m <= k < n && ReleasesAt(gs, k)
    decreases n
  {
    if gs[n - 1].Latched() {
      k := n - 1;
    } else {
      k := UnlatchedMeansReleased(gs, m, n - 1);
    }
  }

  /**
   Quick to drop, slow to return: a pass that finds the link stalled latches it, and
   the latch is off at a later time only if, in between, an unbroken run of good
   passes, all of them after the stall, spanned a whole dwell.
   */
  lemma StallHoldsUntilEarned(gs: seq<Guard>, ps: seq<Look>, lim: Limits, n: nat, m: nat) returns (j: nat, k: nat)
    requires Run(gs, ps, lim) && n < m <= |ps| && Stalled(ps[n].reading, lim, ps[n].now)
    ensures gs[n + 1].Latched()
    ensures !gs[m].Latched() ==>
              n < j <= k < m && (forall i | j <= i <= k :: GoodPass(gs, ps, lim, i))
              && ps[k].now - ps[j].now >= Dwell(gs[k], ps[k].reading, lim)
  {
    j, k := 0, 0;
    assert gs[n + 1] == Pass(gs[n], ps[n].reading, lim, ps[n].now).(gated := gs[n + 1].gated);
    if !gs[m].Latched() {
      k := UnlatchedMeansReleased(gs, n + 1, m);
      j := ReleaseIsEarned(gs, ps, lim, k);
      assert !GoodPass(gs, ps, lim, n);
    }
  }

  // ----- backoff -----

  predicate PowerUpTo16(b: nat) {
    b == 1 || b == 2 || b == 4 || b == 8 || b == 16
  }

  lemma {:induction false} BackoffRange(gs: seq<Guard>, ps: seq<Look>, lim: Limits, n: nat)
    requires Linked(gs, ps, lim) && n <= |ps|
    ensures gs[n].backoff == 0 || PowerUpTo16(gs[n].backoff)
  {
    if n > 0 {
      BackoffRange(gs, ps, lim, n - 1);
      assert Effect(gs[n - 1], gs[n], ps[n - 1], lim);
    }
  }

  /** The backoff is a power of two at most 16 after any engagement, and changes at no other time. */
  lemma BackoffIsPowerOfTwo(gs: seq<Guard>, ps: seq<Look>, lim: Limits, n: nat)
    requires Run(gs, ps, lim) && n < |ps|
    ensures EngagesAt(gs, n) ==> PowerUpTo16(gs[n + 1].backoff)
    ensures !EngagesAt(gs, n) ==> gs[n + 1].backoff == gs[n].backoff
  {
    RunIsLinked(gs, ps, lim);
    BackoffRange(gs, ps, lim, n);
    assert Effect(gs[n], gs[n + 1], ps[n], lim);
  }

  /** Pass `i` released the latch and no pass since did, up to `n`. */
  predicate LatestRelease(gs: seq<Guard>, i: nat, n: nat)
    requires i < n < |gs|
  {
    ReleasesAt(gs, i) && forall j | i < j < n :: !ReleasesAt(gs, j)
  }

  /** The release stamp is the time of the latest release, or 0 if there was none. */
  lemma {:induction false} StampIsLatest(gs: seq<Guard>, ps: seq<Look>, lim: Limits, n: nat)
    requires Recorded(gs, ps, lim) && n <= |ps|
    ensures gs[n].releasedAt == 0 <==> forall i | 0 <= i < n :: !ReleasesAt(gs, i)
    ensures gs[n].releasedAt != 0 ==> exists i | 0 <= i < n :: LatestRelease(gs, i, n) && ps[i].now == gs[n].releasedAt
  {
    if n > 0 {
      StampIsLatest(gs, ps, lim, n - 1);
      assert Records(gs[n - 1], gs[n], ps[n - 1], lim);
      if ReleasesAt(gs, n - 1) {
        assert LatestRelease(gs, n - 1, n);
      } else if gs[n].releasedAt != 0 {
        var i :| 0 <= i < n - 1 && LatestRelease(gs, i, n - 1) && ps[i].now == gs[n - 1].releasedAt;
        assert LatestRelease(gs, i, n);
      }
    }
  }

  lemma ReleaseStampIsLatest(gs: seq<Guard>, ps: seq<Look>, lim: Limits, n: nat)
    requires Run(gs, ps, lim) && n <= |ps|
    ensures gs[n].releasedAt == 0 <==> forall i | 0 <= i < n :: !ReleasesAt(gs, i)
    ensures gs[n].releasedAt != 0 ==> exists i | 0 <= i < n :: LatestRelease(gs, i, n) && ps[i].now == gs[n].releasedAt
  {
    RunIsRecorded(gs, ps, lim);
    StampIsLatest(gs, ps, lim, n);
  }

  predicate NoEngagement(gs: seq<Guard>, a: nat, b: nat)
    requires b < |gs|
  {
    forall k | a <= k < b :: !EngagesAt(gs, k)
  }

  lemma {:induction false} UnlatchedStays(gs: seq<Guard>, a: nat, b: nat)
    requires a <= b < |gs| && !gs[a].Latched() && NoEngagement(gs, a, b)
    ensures !gs[b].Latched()
    decreases b
  {
    if a < b {
      UnlatchedStays(gs, a, b - 1);
      assert !EngagesAt(gs, b - 1);
    }
  }

  lemma {:induction false} BackoffHolds(gs: seq<Guard>, ps: seq<Look>, lim: Limits, a: nat, b: nat)
    requires Recorded(gs, ps, lim) && a <= b <= |ps| && NoEngagement(gs, a, b)
    ensures gs[b].backoff == gs[a].backoff
    decreases b
  {
    if a < b {
      BackoffHolds(gs, ps, lim, a, b - 1);
      assert Records(gs[b - 1], gs[b], ps[b - 1], lim) && !EngagesAt(gs, b - 1);
    }
  }

  lemma FirstIsFree(gs: seq<Guard>, ps: seq<Look>, lim: Limits, n: nat)
    requires Recorded(gs, ps, lim) && n < |ps| && EngagesAt(gs, n) && NoEngagement(gs, 0, n)
    ensures gs[n + 1].backoff == 1
  {
    assert Records(gs[n], gs[n + 1], ps[n], lim);
    StampIsLatest(gs, ps, lim, n);
    if gs[n].releasedAt != 0 {
      var i :| 0 <= i < n && LatestRelease(gs, i, n);
      assert NoEngagement(gs, 0, i);
      UnlatchedStays(gs, 0, i);
    }
  }

  /** After the release at `i`, with nothing engaging before `n`, the stamp at `n` is that release. */
  lemma StampOfRejoin(gs: seq<Guard>, ps: seq<Look>, lim: Limits, i: nat, n: nat)
    requires Recorded(gs, ps, lim) && i < n < |ps| && ReleasesAt(gs, i) && NoEngagement(gs, i + 1, n)
    ensures gs[n].releasedAt == ps[i].now
  {
    StampIsLatest(gs, ps, lim, n);
    var r :| 0 <= r < n && LatestRelease(gs, r, n) && ps[r].now == gs[n].releasedAt;
    if r > i {
      assert NoEngagement(gs, i + 1, r);
      UnlatchedStays(gs, i + 1, r);
    }
  }

  lemma RejoinDecides(gs: seq<Guard>, ps: seq<Look>, lim: Limits, e: nat, i: nat, n: nat)
    requires Recorded(gs, ps, lim) && e < i < n < |ps| && EngagesAt(gs, e) && ReleasesAt(gs, i) && EngagesAt(gs, n)
    requires NoEngagement(gs, e + 1, n) && gs[e + 1].backoff >= 1
    ensures gs[n + 1].backoff
            == if ps[n].now - ps[i].now >= SatMul(StaleMs(ps[n].reading, lim), 3) then 1
               else Min(2 * gs[e + 1].backoff, 16)
  {
    assert Records(gs[n], gs[n + 1], ps[n], lim);
    StampOfRejoin(gs, ps, lim, i, n);
    BackoffHolds(gs, ps, lim, e + 1, n);
  }

  /**
   What the wait after an engagement depends on, in terms of the history: the first
   engagement since a reset waits the base dwell; after that, a rejoin that lasted
   three staleness windows is forgiven and a shorter one doubles the wait the
   engagement before it had set, up to 16.
   */
  lemma ShortRejoinDoubles(gs: seq<Guard>, ps: seq<Look>, lim: Limits, n: nat)
    requires Run(gs, ps, lim) && n < |ps| && EngagesAt(gs, n)
    ensures NoEngagement(gs, 0, n) ==> gs[n + 1].backoff == 1
    ensures forall e, i | 0 <= e < i < n && EngagesAt(gs, e) && NoEngagement(gs, e + 1, n) && ReleasesAt(gs, i) ::
              gs[n + 1].backoff
              == if ps[n].now - ps[i].now >= SatMul(StaleMs(ps[n].reading, lim), 3) then 1
               else Min(2 * gs[e + 1].backoff, 16)
  {
    RunIsRecorded(gs, ps, lim);
    if NoEngagement(gs, 0, n) {
      FirstIsFree(gs, ps, lim, n);
    }
    forall e, i | 0 <= e < i < n && EngagesAt(gs, e) && NoEngagement(gs, e + 1, n) && ReleasesAt(gs, i)
      ensures gs[n + 1].backoff
              == if ps[n].now - ps[i].now >= SatMul(StaleMs(ps[n].reading, lim), 3) then 1
               else Min(2 * gs[e + 1].backoff, 16)
    {
      BackoffIsPowerOfTwo(gs, ps, lim, e);
      RejoinDecides(gs, ps, lim, e, i, n);
    }
  }

  // ----- spacing -----

  function Spacing(lim: Limits, backoff: nat): nat {
    2 * Min(STALE_FLOOR_MS, lim.ceilingMs) * backoff
  }

  lemma DwellAtLeast(g: Guard, r: Reading, lim: Limits)
    requires g.backoff <= 16
    ensures Dwell(g, r, lim) >= Spacing(lim, g.backoff)
  {
    var m := Min(STALE_FLOOR_MS, lim.ceilingMs);
    var s := StaleMs(r, lim);
    assert s >= m;
    var d := BaseDwell(r, lim);
    assert d >= 2 * m;
    var b := Max(g.backoff, 1);
    MulMonotone(2 * m, d, b);
    MulMonotone(g.backoff, b, 2 * m);
    assert 2 * m * b <= 32000 by { MulMonotone(b, 16, 2 * m); }
  }

  lemma MulMonotone(a: nat, b: nat, c: nat)
    requires a <= b
    ensures a * c <= b * c && c * a <= c * b
  {
  }

  /** Guard `g` still serves the engagement made at `since` with backoff `b`. */
  predicate Serving(g: Guard, since: nat, b: nat) {
    g.Latched() && g.backoff == b && (g.recoverySince == 0 || g.recoverySince >= since)
  }

  lemma ServeStep(g: Guard, h: Guard, k: Look, lim: Limits, since: nat, b: nat)
    requires Effect(g, h, k, lim) && Serving(g, since, b) && b <= 16 && k.now >= since
    ensures Serving(h, since, b) || k.now >= since + Spacing(lim, b)
  {
    DwellAtLeast(g, k.reading, lim);
  }

  /** From an engagement on: either still latched by it, or its whole spacing has passed. */
  lemma {:induction false} ServesItsSpacing(gs: seq<Guard>, ps: seq<Look>, lim: Limits, i: nat, m: nat, b: nat)
    requires Linked(gs, ps, lim) && i < m <= |ps|
    requires Serving(gs[i + 1], ps[i].now, b) && b <= 16
    ensures Serving(gs[m], ps[i].now, b) || ps[m - 1].now >= ps[i].now + Spacing(lim, b)
    decreases m
  {
    if m > i + 1 {
      ServesItsSpacing(gs, ps, lim, i, m - 1, b);
      if Serving(gs[m - 1], ps[i].now, b) {
        ServeStep(gs[m - 1], gs[m], ps[m - 1], lim, ps[i].now, b);
      }
    }
  }

  /**
   Two engagements of one link are at least `2 * min(1000, ceiling) * backoff` ms apart,
   with the backoff the first one set.
   */
  lemma EngagementsAreSpaced(gs: seq<Guard>, ps: seq<Look>, lim: Limits, i: nat, j: nat)
    requires Run(gs, ps, lim) && i < j < |ps| && EngagesAt(gs, i) && EngagesAt(gs, j)
    ensures ps[j].now - ps[i].now >= Spacing(lim, gs[i + 1].backoff)
  {
    RunIsLinked(gs, ps, lim);
    BackoffIsPowerOfTwo(gs, ps, lim, i);
    assert Effect(gs[i], gs[i + 1], ps[i], lim);
    ServesItsSpacing(gs, ps, lim, i, j, gs[i + 1].backoff);
  }

  // ----- the pull -----

  /** Pass `k` lifts a pull: the link has spoken within the window, or is no longer connected. */
  predicate Lifts(k: Look, lim: Limits) {
    Spoke(k.reading, lim, k.now) || !k.reading.connected
  }

  predicate Silent(k: Look, lim: Limits) {
    BrieflySilent(k.reading, lim, k.now)
  }

  /** Pass `j` found the link silent and none of those up to `n` lifted the pull. */
  predicate SilentSince(ps: seq<Look>, lim: Limits, j: nat, n: nat)
    requires j < n <= |ps|
  {
    Silent(ps[j], lim) && forall i | j < i < n :: !Lifts(ps[i], lim)
  }

  predicate PullOutstanding(ps: seq<Look>, lim: Limits, n: nat)
    requires n <= |ps|
  {
    exists j | 0 <= j < n :: SilentSince(ps, lim, j, n)
  }

  lemma OutstandingStep(ps: seq<Look>, lim: Limits, n: nat)
    requires n < |ps|
    ensures PullOutstanding(ps, lim, n + 1) <==>
              Silent(ps[n], lim) || (PullOutstanding(ps, lim, n) && !Lifts(ps[n], lim))
  {
    assert SilentSince(ps, lim, n, n + 1) <==> Silent(ps[n], lim);
    if PullOutstanding(ps, lim, n) && !Lifts(ps[n], lim) {
      var j :| 0 <= j < n && SilentSince(ps, lim, j, n);
      assert SilentSince(ps, lim, j, n + 1);
    }
    if PullOutstanding(ps, lim, n + 1) && !Silent(ps[n], lim) {
      var j :| 0 <= j < n + 1 && SilentSince(ps, lim, j, n + 1);
      assert j < n && SilentSince(ps, lim, j, n);
    }
  }

  lemma {:induction false} PullRecorded(gs: seq<Guard>, ps: seq<Look>, lim: Limits, n: nat)
    requires Recorded(gs, ps, lim) && n <= |ps|
    ensures gs[n].pulled <==> PullOutstanding(ps, lim, n)
  {
    if n > 0 {
      PullRecorded(gs, ps, lim, n - 1);
      OutstandingStep(ps, lim, n - 1);
      assert Records(gs[n - 1], gs[n], ps[n - 1], lim);
    }
  }

  /** Over a run, a link is pulled exactly when some pass found it silent and no pass since lifted the pull. */
  lemma PulledIffSilentSince(gs: seq<Guard>, ps: seq<Look>, lim: Limits, n: nat)
    requires Run(gs, ps, lim) && n <= |ps|
    ensures gs[n].pulled <==> PullOutstanding(ps, lim, n)
  {
    RunIsRecorded(gs, ps, lim);
    PullRecorded(gs, ps, lim, n);
  }

  /** Pull and latch never disagree about who acts first: the pull window is inside the staleness window. */
  lemma PullActsNoLaterThanLatch(r: Reading, lim: Limits)
    ensures PullWindowMs(r, lim) <= StaleMs(r, lim) <= lim.ceilingMs
  {
  }
}
