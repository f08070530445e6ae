/**
 The weak-link classifier: delay tiers, throughput shares with hysteresis, and the
 per-link streak, probation and backoff memory that survives between ticks.
 */
module Classifier {
  import opened Prelude

  const BEST_SAFE_CAP_MS: nat := 2500
  const MAX_CAP_MS: nat := 5000
  const MIN_BUDGET_MS: nat := 500
  const MAX_BUDGET_MS: nat := 5000
  const MAX_NEGOTIATED_BUDGET_MS: nat := 20_000
  const ENTER_NUMERATOR: nat := 250
  const LEAVE_NUMERATOR: nat := 750
  const MIN_TOTAL_BPS := 100_000.0
  const SUSTAIN_TICKS: nat := 2
  const PROBATION_INTERVAL: nat := 15
  const PROBATION_WINDOW: nat := 3
  const PROBATION_BACKOFF_MAX: nat := 16
  const U32_MAX: nat := 0xFFFF_FFFF

  datatype WeakReason = Healthy | HighRtt | QueueBuilding | NoTraffic | LowShare | Bypassed {
    predicate IsDelay() {
      HighRtt? || QueueBuilding?
    }

    predicate IsShare() {
      NoTraffic? || LowShare?
    }

    predicate Weak() {
      IsDelay() || IsShare()
    }
  }

  // ----- one link, one tick -----

  /** What the filter remembers of a link between ticks. */
  datatype Memory = Memory(prevWeak: bool, delayStreak: nat, shareStreak: nat, probation: nat, backoff: nat)

  const FRESH := Memory(false, 0, 0, 0, 0)

  /** What a tick observes of a link. */
  datatype Sight = Sight(delay: Option<WeakReason>, idle: bool, share: nat, enter: nat, leave: nat)

  function SatInc(n: nat): nat {
    Min(n + 1, U32_MAX)
  }

  function DelayStreak(m: Memory, s: Sight): nat {
    if s.delay.Some? then SatInc(m.delayStreak) else 0
  }

  predicate DelayWeak(m: Memory, s: Sight) {
    s.delay.Some? && DelayStreak(m, s) >= SUSTAIN_TICKS
  }

  /** The verdict before probation is considered. */
  function Raw(m: Memory, s: Sight): WeakReason {
    if DelayWeak(m, s) then s.delay.value
    else if s.idle then NoTraffic
    else if s.share < (if m.prevWeak then s.leave else s.enter) then LowShare
    else Healthy
  }

  function BackoffNext(backoff: nat): nat {
    Min(if backoff <= 1 then 2 else backoff * 2, PROBATION_BACKOFF_MAX)
  }

  function Interval(backoff: nat): nat {
    PROBATION_INTERVAL * Max(backoff, 1)
  }

  function Tick(m: Memory, s: Sight): (Memory, WeakReason) {
    var d := DelayStreak(m, s);
    var raw := Raw(m, s);
    if m.probation > 0 && DelayWeak(m, s) then
      (Memory(true, d, 0, 0, m.backoff), raw)
    else if m.probation > 0 then
      (Memory(false, d, 0, m.probation - 1, m.backoff), Healthy)
    else if raw.IsShare() then
      var streak := SatInc(m.shareStreak);
      if streak >= Interval(m.backoff)
      then (Memory(true, d, 0, PROBATION_WINDOW, BackoffNext(m.backoff)), raw)
      else (Memory(true, d, streak, 0, m.backoff), raw)
    else
      (Memory(raw.Weak(), d, 0, 0, if raw.Weak() then m.backoff else 1), raw)
  }

  // ----- a link over an unbypassed run -----

  predicate DelaySight(s: Sight) {
    s.delay.Some? ==> s.delay.value.IsDelay()
  }

  /** Memories around, and verdicts of, every tick of a run in which the link stays connected. */
  predicate Run(ms: seq<Memory>, ss: seq<Sight>, vs: seq<WeakReason>) {
    && |ms| == |ss| + 1 && |vs| == |ss| && ms[0] == FRESH
    && (forall n | 0 <= n < |ss| :: DelaySight(ss[n]))
    && (forall n | 0 <= n < |ss| :: (ms[n + 1], vs[n]) == Tick(ms[n], ss[n]))
  }

  /**
   A link is called late exactly when a delay signal held on this tick and on the
   one before, probation window or not, and the reason is this tick's signal.
   */
  lemma DelayVerdictIff(ms: seq<Memory>, ss: seq<Sight>, vs: seq<WeakReason>, n: nat)
    requires Run(ms, ss, vs) && n < |ss|
    ensures vs[n].IsDelay() <==> n > 0 && ss[n].delay.Some? && ss[n - 1].delay.Some?
    ensures vs[n].IsDelay() ==> vs[n] == ss[n].delay.value
  {
    assert (ms[n + 1], vs[n]) == Tick(ms[n], ss[n]);
    if n > 0 {
      assert (ms[n], vs[n - 1]) == Tick(ms[n - 1], ss[n - 1]);
      assert ms[n].delayStreak == DelayStreak(ms[n - 1], ss[n - 1]);
    }
  }

  predicate BackoffOk(b: nat) {
    b == 0 || b == 1 || b == 2 || b == 4 || b == 8 || b == 16
  }

  predicate MemoryOk(m: Memory) {
    && BackoffOk(m.backoff)
    && m.shareStreak < Interval(m.backoff)
    && m.probation <= PROBATION_WINDOW
    && (m.probation > 0 ==> m.shareStreak == 0)
  }

  lemma TickKeepsMemoryOk(m: Memory, s: Sight)
    requires MemoryOk(m)
    ensures MemoryOk(Tick(m, s).0)
  {
  }

  lemma {:induction false} RunKeepsMemoryOk(ms: seq<Memory>, ss: seq<Sight>, vs: seq<WeakReason>, n: nat)
    requires Run(ms, ss, vs) && n <= |ss|
    ensures MemoryOk(ms[n])
  {
    if n > 0 {
      RunKeepsMemoryOk(ms, ss, vs, n - 1);
      assert (ms[n], vs[n - 1]) == Tick(ms[n - 1], ss[n - 1]);
      TickKeepsMemoryOk(ms[n - 1], ss[n - 1]);
    }
  }

  /** Tick `n` opens a re-test window. */
  predicate ArmsAt(ms: seq<Memory>, n: nat)
    requires n + 1 < |ms|
  {
    ms[n].probation == 0 && ms[n + 1].probation > 0
  }

  /** One tick, as far as streaks and windows are concerned. */
  lemma TickCases(m: Memory, s: Sight)
    requires MemoryOk(m) && DelaySight(s)
    ensures var (m', v) := Tick(m, s);
            (v.IsShare() ==> m.probation == 0)
            && (v.IsShare() && m'.probation == 0 ==> m'.shareStreak == m.shareStreak + 1 && m'.backoff == m.backoff)
            && (m.probation == 0 && m'.probation > 0 ==>
                  v.IsShare() && m.shareStreak + 1 == Interval(m.backoff)
                  && m'.probation == PROBATION_WINDOW && m'.backoff == BackoffNext(m.backoff))
            && (m.probation > 0 ==> m'.probation < m.probation && !v.IsShare() && m'.backoff == m.backoff)
            && (!v.IsShare() ==> m'.shareStreak == 0)
            && (!v.IsShare() && m'.backoff != m.backoff ==> v.Healthy? && m.probation == 0)
  {
  }

  /** The streak counts consecutive share-weak verdicts up to the current tick. */
  lemma {:induction false} StreakCounts(ms: seq<Memory>, ss: seq<Sight>, vs: seq<WeakReason>, n: nat)
    requires Run(ms, ss, vs) && n <= |ss|
    ensures ms[n].shareStreak <= n
    ensures forall k | n - ms[n].shareStreak <= k < n :: vs[k].IsShare()
  {
    if n > 0 {
      StreakCounts(ms, ss, vs, n - 1);
      RunKeepsMemoryOk(ms, ss, vs, n - 1);
      RunKeepsMemoryOk(ms, ss, vs, n);
      assert (ms[n], vs[n - 1]) == Tick(ms[n - 1], ss[n - 1]);
      TickCases(ms[n - 1], ss[n - 1]);
    }
  }

  lemma {:induction false} StreakGrows(ms: seq<Memory>, ss: seq<Sight>, vs: seq<WeakReason>, a: nat, n: nat)
    requires Run(ms, ss, vs) && a + n < |ss|
    requires forall k | a <= k <= a + n :: vs[k].IsShare()
    ensures ms[a + n].probation == 0 && ms[a + n].shareStreak >= n
  {
    RunKeepsMemoryOk(ms, ss, vs, a + n);
    assert (ms[a + n + 1], vs[a + n]) == Tick(ms[a + n], ss[a + n]);
    TickCases(ms[a + n], ss[a + n]);
    if n > 0 {
      StreakGrows(ms, ss, vs, a, n - 1);
      RunKeepsMemoryOk(ms, ss, vs, a + n - 1);
      assert (ms[a + n], vs[a + n - 1]) == Tick(ms[a + n - 1], ss[a + n - 1]);
      TickCases(ms[a + n - 1], ss[a + n - 1]);
    }
  }

  /** No starvation: 241 ticks in a row are never all share-weak. */
  lemma NoStarvation(ms: seq<Memory>, ss: seq<Sight>, vs: seq<WeakReason>, a: nat)
    requires Run(ms, ss, vs) && a + 240 < |ss|
    ensures exists k | a <= k <= a + 240 :: !vs[k].IsShare()
  {
    if forall k | a <= k <= a + 240 :: vs[k].IsShare() {
      StreakGrows(ms, ss, vs, a, 240);
      RunKeepsMemoryOk(ms, ss, vs, a + 240);
      assert false;
    }
  }

  /** A re-test window opens exactly at the end of a full interval of share-weak ticks. */
  lemma RetestFollowsFullInterval(ms: seq<Memory>, ss: seq<Sight>, vs: seq<WeakReason>, n: nat)
    requires Run(ms, ss, vs) && n < |ss| && ArmsAt(ms, n)
    ensures Interval(ms[n].backoff) <= n + 1
    ensures forall k | n + 1 - Interval(ms[n].backoff) <= k <= n :: vs[k].IsShare()
  {
    RunKeepsMemoryOk(ms, ss, vs, n);
    assert (ms[n + 1], vs[n]) == Tick(ms[n], ss[n]);
    TickCases(ms[n], ss[n]);
    StreakCounts(ms, ss, vs, n);
  }

  /** Between two ticks, no window opens and no healthy verdict falls outside a window. */
  predicate NothingResets(ms: seq<Memory>, vs: seq<WeakReason>, a: nat, b: nat)
    requires b < |vs| && |ms| == |vs| + 1
  {
    forall k | a < k < b :: !ArmsAt(ms, k) && (vs[k].Healthy? ==> ms[k].probation > 0)
  }

  lemma {:induction false} BackoffIsCarried(ms: seq<Memory>, ss: seq<Sight>, vs: seq<WeakReason>, a: nat, b: nat)
    requires Run(ms, ss, vs) && a < b < |ss| && NothingResets(ms, vs, a, b)
    ensures ms[b].backoff == ms[a + 1].backoff
    decreases b
  {
    if b > a + 1 {
      BackoffIsCarried(ms, ss, vs, a, b - 1);
      RunKeepsMemoryOk(ms, ss, vs, b - 1);
      RunKeepsMemoryOk(ms, ss, vs, b);
      assert (ms[b], vs[b - 1]) == Tick(ms[b - 1], ss[b - 1]);
      TickCases(ms[b - 1], ss[b - 1]);
      assert !ArmsAt(ms, b - 1);
    }
  }

  /**
   The gated wait before each successive re-test doubles, up to 240 ticks, until a
   healthy verdict occurs outside a window.
   */
  lemma RetestWaitsDouble(ms: seq<Memory>, ss: seq<Sight>, vs: seq<WeakReason>, a: nat, b: nat)
    requires Run(ms, ss, vs) && a < b < |ss|
    requires ArmsAt(ms, a) && ArmsAt(ms, b) && NothingResets(ms, vs, a, b)
    ensures Interval(ms[b].backoff) == Min(2 * Interval(ms[a].backoff), 240)
    ensures b - a > Interval(ms[b].backoff)
    ensures forall k | b + 1 - Interval(ms[b].backoff) <= k <= b :: vs[k].IsShare()
  {
    RunKeepsMemoryOk(ms, ss, vs, a);
    RunKeepsMemoryOk(ms, ss, vs, a + 1);
    assert (ms[a + 1], vs[a]) == Tick(ms[a], ss[a]);
    TickCases(ms[a], ss[a]);
    assert (ms[a + 2], vs[a + 1]) == Tick(ms[a + 1], ss[a + 1]);
    TickCases(ms[a + 1], ss[a + 1]);
    BackoffIsCarried(ms, ss, vs, a, b);
    RetestFollowsFullInterval(ms, ss, vs, b);
    assert !vs[a + 1].IsShare();
  }

  /**
   A healthy verdict outside a window forgives the backoff: the next re-test comes
   after the base interval of share-weak ticks, however long the wait had grown.
   */
  lemma HealthyForgives(ms: seq<Memory>, ss: seq<Sight>, vs: seq<WeakReason>, h: nat, b: nat)
    requires Run(ms, ss, vs) && h < b < |ss| && vs[h].Healthy? && ms[h].probation == 0
    requires ArmsAt(ms, b) && NothingResets(ms, vs, h, b)
    ensures Interval(ms[b].backoff) == PROBATION_INTERVAL
    ensures b - h >= PROBATION_INTERVAL && forall k | b - PROBATION_INTERVAL < k <= b :: vs[k].IsShare()
  {
    assert (ms[h + 1], vs[h]) == Tick(ms[h], ss[h]);
    assert Interval(ms[h + 1].backoff) == PROBATION_INTERVAL;
    BackoffIsCarried(ms, ss, vs, h, b);
    RetestFollowsFullInterval(ms, ss, vs, b);
    assert !vs[h].IsShare();
  }

  // ----- the whole bond -----

  /** What the filter reads off a connection; `bps` has the source's clamp at zero applied. */
  datatype Observed = Observed(id: nat, connected: bool, bps: real, rttMs: nat, queueBuilding: bool)

  predicate NonNegative(os: seq<Observed>) {
    forall o | o in os :: o.bps >= 0.0
  }

  function Total(os: seq<Observed>): real {
    if os == [] then 0.0
    else Total(os[..|os| - 1]) + if os[|os| - 1].connected then os[|os| - 1].bps else 0.0
  }

  function Count(os: seq<Observed>): nat {
    if os == [] then 0 else Count(os[..|os| - 1]) + if os[|os| - 1].connected then 1 else 0
  }

  function Longest(os: seq<Observed>): nat {
    if os == [] then 0
    else if os[|os| - 1].connected then Max(Longest(os[..|os| - 1]), os[|os| - 1].rttMs)
    else Longest(os[..|os| - 1])
  }

  /** Throughput of the connected links whose RTT meets `tier`. */
  function Within(os: seq<Observed>, tier: nat): real {
    if os == [] then 0.0
    else Within(os[..|os| - 1], tier)
         + if os[|os| - 1].connected && os[|os| - 1].rttMs <= tier then os[|os| - 1].bps else 0.0
  }

  predicate Bypass(os: seq<Observed>) {
    Total(os) < MIN_TOTAL_BPS || Count(os) == 0
  }

  function Clamp(n: nat, lo: nat, hi: nat): nat {
    if n < lo then lo else if n > hi then hi else n
  }

  function Budget(negotiatedMs: nat, longestRtt: nat): nat {
    if negotiatedMs == 0 then Clamp(Min(longestRtt * 3, U32_MAX), MIN_BUDGET_MS, MAX_BUDGET_MS)
    else Clamp(Min(negotiatedMs * 2, U32_MAX), MIN_BUDGET_MS, MAX_NEGOTIATED_BUDGET_MS)
  }

  function BestTier(est: nat): nat {
    Min(est * 40 / 100, BEST_SAFE_CAP_MS)
  }

  function SafeTier(est: nat): nat {
    Min(est * 50 / 100, BEST_SAFE_CAP_MS)
  }

  function MaxTier(est: nat): nat {
    Min(est * 60 / 100, MAX_CAP_MS)
  }

  function Permille(bps: real, total: real): nat
    requires bps >= 0.0 && total > 0.0
  {
    NonNegQuotient(bps * 1000.0, total);
    (bps * 1000.0 / total).Floor
  }

  lemma NonNegQuotient(a: real, b: real)
    requires a >= 0.0 && b > 0.0
    ensures a / b >= 0.0
  {
    var q := a / b;
    assert q * b == a;
  }

  function PickTier(bestPm: nat, safePm: nat, maxPm: nat, best: nat, safe: nat, max: nat): nat {
    if bestPm > 850 then best
    else if safePm > 850 then safe
    else if maxPm > 850 then
      if bestPm > 500 then best
      else if safePm > 500 then safe
      else if maxPm > 500 then max
      else if bestPm > 250 then best
      else if safePm > 250 then safe
      else max
    else max
  }

  lemma {:induction false} WithinIsNonNegative(os: seq<Observed>, tier: nat)
    requires NonNegative(os)
    ensures 0.0 <= Within(os, tier) <= Total(os)
  {
    if os != [] {
      var p := os[..|os| - 1];
      assert os[|os| - 1] in os;
      assert forall o | o in p :: o in os;
      WithinIsNonNegative(p, tier);
    }
  }

  function Selected(os: seq<Observed>, negotiatedMs: nat): nat
    requires NonNegative(os) && !Bypass(os)
  {
    var est := Budget(negotiatedMs, Longest(os));
    var best, safe, max := BestTier(est), SafeTier(est), MaxTier(est);
    WithinIsNonNegative(os, best);
    WithinIsNonNegative(os, safe);
    WithinIsNonNegative(os, max);
    PickTier(Permille(Within(os, best), Total(os)), Permille(Within(os, safe), Total(os)),
             Permille(Within(os, max), Total(os)), best, safe, max)
  }

  lemma TiersAreOrdered(est: nat)
    ensures BestTier(est) <= SafeTier(est) <= MaxTier(est)
  {
  }

  /** The quarter-share rungs of the cascade are never reached: the half-share rung before them always answers. */
  lemma QuarterShareRungsAreDead(bestPm: nat, safePm: nat, maxPm: nat, best: nat, safe: nat, max: nat)
    ensures PickTier(bestPm, safePm, maxPm, best, safe, max)
            == if bestPm > 850 || (maxPm > 850 && safePm <= 850 && bestPm > 500) then best
               else if safePm > 850 || (maxPm > 850 && safePm > 500) then safe
               else max
  {
  }

  /** A tier tighter than the loosest is only ever chosen when links carrying more than half the throughput meet it. */
  lemma TightTierHasMajority(os: seq<Observed>, negotiatedMs: nat)
    requires NonNegative(os) && !Bypass(os)
    ensures var est := Budget(negotiatedMs, Longest(os)); var t := Selected(os, negotiatedMs);
            (t == BestTier(est) || t == SafeTier(est) || t == MaxTier(est))
            && (t < MaxTier(est) ==> 2.0 * Within(os, t) > Total(os))
  {
    var est := Budget(negotiatedMs, Longest(os));
    var best, safe, max := BestTier(est), SafeTier(est), MaxTier(est);
    WithinIsNonNegative(os, best);
    WithinIsNonNegative(os, safe);
    WithinIsNonNegative(os, max);
    QuarterShareRungsAreDead(Permille(Within(os, best), Total(os)), Permille(Within(os, safe), Total(os)),
                             Permille(Within(os, max), Total(os)), best, safe, max);
    MajorityFromPermille(Within(os, best), Total(os));
    MajorityFromPermille(Within(os, safe), Total(os));
  }

  lemma MajorityFromPermille(bps: real, total: real)
    requires bps >= 0.0 && total > 0.0
    ensures Permille(bps, total) > 500 ==> 2.0 * bps > total
  {
    var q := bps * 1000.0 / total;
    assert q * total == bps * 1000.0;
    if Permille(bps, total) > 500 {
      assert q >= 501.0;
      assert q * total >= 501.0 * total by { ScaleBy(501.0, q, total); }
    }
  }

  lemma ScaleBy(a: real, b: real, c: real)
    requires a <= b && c >= 0.0
    ensures a * c <= b * c
  {
    assert (b - a) * c >= 0.0;
  }

  function Share(bps: real, total: real): nat
    requires bps >= 0.0 && total > 0.0
  {
    Min(Permille(bps, total), 1000)
  }

  /** What tick observes of link `i` of the bond. */
  function SightOf(os: seq<Observed>, negotiatedMs: nat, i: nat): Sight
    requires NonNegative(os) && !Bypass(os) && i < |os|
  {
    var o := os[i];
    assert o in os;
    Sight(if o.rttMs > Selected(os, negotiatedMs) then Some(HighRtt)
          else if o.queueBuilding then Some(QueueBuilding) else None,
          o.bps == 0.0, Share(o.bps, Total(os)), ENTER_NUMERATOR / Count(os), LEAVE_NUMERATOR / Count(os))
  }

  lemma {:induction false} TotalBelowTop(os: seq<Observed>, top: real)
    requires NonNegative(os) && top >= 0.0 && forall o | o in os && o.connected :: o.bps <= top
    ensures Total(os) <= Count(os) as real * top
  {
    if os != [] {
      var p := os[..|os| - 1];
      assert os[|os| - 1] in os;
      assert forall o | o in p :: o in os;
      TotalBelowTop(p, top);
      OneMoreTimes(Count(p), top);
    }
  }

  lemma OneMoreTimes(n: nat, top: real)
    ensures (n + 1) as real * top == n as real * top + top
  {
  }

  lemma TopShare(bps: real, total: real, n: nat)
    requires bps >= 0.0 && total > 0.0 && n > 0 && total <= n as real * bps
    ensures Permille(bps, total) >= LEAVE_NUMERATOR / n
  {
    var q := bps * 1000.0 / total;
    assert q * total == bps * 1000.0;
    var k := LEAVE_NUMERATOR / n;
    assert k * n <= LEAVE_NUMERATOR;
    assert k as real * n as real <= 750.0;
    if q < k as real {
      ScaleBy(q, k as real, total);
      ScaleBy(total, n as real * bps, k as real);
      assert k as real * (n as real * bps) == (k as real * n as real) * bps;
      ScaleBy(k as real * n as real, 750.0, bps);
    }
  }

  /**
   The connected link with the highest throughput is never share-weak, whatever the
   filter remembers of it, so share weakness alone never flags the whole pool.
   */
  lemma TopLinkIsNeverShareWeak(os: seq<Observed>, negotiatedMs: nat, i: nat, m: Memory)
    requires NonNegative(os) && !Bypass(os) && i < |os| && os[i].connected
    requires forall o | o in os && o.connected :: o.bps <= os[i].bps
    ensures !Tick(m, SightOf(os, negotiatedMs, i)).1.IsShare()
  {
    assert os[i] in os;
    TotalBelowTop(os, os[i].bps);
    TopShare(os[i].bps, Total(os), Count(os));
    var k := LEAVE_NUMERATOR / Count(os);
    assert k <= 750;
    assert ENTER_NUMERATOR / Count(os) <= k by { DivMonotone(ENTER_NUMERATOR, LEAVE_NUMERATOR, Count(os)); }
  }

  lemma MulMonotone(a: nat, b: nat, c: nat)
    requires a <= b
    ensures a * c <= b * c
  {
  }

  lemma DivMonotone(a: nat, b: nat, n: nat)
    requires a <= b && n > 0
    ensures a / n <= b / n
  {
    var x, y := a / n, b / n;
    assert x * n <= a && b < (y + 1) * n;
    if x > y {
      MulMonotone(y + 1, x, n);
    }
  }

  // ----- the stateful filter -----

  datatype Verdict = Verdict(id: nat, weak: bool, reason: WeakReason, share: nat, threshold: nat)

  function Get<V>(m: map<nat, V>, id: nat, default: V): V {
    if id in m then m[id] else default
  }

  predicate DistinctIds(os: seq<Observed>) {
    forall i, j | 0 <= i < j < |os| :: os[i].id != os[j].id
  }

  /** The verdict `v` and new memory `m'` of link `i` are those of one tick; a disconnected link is forgotten. */
  ghost predicate Judged(os: seq<Observed>, negotiatedMs: nat, i: nat, m: Memory, m': Memory, v: Verdict)
    requires NonNegative(os) && !Bypass(os) && i < |os|
  {
    && v.id == os[i].id && v.weak == v.reason.Weak()
    && if os[i].connected
       then (m', v.reason) == Tick(m, SightOf(os, negotiatedMs, i)) && v.share == SightOf(os, negotiatedMs, i).share
       else m' == FRESH && v.reason.Healthy?
  }

  /** One call of the filter: what it saw and what it said. */
  datatype Pass = Pass(os: seq<Observed>, negotiatedMs: nat, verdicts: seq<Verdict>)

  predicate SeenAt(os: seq<Observed>, id: nat, i: nat) {
    i < |os| && os[i].id == id && os[i].connected
  }

  predicate WellFormed(p: Pass) {
    NonNegative(p.os) && DistinctIds(p.os) && |p.verdicts| == |p.os|
  }

  /** The pass judges link `id`: it is not a bypass and sees the link connected. */
  ghost predicate Judges(p: Pass, id: nat) {
    !Bypass(p.os) && exists i: nat :: SeenAt(p.os, id, i)
  }

  ghost function PlaceOf(p: Pass, id: nat): (i: nat)
    requires Judges(p, id)
    ensures SeenAt(p.os, id, i)
  {
    var i: nat :| SeenAt(p.os, id, i);
    i
  }

  ghost function SightIn(p: Pass, id: nat): Sight
    requires WellFormed(p) && Judges(p, id)
  {
    SightOf(p.os, p.negotiatedMs, PlaceOf(p, id))
  }

  ghost function ReasonIn(p: Pass, id: nat): WeakReason
    requires WellFormed(p) && Judges(p, id)
  {
    p.verdicts[PlaceOf(p, id)].reason
  }

  /** What a pass does to the memory of any link: one tick of a link it judges, and no memory of any other. */
  ghost predicate Remembers(p: Pass, id: nat, m: Memory, m': Memory) {
    && WellFormed(p)
    && if Judges(p, id) then (m', ReasonIn(p, id)) == Tick(m, SightIn(p, id)) else m' == FRESH
  }

  lemma JudgingRemembers(p: Pass, id: nat, m: Memory, m': Memory)
    requires WellFormed(p) && !Bypass(p.os)
    requires forall i | 0 <= i < |p.os| && p.os[i].id == id :: Judged(p.os, p.negotiatedMs, i, m, m', p.verdicts[i])
    requires (forall i: nat :: !SeenAt(p.os, id, i)) ==> m' == FRESH
    ensures Remembers(p, id, m, m')
  {
    if Judges(p, id) {
      var i := PlaceOf(p, id);
      assert Judged(p.os, p.negotiatedMs, i, m, m', p.verdicts[i]);
    }
  }

  /** The memory of one link around every pass of a filter. */
  ghost predicate Passes(ms: seq<Memory>, ps: seq<Pass>, id: nat) {
    && |ms| == |ps| + 1 && ms[0] == FRESH
    && forall n | 0 <= n < |ps| :: Remembers(ps[n], id, ms[n], ms[n + 1])
  }

  ghost predicate AllJudge(ps: seq<Pass>, id: nat) {
    forall n | 0 <= n < |ps| :: WellFormed(ps[n]) && Judges(ps[n], id)
  }

  ghost function Sights(ps: seq<Pass>, id: nat): (ss: seq<Sight>)
    requires AllJudge(ps, id)
    ensures |ss| == |ps|
  {
    seq(|ps|, n requires 0 <= n < |ps| => SightIn(ps[n], id))
  }

  ghost function Reasons(ps: seq<Pass>, id: nat): (vs: seq<WeakReason>)
    requires AllJudge(ps, id)
    ensures |vs| == |ps|
  {
    seq(|ps|, n requires 0 <= n < |ps| => ReasonIn(ps[n], id))
  }

  /** Every stretch of passes that judge a link, as long as it goes back, is a run of that link's own. */
  lemma StretchIsARun(ms: seq<Memory>, ps: seq<Pass>, id: nat, a: nat, b: nat)
    requires Passes(ms, ps, id) && a <= b <= |ps|
    requires AllJudge(ps[a..b], id) && (a == 0 || !Judges(ps[a - 1], id))
    ensures Run(ms[a..b + 1], Sights(ps[a..b], id), Reasons(ps[a..b], id))
  {
    if a > 0 {
      assert Remembers(ps[a - 1], id, ms[a - 1], ms[a - 1 + 1]);
    }
    var qs, ns := ps[a..b], ms[a..b + 1];
    forall n | 0 <= n < |qs|
      ensures (ns[n + 1], Reasons(qs, id)[n]) == Tick(ns[n], Sights(qs, id)[n])
    {
      assert qs[n] == ps[a + n] && ns[n] == ms[a + n] && ns[n + 1] == ms[a + n + 1];
      assert Remembers(ps[a + n], id, ms[a + n], ms[a + n + 1]);
    }
  }

  lemma PrefixSums(os: seq<Observed>, i: nat, tier: nat)
    requires i < |os|
    ensures Total(os[..i + 1]) == Total(os[..i]) + if os[i].connected then os[i].bps else 0.0
    ensures Count(os[..i + 1]) == Count(os[..i]) + if os[i].connected then 1 else 0
    ensures Longest(os[..i + 1]) == if os[i].connected then Max(Longest(os[..i]), os[i].rttMs) else Longest(os[..i])
    ensures Within(os[..i + 1], tier)
            == Within(os[..i], tier) + if os[i].connected && os[i].rttMs <= tier then os[i].bps else 0.0
  {
    assert os[..i + 1][..i] == os[..i];
  }

  /** The filter: five maps keyed by connection id, replaced as a whole on every tick. */
  class WeakLinkFilter {
    var prevWeak: map<nat, bool>
    var delayStreak: map<nat, nat>
    var shareStreak: map<nat, nat>
    var probation: map<nat, nat>
    var backoff: map<nat, nat>

    ghost function MemoryOf(id: nat): Memory
      reads this
    {
      Memory(Get(prevWeak, id, false), Get(delayStreak, id, 0), Get(shareStreak, id, 0),
             Get(probation, id, 0), Get(backoff, id, 0))
    }

    constructor ()
      ensures forall id :: MemoryOf(id) == FRESH
    {
      prevWeak, delayStreak, shareStreak, probation, backoff := map[], map[], map[], map[], map[];
    }

    static method Gather(os: seq<Observed>) returns (total: real, count: nat, longest: nat)
      ensures total == Total(os) && count == Count(os) && longest == Longest(os)
    {
      total, count, longest := 0.0, 0, 0;
      var i := 0;
      while i < |os|
        invariant 0 <= i <= |os|
        invariant total == Total(os[..i]) && count == Count(os[..i]) && longest == Longest(os[..i])
      {
        PrefixSums(os, i, 0);
        if os[i].connected {
          count := count + 1;
          total := total + os[i].bps;
          if os[i].rttMs > longest {
            longest := os[i].rttMs;
          }
        }
        i := i + 1;
      }
      assert os[..|os|] == os;
    }

    static method Bucket(os: seq<Observed>, best: nat, safe: nat, max: nat) returns (b: real, s: real, m: real)
      ensures b == Within(os, best) && s == Within(os, safe) && m == Within(os, max)
    {
      b, s, m := 0.0, 0.0, 0.0;
      var i := 0;
      while i < |os|
        invariant 0 <= i <= |os|
        invariant b == Within(os[..i], best) && s == Within(os[..i], safe) && m == Within(os[..i], max)
      {
        PrefixSums(os, i, best);
        PrefixSums(os, i, safe);
        PrefixSums(os, i, max);
        if os[i].connected {
          if os[i].rttMs <= best {
            b := b + os[i].bps;
          }
          if os[i].rttMs <= safe {
            s := s + os[i].bps;
          }
          if os[i].rttMs <= max {
            m := m + os[i].bps;
          }
        }
        i := i + 1;
      }
      assert os[..|os|] == os;
    }

    static method SelectTier(os: seq<Observed>, negotiatedMs: nat, total: real, longest: nat) returns (tier: nat)
      requires NonNegative(os) && !Bypass(os) && total == Total(os) && longest == Longest(os)
      ensures tier == Selected(os, negotiatedMs)
    {
      var est := Budget(negotiatedMs, longest);
      var best, safe, max := BestTier(est), SafeTier(est), MaxTier(est);
      var b, s, m := Bucket(os, best, safe, max);
      WithinIsNonNegative(os, best);
      WithinIsNonNegative(os, safe);
      WithinIsNonNegative(os, max);
      tier := PickTier(Permille(b, total), Permille(s, total), Permille(m, total), best, safe, max);
    }

    /** Judge one connected link: the source's verdict, probation and backoff arms. */
    static method Judge(m: Memory, s: Sight) returns (m': Memory, reason: WeakReason)
      requires DelaySight(s)
      ensures (m', reason) == Tick(m, s)
    {
      var streakD := 0;
      if s.delay.Some? {
        streakD := SatInc(m.delayStreak);
      }
      var delayWeak := streakD >= SUSTAIN_TICKS;
      if delayWeak {
        reason := s.delay.value;
      } else if s.idle {
        reason := NoTraffic;
      } else if (m.prevWeak && s.share < s.leave) || (!m.prevWeak && s.share < s.enter) {
        reason := LowShare;
      } else {
        reason := Healthy;
      }
      var window, streak, wait := m.probation, m.shareStreak, m.backoff;
      if window > 0 && delayWeak {
        window, streak := 0, 0;
      } else if window > 0 {
        window, streak, reason := window - 1, 0, Healthy;
      } else if reason.IsShare() {
        streak := SatInc(streak);
        if streak >= Interval(wait) {
          streak, window, wait := 0, PROBATION_WINDOW, BackoffNext(wait);
        }
      } else {
        streak := 0;
        if !reason.Weak() {
          wait := 1;
        }
      }
      m' := Memory(reason.Weak(), streakD, streak, window, wait);
    }

    /** Judge link `i` of the bond against the chosen tier and thresholds. */
    static method JudgeLink(os: seq<Observed>, negotiatedMs: nat, i: nat, m: Memory, total: real, count: nat, tier: nat)
      returns (m': Memory, v: Verdict)
      requires NonNegative(os) && !Bypass(os) && i < |os|
      requires total == Total(os) && count == Count(os) && tier == Selected(os, negotiatedMs)
      ensures Judged(os, negotiatedMs, i, m, m', v)
    {
      var o := os[i];
      assert o in os;
      if !o.connected {
        return FRESH, Verdict(o.id, false, Healthy, 0, 0);
      }
      var enter, leave := ENTER_NUMERATOR / count, LEAVE_NUMERATOR / count;
      var delay := if o.rttMs > tier then Some(HighRtt) else if o.queueBuilding then Some(QueueBuilding) else None;
      var share := Share(o.bps, total);
      var sight := Sight(delay, o.bps == 0.0, share, enter, leave);
      assert sight == SightOf(os, negotiatedMs, i);
      var reason;
      m', reason := Judge(m, sight);
      v := Verdict(o.id, reason.Weak(), reason, share, if m.prevWeak then leave else enter);
    }

    method Classify(os: seq<Observed>, negotiatedMs: nat) returns (vs: seq<Verdict>)
      requires NonNegative(os) && DistinctIds(os)
      modifies this
      ensures |vs| == |os|
      ensures Bypass(os) ==> (forall id :: MemoryOf(id) == FRESH)
                             && forall i | 0 <= i < |os| :: vs[i] == Verdict(os[i].id, false, Bypassed, 0, 0)
      ensures !Bypass(os) ==> forall i | 0 <= i < |os| ::
                Judged(os, negotiatedMs, i, old(MemoryOf(os[i].id)), MemoryOf(os[i].id), vs[i])
      ensures forall id :: Remembers(Pass(os, negotiatedMs, vs), id, old(MemoryOf(id)), MemoryOf(id))
    {
      var total, count, longest := Gather(os);
      if total < MIN_TOTAL_BPS || count == 0 {
        vs := [];
        var i := 0;
        while i < |os|
          invariant 0 <= i <= |os| && |vs| == i
          invariant forall j | 0 <= j < i :: vs[j] == Verdict(os[j].id, false, Bypassed, 0, 0)
        {
          vs := vs + [Verdict(os[i].id, false, Bypassed, 0, 0)];
          i := i + 1;
        }
        prevWeak, delayStreak, shareStreak, probation, backoff := map[], map[], map[], map[], map[];
        return;
      }
      var tier := SelectTier(os, negotiatedMs, total, longest);
      var was := seq(|os|, i requires 0 <= i < |os| reads this =>
        Memory(Get(prevWeak, os[i].id, false), Get(delayStreak, os[i].id, 0), Get(shareStreak, os[i].id, 0),
               Get(probation, os[i].id, 0), Get(backoff, os[i].id, 0)));
      var next;
      vs, next := JudgeAll(os, negotiatedMs, was, total, count, tier);
      Remember(next);
      ghost var p := Pass(os, negotiatedMs, vs);
      forall id
        ensures Remembers(p, id, old(MemoryOf(id)), MemoryOf(id))
      {
        JudgingRemembers(p, id, old(MemoryOf(id)), MemoryOf(id));
      }
    }

    /** Third pass: every link judged, the new memories collected by id. */
    static method JudgeAll(os: seq<Observed>, negotiatedMs: nat, was: seq<Memory>, total: real, count: nat, tier: nat)
      returns (vs: seq<Verdict>, next: map<nat, Memory>)
      requires NonNegative(os) && DistinctIds(os) && !Bypass(os) && |was| == |os|
      requires total == Total(os) && count == Count(os) && tier == Selected(os, negotiatedMs)
      ensures |vs| == |os|
      ensures forall j | 0 <= j < |os| :: Judged(os, negotiatedMs, j, was[j], Get(next, os[j].id, FRESH), vs[j])
      ensures forall id | id in next :: exists j: nat :: SeenAt(os, id, j)
    {
      vs := [];
      next := map[];
      var i := 0;
      while i < |os|
        invariant 0 <= i <= |os| && |vs| == i
        invariant forall j | i <= j < |os| :: os[j].id !in next
        invariant forall id | id in next :: exists j: nat :: SeenAt(os, id, j)
        invariant forall j | 0 <= j < i :: Judged(os, negotiatedMs, j, was[j], Get(next, os[j].id, FRESH), vs[j])
      {
        var m', v := JudgeLink(os, negotiatedMs, i, was[i], total, count, tier);
        ghost var before := next;
        if os[i].connected {
          assert SeenAt(os, os[i].id, i);
          next := next[os[i].id := m'];
        }
        assert forall j | 0 <= j < i :: Get(next, os[j].id, FRESH) == Get(before, os[j].id, FRESH);
        vs := vs + [v];
        i := i + 1;
      }
    }

    /** Replace the five maps by the parts of `next`. */
    method Remember(next: map<nat, Memory>)
      modifies this
      ensures forall id :: MemoryOf(id) == Get(next, id, FRESH)
    {
      prevWeak := map id | id in next :: next[id].prevWeak;
      delayStreak := map id | id in next :: next[id].delayStreak;
      shareStreak := map id | id in next :: next[id].shareStreak;
      probation := map id | id in next :: next[id].probation;
      backoff := map id | id in next :: next[id].backoff;
    }
  }
}
