/**
 Link selection for one packet: the stall gate over the whole bond, then the
 classic or the enhanced ranking.  Every gate removes links from the pool; the
 theorems show that together they never empty it.
 */
module Selection {
  import opened Prelude
  import opened Links
  import St = Stall
  import Lv = Liveness
  import Sc = SoleCarrier

  const SWITCH_THRESHOLD := 1.10
  const GATED_LINK_PENALTY := 0.02

  datatype Mode = Classic | Enhanced

  datatype Config = Config(
    mode: Mode,
    qualityEnabled: bool,
    stallDeselect: bool,
    limits: St.Limits,
    connTimeoutMs: nat,
    negotiatedLatencyMs: nat)

  // ----- the stall gate -----

  /** The runtime timeout and delivery budget reach every link on every pass. */
  function Retimed(l: Link, cfg: Config): Link {
    l.(life := l.life.(timeoutMs := cfg.connTimeoutMs), budgetMs := cfg.negotiatedLatencyMs)
  }

  function Ungated(l: Link): Link {
    l.(guard := St.ClearLatch(l.guard).(gated := false, pulled := false), ramp := St.ClearStallRamp(l.ramp))
  }

  function Passed(l: Link, now: nat, lim: St.Limits): Link {
    var g := St.UpdatePull(l.guard, l.Reading(), lim, now);
    l.(guard := St.UpdateLatch(g, l.Reading(), lim, now), ramp := St.UpdateRamp(g, l.ramp, l.Reading(), lim, now))
  }

  predicate Suspect(l: Link) {
    l.guard.Latched() || l.guard.pulled
  }

  predicate AnyHealthy(ls: seq<Link>, now: nat) {
    exists i | 0 <= i < |ls| :: ls[i].Usable(now) && !Suspect(ls[i])
  }

  function MarkGated(l: Link, anyHealthy: bool): Link {
    l.(guard := l.guard.(gated := anyHealthy && Suspect(l)))
  }

  function PassedAll(ls: seq<Link>, now: nat, cfg: Config): seq<Link> {
    seq(|ls|, i requires 0 <= i < |ls| => Passed(Retimed(ls[i], cfg), now, cfg.limits))
  }

  function Gate(ls: seq<Link>, now: nat, cfg: Config): seq<Link> {
    if !cfg.stallDeselect then
      seq(|ls|, i requires 0 <= i < |ls| => Ungated(Retimed(ls[i], cfg)))
    else
      var ps := PassedAll(ls, now, cfg);
      seq(|ls|, i requires 0 <= i < |ls| => MarkGated(ps[i], AnyHealthy(ps, now)))
  }

  // ----- classic ranking -----

  function ClearQualityGate(l: Link): Link {
    l.(excluded := false, role := Role(false, 0, false, l.role.elections))
  }

  function WeightMultiplier(window: int, weight: nat): real {
    var w := (if weight < 1 then 1 else if weight > 10 then 10 else weight) as real;
    if window > 20_000 then w
    else if window > 10_000 then 1.0 + (w - 1.0) * ((window - 10_000) as real / 10_000.0)
    else 1.0
  }

  function WeightedScore(l: Link): int {
    if l.signals.weight <= 1 || l.Score() <= 0 then l.Score()
    else (l.Score() as real * WeightMultiplier(l.account.cwnd.window, l.signals.weight)).Floor
  }

  /** First candidate of the first `n` with the highest weighted score above -1. */
  function BestClassic(ls: seq<Link>, now: nat, n: nat): (b: Option<nat>)
    requires n <= |ls|
    ensures b.Some? ==> b.value < n && ls[b.value].Candidate(now) && WeightedScore(ls[b.value]) > -1
  {
    if n == 0 then None else
    var p := BestClassic(ls, now, n - 1);
    var l := ls[n - 1];
    if l.Candidate(now) && WeightedScore(l) > (if p.Some? then WeightedScore(ls[p.value]) else -1) then Some(n - 1)
    else p
  }

  // ----- enhanced ranking -----

  predicate Unconstrained(l: Link, now: nat) {
    l.Candidate(now) && l.QualityOk() && !l.CapExceeded()
  }

  predicate AnyUnconstrained(ls: seq<Link>, now: nat) {
    exists i | 0 <= i < |ls| :: Unconstrained(ls[i], now)
  }

  predicate AnyQualityOk(ls: seq<Link>, now: nat) {
    exists i | 0 <= i < |ls| :: ls[i].Candidate(now) && ls[i].QualityOk()
  }

  /** Held out entirely: late while somebody healthy can carry, or beaten in the election. */
  predicate HeldOut(l: Link, now: nat, unconstrained: bool, beaten: bool) {
    l.Candidate(now) && ((unconstrained && l.Late()) || beaten)
  }

  function MarkExcluded(l: Link, now: nat, out: bool): Link {
    (if l.excluded && !out then ArmRamp(l, now) else l).(excluded := out)
  }

  function Excluded(ls: seq<Link>, now: nat, unconstrained: bool, carrier: Option<nat>): seq<Link> {
    seq(|ls|, i requires 0 <= i < |ls| =>
      MarkExcluded(ls[i], now, HeldOut(ls[i], now, unconstrained, carrier.Some? && carrier != Some(i))))
  }

  predicate Ranked(l: Link, now: nat, unconstrained: bool) {
    l.Candidate(now) && !l.excluded && !(unconstrained && l.CapExceeded())
  }

  /** The quality cache is refreshed on ranked links once it is 50 ms old. */
  function Refreshed(l: Link, now: nat, useQuality: bool, unconstrained: bool, qs: real): Link {
    if useQuality && Ranked(l, now, unconstrained) && SatSub(now, l.quality.calculatedMs) >= QUALITY_CACHE_MS
    then l.(quality := Quality(qs, now)) else l
  }

  function RefreshedAll(ls: seq<Link>, now: nat, useQuality: bool, unconstrained: bool, qs: seq<real>): seq<Link>
    requires |qs| == |ls|
  {
    seq(|ls|, i requires 0 <= i < |ls| => Refreshed(ls[i], now, useQuality, unconstrained, qs[i]))
  }

  function Product(a: real, b: real, c: real, d: real, e: real, f: real): real {
    a * b * c * d * e * f
  }

  /** The product every ranked link competes with. */
  function RankScore(l: Link, now: nat, useQuality: bool, unconstrained: bool): real {
    Product(l.Score() as real, l.life.PhaseWeight(), St.Multiplier(l.ramp, now),
            if useQuality then l.quality.multiplier else 1.0, l.SoftCap(),
            if unconstrained && l.signals.weak then GATED_LINK_PENALTY else 1.0)
  }

  /** How a ranking is read: the clock, whether quality counts, whether somebody is unconstrained. */
  datatype View = View(now: nat, useQuality: bool, unconstrained: bool) {
    predicate Ranks(l: Link) {
      Ranked(l, now, unconstrained)
    }

    function Of(l: Link): real {
      RankScore(l, now, useQuality, unconstrained)
    }
  }

  /** The score a link competes with, if it is ranked at all. */
  function Entry(l: Link, v: View): Option<real> {
    if v.Ranks(l) then Some(v.Of(l)) else None
  }

  function Scores(ls: seq<Link>, v: View): seq<Option<real>> {
    seq(|ls|, i requires 0 <= i < |ls| => Entry(ls[i], v))
  }

  /** First of the first `n` entries with the highest score above -1. */
  function BestScore(ss: seq<Option<real>>, n: nat): (b: Option<nat>)
    requires n <= |ss|
    ensures b.Some? ==> b.value < n && ss[b.value].Some? && ss[b.value].value > -1.0
  {
    if n == 0 then None else
    var p := BestScore(ss, n - 1);
    if ss[n - 1].Some? && ss[n - 1].value > (if p.Some? then ss[p.value].value else -1.0) then Some(n - 1) else p
  }

  /** Stay on the current link unless the best is at least ten percent better. */
  function Settle(ss: seq<Option<real>>, last: Option<nat>): Option<nat> {
    var best := BestScore(ss, |ss|);
    var top := if best.Some? then ss[best.value].value else -1.0;
    if last.Some? && best != last && last.value < |ss| && ss[last.value].Some?
       && top < ss[last.value].value * SWITCH_THRESHOLD
    then last else best
  }

  /** The links as the enhanced ranking sees them, before the quality refresh. */
  function Prepared(ls: seq<Link>, now: nat): seq<Link> {
    var (es, carrier) := Sc.Elect(ls, now, AnyQualityOk(ls, now));
    Excluded(es, now, AnyUnconstrained(ls, now), carrier)
  }

  function SelectEnhanced(ls: seq<Link>, last: Option<nat>, now: nat, useQuality: bool, qs: seq<real>)
    : (seq<Link>, Option<nat>)
    requires |qs| == |ls|
  {
    var u := AnyUnconstrained(ls, now);
    var rs := RefreshedAll(Prepared(ls, now), now, useQuality, u, qs);
    (rs, Settle(Scores(rs, View(now, useQuality, u)), last))
  }

  function SelectClassic(ls: seq<Link>, now: nat): (seq<Link>, Option<nat>) {
    var cs := seq(|ls|, i requires 0 <= i < |ls| => ClearQualityGate(ls[i]));
    (cs, BestClassic(cs, now, |cs|))
  }

  /** `qs[i]` is the quality multiplier link `i` would get if its cache were recomputed now. */
  function Select(ls: seq<Link>, last: Option<nat>, now: nat, cfg: Config, qs: seq<real>): (seq<Link>, Option<nat>)
    requires |qs| == |ls|
  {
    var gs := Gate(ls, now, cfg);
    match cfg.mode
    case Classic => SelectClassic(gs, now)
    case Enhanced => SelectEnhanced(gs, last, now, cfg.qualityEnabled, qs)
  }

  // ----- the gate never closes on everybody -----

  /** What the gate leaves alone. */
  lemma GateFrame(ls: seq<Link>, now: nat, cfg: Config, i: nat)
    requires i < |ls|
    ensures var g := Gate(ls, now, cfg)[i];
            g == ls[i].(life := ls[i].life.(timeoutMs := cfg.connTimeoutMs), budgetMs := cfg.negotiatedLatencyMs,
                        guard := g.guard, ramp := g.ramp)
  {
  }

  lemma GateSpares(ls: seq<Link>, now: nat, cfg: Config)
    ensures var gs := Gate(ls, now, cfg);
            (exists i | 0 <= i < |ls| :: gs[i].Usable(now)) ==> exists i | 0 <= i < |ls| :: gs[i].Candidate(now)
  {
    var gs := Gate(ls, now, cfg);
    if i :| 0 <= i < |ls| && gs[i].Usable(now) {
      if cfg.stallDeselect {
        var ps := PassedAll(ls, now, cfg);
        assert ps[i].Usable(now);
        if AnyHealthy(ps, now) {
          var k :| 0 <= k < |ps| && ps[k].Usable(now) && !Suspect(ps[k]);
          assert gs[k].Candidate(now);
        } else {
          assert gs[i].Candidate(now);
        }
      } else {
        assert gs[i].Candidate(now);
      }
    }
  }

  lemma GateKeepsHealthy(ls: seq<Link>, now: nat, cfg: Config)
    requires forall l | l in ls :: Links.Healthy(l)
    ensures forall i | 0 <= i < |ls| :: Links.Healthy(Gate(ls, now, cfg)[i])
  {
    forall i | 0 <= i < |ls|
      ensures Links.Healthy(Gate(ls, now, cfg)[i])
    {
      assert ls[i] in ls;
      GateFrame(ls, now, cfg, i);
    }
  }

  // ----- classic -----

  lemma WeightedScoreNonNegative(l: Link)
    requires l.Score() >= 0
    ensures WeightedScore(l) >= l.Score()
  {
    MultiplierAtLeastOne(l.account.cwnd.window, l.signals.weight);
    ScaledFloor(l.Score(), WeightMultiplier(l.account.cwnd.window, l.signals.weight));
  }

  lemma ScaledFloor(s: int, m: real)
    requires s >= 0 && m >= 1.0
    ensures (s as real * m).Floor >= s
  {
    Grows(s as real, m);
  }

  lemma MultiplierAtLeastOne(window: int, weight: nat)
    ensures 1.0 <= WeightMultiplier(window, weight) <= 10.0
  {
    var w := (if weight < 1 then 1 else if weight > 10 then 10 else weight) as real;
    if 10_000 < window <= 20_000 {
      var f := (window - 10_000) as real / 10_000.0;
      assert 0.0 <= f <= 1.0;
      Grows(f, w);
      assert (w - 1.0) * f >= 0.0 by { NonNegativeProduct(w - 1.0, f); }
      assert (w - 1.0) * (1.0 - f) >= 0.0 by { NonNegativeProduct(w - 1.0, 1.0 - f); }
    }
  }

  lemma NonNegativeProduct(a: real, b: real)
    requires a >= 0.0 && b >= 0.0
    ensures a * b >= 0.0
  {
  }

  lemma Grows(s: real, m: real)
    requires s >= 0.0 && m >= 1.0
    ensures s * m >= s
  {
    assert s * (m - 1.0) >= 0.0 by { NonNegativeProduct(s, m - 1.0); }
  }

  lemma {:induction false} BestClassicIsHighest(ls: seq<Link>, now: nat, n: nat)
    requires n <= |ls|
    ensures forall i | 0 <= i < n && ls[i].Candidate(now) && WeightedScore(ls[i]) > -1 ::
              var b := BestClassic(ls, now, n); b.Some? && WeightedScore(ls[b.value]) >= WeightedScore(ls[i])
  {
    if n > 0 {
      BestClassicIsHighest(ls, now, n - 1);
    }
  }

  // ----- enhanced -----

  lemma {:induction false} BestScoreIsHighest(ss: seq<Option<real>>, n: nat)
    requires n <= |ss|
    ensures forall i | 0 <= i < n && ss[i].Some? && ss[i].value > -1.0 ::
              var b := BestScore(ss, n); b.Some? && ss[b.value].value >= ss[i].value
  {
    if n > 0 {
      BestScoreIsHighest(ss, n - 1);
    }
  }

  /** The election and the exclusion only touch role, ramp and exclusion. */
  lemma PreparedFrame(ls: seq<Link>, now: nat, i: nat)
    requires i < |ls|
    ensures |Prepared(ls, now)| == |ls|
    ensures var p := Prepared(ls, now)[i];
            p == ls[i].(role := p.role, ramp := p.ramp, excluded := p.excluded)
  {
    ElectFrame(ls, now, AnyQualityOk(ls, now), i);
  }

  lemma ElectFrame(ls: seq<Link>, now: nat, ok: bool, i: nat)
    requires i < |ls|
    ensures |Sc.Elect(ls, now, ok).0| == |ls|
    ensures var e := Sc.Elect(ls, now, ok).0[i]; e == ls[i].(role := e.role, ramp := e.ramp)
  {
  }

  /** Who is held out, in terms of the links selection started from. */
  lemma PreparedExclusion(ls: seq<Link>, now: nat, i: nat)
    requires i < |ls|
    ensures Prepared(ls, now)[i].excluded <==>
              ls[i].Candidate(now)
              && ((AnyUnconstrained(ls, now) && ls[i].Late())
                  || (!AnyQualityOk(ls, now) && Sc.Keep(ls, now).Some? && Sc.Keep(ls, now) != Some(i)))
  {
  }

  lemma RankedIf(ls: seq<Link>, now: nat, k: nat)
    requires k < |ls| && ls[k].Candidate(now)
    requires AnyUnconstrained(ls, now) ==> !ls[k].Late() && !ls[k].CapExceeded()
    requires !AnyQualityOk(ls, now) ==> Sc.Keep(ls, now) == Some(k)
    ensures Ranked(Prepared(ls, now)[k], now, AnyUnconstrained(ls, now))
  {
    PreparedFrame(ls, now, k);
    PreparedExclusion(ls, now, k);
  }

  /** As long as somebody is a candidate, somebody is ranked. */
  lemma SomebodyIsRanked(ls: seq<Link>, now: nat) returns (k: nat)
    requires exists i | 0 <= i < |ls| :: ls[i].Candidate(now)
    ensures k < |ls| && Ranked(Prepared(ls, now)[k], now, AnyUnconstrained(ls, now))
  {
    if AnyUnconstrained(ls, now) {
      k :| 0 <= k < |ls| && Unconstrained(ls[k], now);
      assert AnyQualityOk(ls, now);
    } else if AnyQualityOk(ls, now) {
      k :| 0 <= k < |ls| && ls[k].Candidate(now);
    } else {
      Sc.CarrierExistsIff(ls, now);
      k := Sc.Keep(ls, now).value;
    }
    RankedIf(ls, now, k);
  }

  lemma ProductOfSix(a: real, b: real, c: real, d: real, e: real, f: real)
    requires a >= 0.0 && b >= 0.0 && c >= 0.0 && d >= 0.0 && e >= 0.0 && f >= 0.0
    ensures Product(a, b, c, d, e, f) >= 0.0
  {
    NonNegativeProduct(a, b);
    NonNegativeProduct(a * b, c);
    NonNegativeProduct(a * b * c, d);
    NonNegativeProduct(a * b * c * d, e);
    NonNegativeProduct(a * b * c * d * e, f);
  }

  lemma RankScoreNonNegative(l: Link, v: View)
    requires Links.Healthy(l) && v.Ranks(l)
    ensures v.Of(l) >= 0.0
  {
    UsableLinksScore(l, v.now);
    SoftCapBounds(l);
    RampBounds(l.ramp, v.now);
    ProductOfSix(l.Score() as real, l.life.PhaseWeight(), St.Multiplier(l.ramp, v.now),
                 if v.useQuality then l.quality.multiplier else 1.0, l.SoftCap(),
                 if v.unconstrained && l.signals.weak then GATED_LINK_PENALTY else 1.0);
  }

  lemma RampBounds(p: St.Ramp, now: nat)
    ensures St.RAMP_FLOOR <= St.Multiplier(p, now) <= 1.0
  {
  }

  /** A choice, if any, is ranked, and 1.10 times its score reaches every ranked score. */
  predicate NearTheTop(ls: seq<Link>, v: View, pick: Option<nat>) {
    pick.Some? ==>
      && pick.value < |ls| && v.Ranks(ls[pick.value])
      && forall i | 0 <= i < |ls| && v.Ranks(ls[i]) :: v.Of(ls[i]) <= SWITCH_THRESHOLD * v.Of(ls[pick.value])
  }

  /** The settled choice has an entry, and 1.10 times it reaches every entry. */
  lemma SettlesNearTheTop(ss: seq<Option<real>>, last: Option<nat>)
    requires forall i | 0 <= i < |ss| && ss[i].Some? :: ss[i].value >= 0.0
    ensures Settle(ss, last).Some? <==> exists i | 0 <= i < |ss| :: ss[i].Some?
    ensures Settle(ss, last).Some? ==>
              var k := Settle(ss, last).value;
              k < |ss| && ss[k].Some?
              && forall i | 0 <= i < |ss| && ss[i].Some? :: ss[i].value <= SWITCH_THRESHOLD * ss[k].value
  {
    BestScoreIsHighest(ss, |ss|);
    var best := BestScore(ss, |ss|);
    if best.Some? {
      var top := ss[best.value].value;
      assert top <= SWITCH_THRESHOLD * top;
    }
  }

  lemma RankingSettles(rs: seq<Link>, v: View, last: Option<nat>)
    requires forall i | 0 <= i < |rs| && v.Ranks(rs[i]) :: v.Of(rs[i]) >= 0.0
    ensures Settle(Scores(rs, v), last).Some? <==> exists i | 0 <= i < |rs| :: v.Ranks(rs[i])
    ensures NearTheTop(rs, v, Settle(Scores(rs, v), last))
  {
    var ss := Scores(rs, v);
    forall i | 0 <= i < |rs|
      ensures ss[i].Some? == v.Ranks(rs[i]) && (ss[i].Some? ==> ss[i].value == v.Of(rs[i]))
    {
    }
    SettlesNearTheTop(ss, last);
  }

  predicate PositiveAll(qs: seq<real>) {
    forall i | 0 <= i < |qs| :: qs[i] > 0.0
  }

  lemma RefreshedFrame(ls: seq<Link>, now: nat, useQuality: bool, u: bool, qs: seq<real>, i: nat)
    requires |qs| == |ls| && i < |ls| && PositiveAll(qs) && ls[i].quality.multiplier > 0.0
    ensures var r := RefreshedAll(ls, now, useQuality, u, qs)[i];
            r == ls[i].(quality := r.quality) && r.quality.multiplier > 0.0
  {
  }

  /** What an enhanced pass does to one link: role, ramp, exclusion and quality cache, nothing else. */
  lemma EnhancedFrame(ls: seq<Link>, last: Option<nat>, now: nat, useQuality: bool, qs: seq<real>, i: nat)
    requires |qs| == |ls| && i < |ls| && PositiveAll(qs) && ls[i].quality.multiplier > 0.0
    ensures |SelectEnhanced(ls, last, now, useQuality, qs).0| == |ls|
    ensures var r := SelectEnhanced(ls, last, now, useQuality, qs).0[i];
            var p := Prepared(ls, now)[i];
            r == p.(quality := r.quality) && r.quality.multiplier > 0.0
            && r == ls[i].(role := p.role, ramp := p.ramp, excluded := p.excluded, quality := r.quality)
  {
    PreparedFrame(ls, now, i);
    RefreshedFrame(Prepared(ls, now), now, useQuality, AnyUnconstrained(ls, now), qs, i);
  }

  lemma RankedIgnoresQuality(l: Link, q: Quality, now: nat, u: bool)
    ensures Ranked(l.(quality := q), now, u) == Ranked(l, now, u)
  {
  }

  lemma HealthyIgnoresSelection(l: Link, r: Role, p: St.Ramp, x: bool, q: Quality)
    requires Links.Healthy(l) && q.multiplier > 0.0
    ensures Links.Healthy(l.(role := r, ramp := p, excluded := x, quality := q))
  {
  }

  /** Link `i` after an enhanced pass: ranked as it was prepared, and then with a non-negative score. */
  lemma EnhancedLink(ls: seq<Link>, last: Option<nat>, now: nat, useQuality: bool, qs: seq<real>, i: nat)
    requires |qs| == |ls| && PositiveAll(qs) && i < |ls| && Links.Healthy(ls[i])
    ensures |SelectEnhanced(ls, last, now, useQuality, qs).0| == |ls|
    ensures var r := SelectEnhanced(ls, last, now, useQuality, qs).0[i];
            var v := View(now, useQuality, AnyUnconstrained(ls, now));
            v.Ranks(r) == Ranked(Prepared(ls, now)[i], now, v.unconstrained)
            && (v.Ranks(r) ==> v.Of(r) >= 0.0 && ls[i].Candidate(now))
            && Links.Healthy(r)
  {
    EnhancedFrame(ls, last, now, useQuality, qs, i);
    var r := SelectEnhanced(ls, last, now, useQuality, qs).0[i];
    var v := View(now, useQuality, AnyUnconstrained(ls, now));
    RankedIgnoresQuality(Prepared(ls, now)[i], r.quality, now, v.unconstrained);
    HealthyIgnoresSelection(ls[i], r.role, r.ramp, r.excluded, r.quality);
    if v.Ranks(r) {
      RankScoreNonNegative(r, v);
    }
  }

  lemma RankedScores(ls: seq<Link>, last: Option<nat>, now: nat, useQuality: bool, qs: seq<real>, rs: seq<Link>,
                     v: View)
    requires |qs| == |ls| && PositiveAll(qs) && forall i | 0 <= i < |ls| :: Links.Healthy(ls[i])
    requires rs == SelectEnhanced(ls, last, now, useQuality, qs).0
    requires v == View(now, useQuality, AnyUnconstrained(ls, now))
    ensures |rs| == |ls|
    ensures forall i | 0 <= i < |ls| && v.Ranks(rs[i]) :: v.Of(rs[i]) >= 0.0 && ls[i].Candidate(now)
  {
    forall i | 0 <= i < |ls| && v.Ranks(rs[i])
      ensures v.Of(rs[i]) >= 0.0 && ls[i].Candidate(now)
    {
      EnhancedLink(ls, last, now, useQuality, qs, i);
    }
  }

  /** An enhanced pass picks somebody exactly when there is a candidate, and the pick is near the top. */
  lemma EnhancedPicks(ls: seq<Link>, last: Option<nat>, now: nat, useQuality: bool, qs: seq<real>)
    requires |qs| == |ls| && PositiveAll(qs) && forall i | 0 <= i < |ls| :: Links.Healthy(ls[i])
    ensures var (rs, pick) := SelectEnhanced(ls, last, now, useQuality, qs);
            (pick.Some? <==> exists i | 0 <= i < |ls| :: ls[i].Candidate(now))
            && NearTheTop(rs, View(now, useQuality, AnyUnconstrained(ls, now)), pick)
  {
    var rs := SelectEnhanced(ls, last, now, useQuality, qs).0;
    var v := View(now, useQuality, AnyUnconstrained(ls, now));
    RankedScores(ls, last, now, useQuality, qs, rs, v);
    RankingSettles(rs, v, last);
    if exists i | 0 <= i < |ls| :: ls[i].Candidate(now) {
      var k := SomebodyIsRanked(ls, now);
      EnhancedLink(ls, last, now, useQuality, qs, k);
      assert v.Ranks(rs[k]);
    }
  }

  lemma ClassicPicks(ls: seq<Link>, now: nat)
    requires forall i | 0 <= i < |ls| :: Links.Healthy(ls[i])
    ensures var (cs, pick) := SelectClassic(ls, now);
            |cs| == |ls|
            && (pick.Some? <==> exists i | 0 <= i < |ls| :: ls[i].Candidate(now))
            && (pick.Some? ==>
                  pick.value < |ls| && cs[pick.value].Candidate(now) && !cs[pick.value].excluded
                  && forall i | 0 <= i < |ls| && cs[i].Candidate(now) ::
                       WeightedScore(cs[i]) <= WeightedScore(cs[pick.value]))
  {
    var (cs, pick) := SelectClassic(ls, now);
    forall i | 0 <= i < |ls| && ls[i].Candidate(now)
      ensures cs[i].Candidate(now) && WeightedScore(cs[i]) > -1
    {
      UsableLinksScore(ls[i], now);
      assert cs[i].Score() == ls[i].Score();
      WeightedScoreNonNegative(cs[i]);
    }
    BestClassicIsHighest(cs, now, |cs|);
  }

  // ----- the whole selection -----

  /** Fit to carry a packet: connected, alive, and held out by no gate. */
  predicate Deliverable(l: Link, now: nat) {
    l.life.connected && l.Usable(now) && !l.guard.gated && !l.excluded
  }

  lemma CandidatesAfterGate(ls: seq<Link>, now: nat, cfg: Config)
    ensures (exists i | 0 <= i < |ls| :: Gate(ls, now, cfg)[i].Candidate(now))
            <==> exists i | 0 <= i < |ls| :: Retimed(ls[i], cfg).Usable(now)
  {
    var gs := Gate(ls, now, cfg);
    forall i | 0 <= i < |ls|
      ensures gs[i].Usable(now) == Retimed(ls[i], cfg).Usable(now)
    {
      GateFrame(ls, now, cfg, i);
    }
    GateSpares(ls, now, cfg);
    if i :| 0 <= i < |ls| && Retimed(ls[i], cfg).Usable(now) {
      assert gs[i].Usable(now);
    }
  }

  /**
   In every reachable state, in both modes, with the guard on or off, selection
   returns a link exactly when some link is schedulable and not timed out, and the
   link it returns is connected, ungated and not held out.
   */
  lemma SelectionNeverStarves(ls: seq<Link>, last: Option<nat>, now: nat, cfg: Config, qs: seq<real>)
    requires |qs| == |ls| && PositiveAll(qs) && forall i | 0 <= i < |ls| :: Reachable(ls[i])
    ensures var (rs, pick) := Select(ls, last, now, cfg, qs);
            (pick.Some? <==> exists i | 0 <= i < |ls| :: Retimed(ls[i], cfg).Usable(now))
            && (pick.Some? ==> pick.value < |rs| && Deliverable(rs[pick.value], now))
  {
    var gs := Gate(ls, now, cfg);
    GatedHealthy(ls, now, cfg);
    CandidatesAfterGate(ls, now, cfg);
    if cfg.mode.Classic? {
      ClassicDelivers(gs, now);
    } else {
      EnhancedDelivers(gs, last, now, cfg.qualityEnabled, qs);
    }
  }

  lemma ClassicDelivers(ls: seq<Link>, now: nat)
    requires forall i | 0 <= i < |ls| :: Links.Healthy(ls[i])
    ensures var (rs, pick) := SelectClassic(ls, now);
            (pick.Some? <==> exists i | 0 <= i < |ls| :: ls[i].Candidate(now))
            && (pick.Some? ==> pick.value < |rs| && Deliverable(rs[pick.value], now))
  {
    ClassicPicks(ls, now);
    var pick := SelectClassic(ls, now).1;
    if pick.Some? {
      UsableLinksScore(ls[pick.value], now);
    }
  }

  lemma EnhancedDelivers(ls: seq<Link>, last: Option<nat>, now: nat, useQuality: bool, qs: seq<real>)
    requires |qs| == |ls| && PositiveAll(qs) && forall i | 0 <= i < |ls| :: Links.Healthy(ls[i])
    ensures var (rs, pick) := SelectEnhanced(ls, last, now, useQuality, qs);
            (pick.Some? <==> exists i | 0 <= i < |ls| :: ls[i].Candidate(now))
            && (pick.Some? ==> pick.value < |rs| && Deliverable(rs[pick.value], now))
  {
    EnhancedPicks(ls, last, now, useQuality, qs);
    var (rs, pick) := SelectEnhanced(ls, last, now, useQuality, qs);
    if pick.Some? {
      EnhancedLink(ls, last, now, useQuality, qs, pick.value);
      UsableLinksScore(rs[pick.value], now);
    }
  }

  lemma GatedHealthy(ls: seq<Link>, now: nat, cfg: Config)
    requires forall i | 0 <= i < |ls| :: Reachable(ls[i])
    ensures forall i | 0 <= i < |ls| :: Links.Healthy(Gate(ls, now, cfg)[i])
  {
    forall i | 0 <= i < |ls|
      ensures Links.Healthy(ls[i])
    {
      ReachableIsHealthy(ls[i]);
    }
    GateKeepsHealthy(ls, now, cfg);
  }

  /** The link returned is the classic maximum, or within ten percent of the enhanced one. */
  lemma SelectionIsNearBest(ls: seq<Link>, last: Option<nat>, now: nat, cfg: Config, qs: seq<real>)
    requires |qs| == |ls| && PositiveAll(qs) && forall i | 0 <= i < |ls| :: Reachable(ls[i])
    ensures var (rs, pick) := Select(ls, last, now, cfg, qs);
            |rs| == |ls|
            && (cfg.mode.Enhanced? ==>
                  NearTheTop(rs, View(now, cfg.qualityEnabled, AnyUnconstrained(Gate(ls, now, cfg), now)), pick))
            && (cfg.mode.Classic? && pick.Some? ==>
                  pick.value < |rs|
                  && forall i | 0 <= i < |rs| && rs[i].Candidate(now) ::
                       WeightedScore(rs[i]) <= WeightedScore(rs[pick.value]))
  {
    var gs := Gate(ls, now, cfg);
    GatedHealthy(ls, now, cfg);
    if cfg.mode.Classic? {
      ClassicPicks(gs, now);
    } else {
      EnhancedPicks(gs, last, now, cfg.qualityEnabled, qs);
    }
  }

  /** While some link is healthy and below its cap, no late link and no capped link carries payload. */
  lemma LateLinksCarryNothing(ls: seq<Link>, last: Option<nat>, now: nat, cfg: Config, qs: seq<real>, gs: seq<Link>)
    requires |qs| == |ls| && PositiveAll(qs) && forall i | 0 <= i < |ls| :: Reachable(ls[i])
    requires gs == Gate(ls, now, cfg) && cfg.mode.Enhanced? && AnyUnconstrained(gs, now)
    ensures Select(ls, last, now, cfg, qs).1.Some?
    ensures var k := Select(ls, last, now, cfg, qs).1.value; var rs := Select(ls, last, now, cfg, qs).0;
            k < |rs| && !rs[k].Late() && !rs[k].CapExceeded()
  {
    GatedHealthy(ls, now, cfg);
    assert Select(ls, last, now, cfg, qs) == SelectEnhanced(gs, last, now, cfg.qualityEnabled, qs);
    EnhancedAvoidsLate(gs, last, now, cfg.qualityEnabled, qs);
  }

  lemma EnhancedAvoidsLate(ls: seq<Link>, last: Option<nat>, now: nat, useQuality: bool, qs: seq<real>)
    requires |qs| == |ls| && PositiveAll(qs) && forall i | 0 <= i < |ls| :: Links.Healthy(ls[i])
    requires AnyUnconstrained(ls, now)
    ensures var (rs, pick) := SelectEnhanced(ls, last, now, useQuality, qs);
            pick.Some? && pick.value < |rs| && !rs[pick.value].Late() && !rs[pick.value].CapExceeded()
  {
    EnhancedPicks(ls, last, now, useQuality, qs);
    assert exists i | 0 <= i < |ls| :: ls[i].Candidate(now) by {
      var u :| 0 <= u < |ls| && Unconstrained(ls[u], now);
      assert ls[u].Candidate(now);
    }
    var pick := SelectEnhanced(ls, last, now, useQuality, qs).1;
    RankedIsClean(ls, last, now, useQuality, qs, pick.value);
  }

  lemma RankedIsClean(ls: seq<Link>, last: Option<nat>, now: nat, useQuality: bool, qs: seq<real>, i: nat)
    requires |qs| == |ls| && PositiveAll(qs) && i < |ls| && Links.Healthy(ls[i]) && AnyUnconstrained(ls, now)
    ensures |SelectEnhanced(ls, last, now, useQuality, qs).0| == |ls|
    ensures var r := SelectEnhanced(ls, last, now, useQuality, qs).0[i];
            Ranked(r, now, true) ==> !r.Late() && !r.CapExceeded()
  {
    EnhancedFrame(ls, last, now, useQuality, qs, i);
    PreparedExclusion(ls, now, i);
  }

  /** The fields of a link a selection may write. */
  predicate Bookkept(l: Link, r: Link, cfg: Config) {
    r == l.(life := l.life.(timeoutMs := cfg.connTimeoutMs), budgetMs := cfg.negotiatedLatencyMs,
            guard := r.guard, ramp := r.ramp, role := r.role, excluded := r.excluded, quality := r.quality)
  }

  lemma SelectFrame(ls: seq<Link>, last: Option<nat>, now: nat, cfg: Config, qs: seq<real>, i: nat)
    requires |qs| == |ls| && PositiveAll(qs) && i < |ls| && ls[i].quality.multiplier > 0.0
    ensures |Select(ls, last, now, cfg, qs).0| == |ls|
    ensures var r := Select(ls, last, now, cfg, qs).0[i]; Bookkept(ls[i], r, cfg) && r.quality.multiplier > 0.0
  {
    GateFrame(ls, now, cfg, i);
    if cfg.mode.Enhanced? {
      EnhancedFrame(Gate(ls, now, cfg), last, now, cfg.qualityEnabled, qs, i);
    }
  }

  lemma BookkeepingIsEvents(l: Link, r: Link, cfg: Config)
    requires Reachable(l) && Bookkept(l, r, cfg) && r.quality.multiplier > 0.0
    ensures Reachable(r)
  {
    var e1 := Life(Lv.Retime(cfg.connTimeoutMs));
    var e2 := Bookkeep(r.guard, r.ramp, r.role, r.excluded, r.budgetMs, r.quality);
    ReachableStep(l, e1);
    ReachableStep(Step(l, e1), e2);
  }

  /** To each link, a selection is one retiming and one bookkeeping event, so reachable states stay reachable. */
  lemma SelectionKeepsReachable(ls: seq<Link>, last: Option<nat>, now: nat, cfg: Config, qs: seq<real>, i: nat)
    requires |qs| == |ls| && PositiveAll(qs) && i < |ls| && Reachable(ls[i])
    ensures |Select(ls, last, now, cfg, qs).0| == |ls| && Reachable(Select(ls, last, now, cfg, qs).0[i])
  {
    ReachableIsHealthy(ls[i]);
    SelectFrame(ls, last, now, cfg, qs, i);
    BookkeepingIsEvents(ls[i], Select(ls, last, now, cfg, qs).0[i], cfg);
  }

  lemma EnhancedRole(ls: seq<Link>, last: Option<nat>, now: nat, useQuality: bool, qs: seq<real>, i: nat)
    requires |qs| == |ls| && i < |ls| && PositiveAll(qs) && ls[i].quality.multiplier > 0.0
    ensures |SelectEnhanced(ls, last, now, useQuality, qs).0| == |ls|
    ensures SelectEnhanced(ls, last, now, useQuality, qs).0[i].role
              == Sc.Elect(ls, now, AnyQualityOk(ls, now)).0[i].role
  {
    EnhancedFrame(ls, last, now, useQuality, qs, i);
  }

  lemma GateKeepsRoles(ls: seq<Link>, now: nat, cfg: Config)
    ensures Sc.Follows(ls, Sc.Act(Sc.Other, now), Gate(ls, now, cfg))
    ensures forall i | 0 <= i < |ls| :: Gate(ls, now, cfg)[i].quality == ls[i].quality
  {
    forall i | 0 <= i < |ls|
      ensures Gate(ls, now, cfg)[i].role == ls[i].role && Gate(ls, now, cfg)[i].quality == ls[i].quality
    {
      GateFrame(ls, now, cfg, i);
    }
  }

  /** To the role, an enhanced pass is one election followed by a step that leaves every role alone. */
  lemma EnhancedFollowsRoleMoves(ls: seq<Link>, last: Option<nat>, now: nat, useQuality: bool, qs: seq<real>)
    requires |qs| == |ls| && PositiveAll(qs) && forall i | 0 <= i < |ls| :: ls[i].quality.multiplier > 0.0
    ensures var ok := AnyQualityOk(ls, now); var es := Sc.Elect(ls, now, ok).0;
            Sc.Follows(ls, Sc.Act(Sc.Election(ok), now), es)
            && Sc.Follows(es, Sc.Act(Sc.Other, now), SelectEnhanced(ls, last, now, useQuality, qs).0)
  {
    var rs := SelectEnhanced(ls, last, now, useQuality, qs).0;
    var es := Sc.Elect(ls, now, AnyQualityOk(ls, now)).0;
    assert |es| == |ls| && |rs| == |ls|;
    forall i | 0 <= i < |ls|
      ensures rs[i].role == es[i].role
    {
      EnhancedRole(ls, last, now, useQuality, qs, i);
    }
  }

  /** A classic pass clears every role. */
  lemma ClassicFollowsRoleMoves(ls: seq<Link>, now: nat)
    ensures Sc.Follows(ls, Sc.Act(Sc.Classic, now), SelectClassic(ls, now).0)
  {
  }

  /** The act on the roles that a selection in this mode is. */
  function RoleMove(gs: seq<Link>, now: nat, mode: Mode): Sc.Move {
    if mode.Classic? then Sc.Classic else Sc.Election(AnyQualityOk(gs, now))
  }

  /**
   To the roles, any selection is a gate that leaves them alone, then one election or
   one classic clearing, then a ranking that leaves them alone.
   */
  lemma SelectionFollowsRoleMoves(ls: seq<Link>, last: Option<nat>, now: nat, cfg: Config, qs: seq<real>)
      returns (es: seq<Link>)
    requires |qs| == |ls| && PositiveAll(qs) && forall i | 0 <= i < |ls| :: ls[i].quality.multiplier > 0.0
    ensures var gs := Gate(ls, now, cfg);
            Sc.Follows(ls, Sc.Act(Sc.Other, now), gs)
            && Sc.Follows(gs, Sc.Act(RoleMove(gs, now, cfg.mode), now), es)
            && Sc.Follows(es, Sc.Act(Sc.Other, now), Select(ls, last, now, cfg, qs).0)
  {
    var gs := Gate(ls, now, cfg);
    GateKeepsRoles(ls, now, cfg);
    if cfg.mode.Classic? {
      es := SelectClassic(gs, now).0;
      ClassicFollowsRoleMoves(gs, now);
    } else {
      es := Sc.Elect(gs, now, AnyQualityOk(gs, now)).0;
      EnhancedFollowsRoleMoves(gs, last, now, cfg.qualityEnabled, qs);
    }
  }

  /** So a whole selection carries on any run of role moves, and the theorems about those runs cover it. */
  lemma SelectionExtendsRoleRun(bs: seq<seq<Link>>, acts: seq<Sc.Act>, last: Option<nat>, now: nat, cfg: Config,
                                qs: seq<real>)
      returns (cs: seq<seq<Link>>, more: seq<Sc.Act>)
    requires Sc.Run(bs, acts) && now > 0 && forall n | 0 <= n < |acts| :: acts[n].now <= now
    requires var ls := bs[|acts|];
             |qs| == |ls| && PositiveAll(qs) && forall i | 0 <= i < |ls| :: ls[i].quality.multiplier > 0.0
    ensures |more| == 3 && |cs| == 3 && Sc.Run(bs + cs, acts + more)
    ensures cs[2] == Select(bs[|acts|], last, now, cfg, qs).0
  {
    var ls := bs[|acts|];
    var gs := Gate(ls, now, cfg);
    var es := SelectionFollowsRoleMoves(ls, last, now, cfg, qs);
    var rs := Select(ls, last, now, cfg, qs).0;
    var first, second, third := Sc.Act(Sc.Other, now), Sc.Act(RoleMove(gs, now, cfg.mode), now), Sc.Act(Sc.Other, now);
    Sc.RunContinuesThrice(bs, acts, first, second, third, gs, es, rs);
    cs, more := [gs, es, rs], [first, second, third];
  }

  // ----- the guard over successive selections -----

  /** Classic and enhanced ranking leave the guard as the gate left it. */
  lemma SelectLeavesGuard(ls: seq<Link>, last: Option<nat>, now: nat, cfg: Config, qs: seq<real>, i: nat)
    requires |qs| == |ls| && i < |ls|
    ensures |Select(ls, last, now, cfg, qs).0| == |ls|
    ensures Select(ls, last, now, cfg, qs).0[i].guard == Gate(ls, now, cfg)[i].guard
  {
    var gs := Gate(ls, now, cfg);
    if cfg.mode.Enhanced? {
      PreparedFrame(gs, now, i);
    }
  }

  /**
   Successive selections with the guard on and its limits fixed, as link `i` sees
   them: nothing else writes its guard in between, so no reset either.
   */
  predicate GuardedSelections(bs: seq<seq<Link>>, ts: seq<nat>, cfgs: seq<Config>, lim: St.Limits, i: nat) {
    && |ts| == |cfgs| == |bs|
    && (forall n | 0 <= n < |bs| :: i < |bs[n]| && ts[n] > 0 && cfgs[n].stallDeselect && cfgs[n].limits == lim)
    && (forall m, n | 0 <= m < n < |ts| :: ts[m] <= ts[n])
    && (forall n | 0 <= n < |bs| - 1 :: bs[n + 1][i].guard == Gate(bs[n], ts[n], cfgs[n])[i].guard)
  }

  /** What the gate does to one guard: one pass, then the gate flag. */
  lemma GateIsAPass(ls: seq<Link>, now: nat, cfg: Config, i: nat)
    requires cfg.stallDeselect && i < |ls|
    ensures var g := Gate(ls, now, cfg)[i].guard;
            g == St.Pass(ls[i].guard, Retimed(ls[i], cfg).Reading(), cfg.limits, now).(gated := g.gated)
  {
  }

  /**
   The guards of one link over such selections, from a reset on, are a run of guard
   passes: what is proved of those runs holds of the scheduler.
   */
  lemma SelectionsAreGuardRuns(bs: seq<seq<Link>>, ts: seq<nat>, cfgs: seq<Config>, lim: St.Limits, i: nat)
      returns (gs: seq<St.Guard>, ps: seq<St.Look>)
    requires bs != [] && GuardedSelections(bs, ts, cfgs, lim, i) && bs[0][i].guard == St.ResetGuard(bs[0][i].guard)
    ensures St.Run(gs, ps, lim) && |ps| == |bs|
    ensures forall n | 0 <= n < |bs| ::
              gs[n] == bs[n][i].guard && gs[n + 1] == Gate(bs[n], ts[n], cfgs[n])[i].guard
              && ps[n] == St.Look(Retimed(bs[n][i], cfgs[n]).Reading(), ts[n])
  {
    var m := |bs|;
    ps := seq(m, n requires 0 <= n < m => St.Look(Retimed(bs[n][i], cfgs[n]).Reading(), ts[n]));
    gs := seq(m + 1, n requires 0 <= n <= m =>
      if n < m then bs[n][i].guard else Gate(bs[m - 1], ts[m - 1], cfgs[m - 1])[i].guard);
    forall n | 0 <= n < m
      ensures gs[n + 1] == Gate(bs[n], ts[n], cfgs[n])[i].guard
      ensures gs[n + 1] == St.Pass(gs[n], ps[n].reading, lim, ps[n].now).(gated := gs[n + 1].gated)
    {
      GateIsAPass(bs[n], ts[n], cfgs[n], i);
    }
  }

  // ----- non-interference -----

  /** Equal except for guard fields other than the gate flag itself. */
  predicate SameGate(l: Link, m: Link) {
    m == l.(guard := m.guard) && m.guard.gated == l.guard.gated
  }

  predicate SameGates(ls: seq<Link>, ms: seq<Link>) {
    |ls| == |ms| && forall i | 0 <= i < |ls| :: SameGate(ls[i], ms[i])
  }

  lemma SameGateFields(l: Link, m: Link)
    requires SameGate(l, m)
    ensures m.account == l.account && m.life == l.life && m.signals == l.signals && m.excluded == l.excluded
    ensures m.Score() == l.Score() && m.guard.gated == l.guard.gated
  {
  }

  lemma SameGateCaps(l: Link, m: Link)
    requires m.account == l.account && m.signals == l.signals && m.Score() == l.Score()
    ensures m.CapExceeded() == l.CapExceeded() && WeightedScore(m) == WeightedScore(l)
  {
  }

  lemma SameGateReads(l: Link, m: Link, now: nat)
    requires SameGate(l, m)
    ensures m.Candidate(now) == l.Candidate(now) && m.Score() == l.Score() && m.Late() == l.Late()
    ensures m.QualityOk() == l.QualityOk() && m.CapExceeded() == l.CapExceeded() && WeightedScore(m) == WeightedScore(l)
    ensures forall u: bool :: Ranked(m, now, u) == Ranked(l, now, u)
  {
    SameGateFields(l, m);
    SameGateCaps(l, m);
  }

  lemma SameGateRanks(l: Link, m: Link, v: View)
    requires SameGate(l, m)
    ensures v.Ranks(m) == v.Ranks(l) && v.Of(m) == v.Of(l)
  {
  }

  /** What the election reads of a link. */
  predicate SameToElection(l: Link, m: Link, now: nat) {
    && m.Candidate(now) == l.Candidate(now) && m.role.carrier == l.role.carrier
    && m.signals == l.signals && m.Score() == l.Score()
  }

  lemma SameGateElects(l: Link, m: Link, now: nat)
    requires SameGate(l, m)
    ensures SameToElection(l, m, now)
  {
    SameGateReads(l, m, now);
  }

  lemma {:induction false} ElectionReadsOnlyGate(ls: seq<Link>, ms: seq<Link>, now: nat, n: nat)
    requires SameGates(ls, ms) && n <= |ls|
    ensures Sc.BestMeasured(ms, now, n) == Sc.BestMeasured(ls, now, n)
    ensures Sc.BestUnmeasured(ms, now, n) == Sc.BestUnmeasured(ls, now, n)
    ensures Sc.Incumbent(ms, now, n) == Sc.Incumbent(ls, now, n)
  {
    if n > 0 {
      ElectionReadsOnlyGate(ls, ms, now, n - 1);
      forall i | 0 <= i < n
        ensures SameToElection(ls[i], ms[i], now)
      {
        SameGateElects(ls[i], ms[i], now);
      }
    }
  }

  lemma KeepReadsOnlyGate(ls: seq<Link>, ms: seq<Link>, now: nat)
    requires SameGates(ls, ms)
    ensures Sc.Hands(ms, now) == Sc.Hands(ls, now) && Sc.Keep(ms, now) == Sc.Keep(ls, now)
  {
    ElectionReadsOnlyGate(ls, ms, now, |ls|);
  }

  lemma AssignedReadsOnlyGate(l: Link, m: Link, now: nat, elected: bool, running: bool, handover: bool)
    requires SameGate(l, m)
    ensures SameGate(Sc.Assigned(l, now, elected, running, handover), Sc.Assigned(m, now, elected, running, handover))
    ensures SameGate(Sc.Released(l, now), Sc.Released(m, now))
  {
  }

  lemma ElectReadsOnlyGate(ls: seq<Link>, ms: seq<Link>, now: nat, ok: bool)
    requires SameGates(ls, ms)
    ensures Sc.Elect(ms, now, ok).1 == Sc.Elect(ls, now, ok).1
    ensures SameGates(Sc.Elect(ls, now, ok).0, Sc.Elect(ms, now, ok).0)
  {
    KeepReadsOnlyGate(ls, ms, now);
    var k, h := Sc.Keep(ls, now), Sc.Hands(ls, now);
    forall i | 0 <= i < |ls|
      ensures SameGate(Sc.Elect(ls, now, ok).0[i], Sc.Elect(ms, now, ok).0[i])
    {
      AssignedReadsOnlyGate(ls[i], ms[i], now, k == Some(i), k.Some?, h);
    }
  }

  lemma PoolReadsOnlyGate(ls: seq<Link>, ms: seq<Link>, now: nat)
    requires SameGates(ls, ms)
    ensures AnyUnconstrained(ms, now) == AnyUnconstrained(ls, now) && AnyQualityOk(ms, now) == AnyQualityOk(ls, now)
  {
    forall i | 0 <= i < |ls|
      ensures Unconstrained(ms[i], now) == Unconstrained(ls[i], now)
      ensures ms[i].Candidate(now) == ls[i].Candidate(now) && ms[i].QualityOk() == ls[i].QualityOk()
    {
      SameGateReads(ls[i], ms[i], now);
    }
  }

  lemma PreparedReadsOnlyGate(ls: seq<Link>, ms: seq<Link>, now: nat)
    requires SameGates(ls, ms)
    ensures SameGates(Prepared(ls, now), Prepared(ms, now))
  {
    PoolReadsOnlyGate(ls, ms, now);
    var ok := AnyQualityOk(ls, now);
    ElectReadsOnlyGate(ls, ms, now, ok);
    var es, fs := Sc.Elect(ls, now, ok).0, Sc.Elect(ms, now, ok).0;
    forall i | 0 <= i < |ls|
      ensures SameGate(Prepared(ls, now)[i], Prepared(ms, now)[i])
    {
      SameGateReads(es[i], fs[i], now);
    }
  }

  lemma {:induction false} ClassicReadsOnlyGate(ls: seq<Link>, ms: seq<Link>, now: nat, n: nat)
    requires SameGates(ls, ms) && n <= |ls|
    ensures BestClassic(ms, now, n) == BestClassic(ls, now, n)
  {
    if n > 0 {
      ClassicReadsOnlyGate(ls, ms, now, n - 1);
      forall i | 0 <= i < n
        ensures ms[i].Candidate(now) == ls[i].Candidate(now) && WeightedScore(ms[i]) == WeightedScore(ls[i])
      {
        SameGateReads(ls[i], ms[i], now);
      }
    }
  }

  lemma RefreshReadsOnlyGate(ls: seq<Link>, ms: seq<Link>, now: nat, useQuality: bool, u: bool, qs: seq<real>)
    requires SameGates(ls, ms) && |qs| == |ls|
    ensures SameGates(RefreshedAll(ls, now, useQuality, u, qs), RefreshedAll(ms, now, useQuality, u, qs))
  {
    forall i | 0 <= i < |ls|
      ensures SameGate(Refreshed(ls[i], now, useQuality, u, qs[i]), Refreshed(ms[i], now, useQuality, u, qs[i]))
    {
      SameGateReads(ls[i], ms[i], now);
    }
  }

  lemma EnhancedReadsOnlyGate(ls: seq<Link>, ms: seq<Link>, last: Option<nat>, now: nat, useQuality: bool,
                              qs: seq<real>)
    requires SameGates(ls, ms) && |qs| == |ls|
    ensures SelectEnhanced(ms, last, now, useQuality, qs).1 == SelectEnhanced(ls, last, now, useQuality, qs).1
    ensures SameGates(SelectEnhanced(ls, last, now, useQuality, qs).0, SelectEnhanced(ms, last, now, useQuality, qs).0)
  {
    PoolReadsOnlyGate(ls, ms, now);
    PreparedReadsOnlyGate(ls, ms, now);
    var u := AnyUnconstrained(ls, now);
    RefreshReadsOnlyGate(Prepared(ls, now), Prepared(ms, now), now, useQuality, u, qs);
    ScoresReadOnlyGate(RefreshedAll(Prepared(ls, now), now, useQuality, u, qs),
                       RefreshedAll(Prepared(ms, now), now, useQuality, u, qs), View(now, useQuality, u));
  }

  lemma ScoresReadOnlyGate(ls: seq<Link>, ms: seq<Link>, v: View)
    requires SameGates(ls, ms)
    ensures Scores(ms, v) == Scores(ls, v)
  {
    forall i | 0 <= i < |ls|
      ensures Entry(ms[i], v) == Entry(ls[i], v)
    {
      SameGateRanks(ls[i], ms[i], v);
    }
  }

  /** No ramp, or one the stall guard armed. */
  predicate StallRampOrNone(p: St.Ramp) {
    p.fromStallGate || p == St.NO_RAMP
  }

  /** Links that differ only in what the stall guard owns: latch, pull, backoff and the ramps it armed. */
  predicate DifferOnlyInGuard(l: Link, m: Link) {
    && m == l.(guard := m.guard, ramp := m.ramp)
    && (m.ramp == l.ramp || (StallRampOrNone(l.ramp) && StallRampOrNone(m.ramp)))
  }

  /** Equal but for the guard's event counters. */
  predicate SameButCounters(l: Link, m: Link) {
    m == l.(guard := l.guard.(gateEvents := m.guard.gateEvents, pulls := m.guard.pulls))
  }

  predicate AllSameButCounters(ls: seq<Link>, ms: seq<Link>) {
    |ls| == |ms| && forall i | 0 <= i < |ls| :: SameButCounters(ls[i], ms[i])
  }

  /** Ranking two gated bonds that agree on all but counters picks the same link and keeps the agreement. */
  lemma RankingIgnoresCounters(ls: seq<Link>, ms: seq<Link>, last: Option<nat>, now: nat, cfg: Config, qs: seq<real>)
    requires |ls| == |ms| == |qs| && AllSameButCounters(Gate(ls, now, cfg), Gate(ms, now, cfg))
    ensures Select(ms, last, now, cfg, qs).1 == Select(ls, last, now, cfg, qs).1
    ensures AllSameButCounters(Select(ls, last, now, cfg, qs).0, Select(ms, last, now, cfg, qs).0)
  {
    var gs, hs := Gate(ls, now, cfg), Gate(ms, now, cfg);
    assert SameGates(gs, hs);
    var rs, ts := Select(ls, last, now, cfg, qs).0, Select(ms, last, now, cfg, qs).0;
    assert Select(ms, last, now, cfg, qs).1 == Select(ls, last, now, cfg, qs).1 && SameGates(rs, ts) by {
      if cfg.mode.Enhanced? {
        EnhancedReadsOnlyGate(gs, hs, last, now, cfg.qualityEnabled, qs);
      } else {
        var cs, ds := SelectClassic(gs, now).0, SelectClassic(hs, now).0;
        ClassicReadsOnlyGate(cs, ds, now, |cs|);
      }
    }
    forall i | 0 <= i < |ls|
      ensures SameButCounters(rs[i], ts[i])
    {
      SelectLeavesGuard(ls, last, now, cfg, qs, i);
      SelectLeavesGuard(ms, last, now, cfg, qs, i);
      assert SameButCounters(gs[i], hs[i]) && SameGate(rs[i], ts[i]);
    }
  }

  /**
   With the guard off, nothing it ever recorded can influence routing: two bonds
   that differ only in guard state select the same link, and afterwards agree on
   everything but the guard's event counters.
   */
  lemma GuardOffIsNonInterfering(ls: seq<Link>, ms: seq<Link>, last: Option<nat>, now: nat, cfg: Config, qs: seq<real>)
    requires !cfg.stallDeselect && |ls| == |ms| == |qs|
    requires forall i | 0 <= i < |ls| :: DifferOnlyInGuard(ls[i], ms[i])
    ensures Select(ms, last, now, cfg, qs).1 == Select(ls, last, now, cfg, qs).1
    ensures AllSameButCounters(Select(ls, last, now, cfg, qs).0, Select(ms, last, now, cfg, qs).0)
  {
    var gs, hs := Gate(ls, now, cfg), Gate(ms, now, cfg);
    forall i | 0 <= i < |ls|
      ensures SameButCounters(gs[i], hs[i])
    {
    }
    RankingIgnoresCounters(ls, ms, last, now, cfg, qs);
  }

  /** The counters are never read: any later selection, guard on or off, keeps two such bonds in step. */
  lemma CountersNeverMatter(ls: seq<Link>, ms: seq<Link>, last: Option<nat>, now: nat, cfg: Config, qs: seq<real>)
    requires |ls| == |qs| && AllSameButCounters(ls, ms)
    ensures Select(ms, last, now, cfg, qs).1 == Select(ls, last, now, cfg, qs).1
    ensures AllSameButCounters(Select(ls, last, now, cfg, qs).0, Select(ms, last, now, cfg, qs).0)
  {
    GateIgnoresCounters(ls, ms, now, cfg);
    RankingIgnoresCounters(ls, ms, last, now, cfg, qs);
  }

  lemma PassIgnoresCounters(l: Link, m: Link, now: nat, lim: St.Limits)
    requires SameButCounters(l, m)
    ensures SameButCounters(Passed(l, now, lim), Passed(m, now, lim))
  {
  }

  lemma GateIgnoresCounters(ls: seq<Link>, ms: seq<Link>, now: nat, cfg: Config)
    requires AllSameButCounters(ls, ms)
    ensures AllSameButCounters(Gate(ls, now, cfg), Gate(ms, now, cfg))
  {
    var ps, qs := PassedAll(ls, now, cfg), PassedAll(ms, now, cfg);
    forall i | 0 <= i < |ls|
      ensures SameButCounters(ps[i], qs[i]) && ps[i].Usable(now) == qs[i].Usable(now)
              && Suspect(ps[i]) == Suspect(qs[i])
    {
      PassIgnoresCounters(Retimed(ls[i], cfg), Retimed(ms[i], cfg), now, cfg.limits);
    }
    assert AnyHealthy(ps, now) == AnyHealthy(qs, now);
  }

  /** A second guard-off selection sees guard state already erased: latch and pull are clear on every link. */
  lemma GuardOffErases(ls: seq<Link>, now: nat, cfg: Config, i: nat)
    requires !cfg.stallDeselect && i < |ls|
    ensures var g := Gate(ls, now, cfg)[i];
            !g.guard.gated && !g.guard.Latched() && !g.guard.pulled && g.guard.backoff == 0 && g.guard.releasedAt == 0
            && !g.ramp.fromStallGate
  {
  }
}
