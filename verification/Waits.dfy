/** How long the single REG1/REG2 slot stays taken, over every run of a fixed bond. */
module Waits {
  import opened Prelude
  import opened Links
  import opened Lifecycle
  import opened BondRuns
  import Lv = Liveness
  import Rg = Registration
  import Cl = Classifier

  // ----- the wait dates from the latest REG1 -----

  /** The step sends uplink `i` a REG1. */
  predicate SendsReg1(b: Bond, h: Happening, i: nat)
    requires Fits(b, h)
  {
    match h
    case Housekeeping(x) => Reg1To(i) in TickSends(b, x)
    case Received(k, now, f) => k == i && f.Ngp? && Rg.Immediate(Rg.OnNgp(b.reg, i, now), i, now)
    case _ => false
  }

  /** When uplink `i` was last sent a REG1 in the first `n` steps. */
  ghost function LatestReg1(bs: seq<Bond>, hs: seq<Happening>, i: nat, n: nat): Option<nat>
    requires n <= |hs| <= |bs| && forall k | 0 <= k < n :: Fits(bs[k], hs[k])
  {
    if n == 0 then None
    else if SendsReg1(bs[n - 1], hs[n - 1], i) then Some(TimeOf(hs[n - 1]))
    else LatestReg1(bs, hs, i, n - 1)
  }

  /** The manager's slot after a step: a REG1 just sent, or the wait it found. */
  predicate Dated(b: Bond, h: Happening, s: Rg.Reg, i: nat)
    requires Fits(b, h)
  {
    s.pending == Some(i) ==>
      if SendsReg1(b, h, i) then s.deadlineMs == TimeOf(h) + Rg.REG2_TIMEOUT_MS
      else b.reg.pending == Some(i) && s.deadlineMs == b.reg.deadlineMs
  }

  /** A sweep re-sends REG1 to the owner only, and each REG1 moves the deadline. */
  lemma {:induction false} SweepDates(r: Rg.Reg, links: seq<Link>, k: nat, now: nat, i: nat)
    requires k <= |links| && r.pending == Some(i)
    ensures var s := SweepReg(r, links, k, now);
            s.pending == Some(i)
            && s.deadlineMs == if Reg1To(i) in SweepSends(r, links, k, now) then now + Rg.REG2_TIMEOUT_MS
                               else r.deadlineMs
  {
    if k > 0 {
      SweepDates(r, links, k - 1, now, i);
    }
  }

  /** The driver sends REG1 only into an empty slot. */
  lemma DriveDates(r: Rg.Reg, n: nat, now: nat, i: nat)
    ensures var (d, s) := Rg.Drive(r, n, now);
            (r.pending.Some? ==> d.pending == r.pending && d.deadlineMs == r.deadlineMs && s.reg1.None?)
            && (r.pending.None? && d.pending == Some(i) ==>
                  s.reg1 == Some(i) && d.deadlineMs == now + Rg.REG2_TIMEOUT_MS)
  {
  }

  lemma TimedKeepsWait(r: Rg.Reg, n: nat, x: TickInput)
    requires Rg.Sound(r, n) && r.pending.Some?
    ensures Rg.Expired(r, x.now) <==> x.now >= r.deadlineMs
    ensures Timed(r, x) == if x.now >= r.deadlineMs then Rg.Expire(r, x.now) else r
  {
  }

  lemma TimedOpensNoWait(r: Rg.Reg, x: TickInput)
    ensures Timed(r, x).pending.Some? ==> Timed(r, x).pending == r.pending
  {
  }

  /** A tick that meets a wait which has not lapsed keeps its owner, whatever it sends. */
  lemma SweptHolds(b: Bond, x: TickInput, i: nat)
    requires Inv(b) && |x.links| == |b.links| && b.reg.pending == Some(i) && x.now < b.reg.deadlineMs
    ensures var s := Swept(b, x).reg;
            s.pending == Some(i)
            && s.deadlineMs == if Reg1To(i) in TickSends(b, x) then x.now + Rg.REG2_TIMEOUT_MS else b.reg.deadlineMs
  {
    TimedKeepsWait(b.reg, |b.links|, x);
    var ls, n := Graced(b.reg, b.links, x), |b.links|;
    SweepDates(b.reg, ls, n, x.now, i);
    var r := Rg.Snapshot(SweepReg(b.reg, ls, n, x.now), Flags(SweepLinks(ls, x)));
    DriveDates(r, n, x.now, i);
    assert Reg1To(i) in TickSends(b, x) <==> Reg1To(i) in SweepSends(b.reg, ls, n, x.now);
  }

  /** A tick that meets no wait, or clears the one it meets, leaves one only by sending REG1. */
  lemma SweptOpens(b: Bond, x: TickInput, i: nat)
    requires |x.links| == |b.links| && Timed(b.reg, x).pending.None?
    ensures var s := Swept(b, x).reg;
            s.pending == Some(i) ==> Reg1To(i) in TickSends(b, x) && s.deadlineMs == x.now + Rg.REG2_TIMEOUT_MS
  {
    var t, ls, n := Timed(b.reg, x), Graced(b.reg, b.links, x), |b.links|;
    SweepKeepsSlot(t, ls, n, x.now);
    var r := Rg.Snapshot(SweepReg(t, ls, n, x.now), Flags(SweepLinks(ls, x)));
    DriveDates(r, n, x.now, i);
    assert Rg.Drive(r, n, x.now).1.reg1 == Some(i) ==> Reg1To(i) in DriverSends(Rg.Drive(r, n, x.now).1);
  }

  lemma TickDates(b: Bond, x: TickInput, i: nat)
    requires Inv(b) && |x.links| == |b.links|
    ensures Dated(b, Housekeeping(x), Tick(b, x).reg, i)
  {
    SettlingIsTheSweepOrARestart(b, x);
    if Tick(b, x).reg.pending == Some(i) {
      if Timed(b.reg, x).pending.None? {
        SweptOpens(b, x, i);
      } else {
        TimedOpensNoWait(b.reg, x);
        TimedKeepsWait(b.reg, |b.links|, x);
        SweptHolds(b, x, b.reg.pending.value);
      }
    }
  }

  lemma StepDates(b: Bond, h: Happening, i: nat)
    requires Inv(b) && Fits(b, h)
    ensures Dated(b, h, Happen(b, h).reg, i)
  {
    match h {
      case Housekeeping(x) => TickDates(b, x, i);
      case Received(k, now, f) =>
      case Traffic(k, e) =>
      case FlushFailed(k) =>
    }
  }

  /** The deadline of a wait is four seconds after the latest REG1 sent to its owner: every renewal moves it. */
  lemma WaitDatesFromLatestReg1(bs: seq<Bond>, hs: seq<Happening>, i: nat, n: nat)
    requires History(bs, hs) && n <= |hs| && bs[n].reg.pending == Some(i)
    ensures var at := LatestReg1(bs, hs, i, n);
            at.Some? && bs[n].reg.deadlineMs == at.value + Rg.REG2_TIMEOUT_MS
  {
    OpeningWaitsForNothing(bs[0]);
    forall k | 0 <= k < |hs|
      ensures Dated(bs[k], hs[k], bs[k + 1].reg, i)
    {
      InvOverRuns(bs, hs, k);
      StepDates(bs[k], hs[k], i);
    }
    DatedBack(bs, hs, i, n);
  }

  lemma OpeningWaitsForNothing(b: Bond)
    requires Opening(b)
    ensures b.reg.pending.None?
  {
    var now :| b.reg == Rg.StartProbing(Rg.FRESH, |b.links|, now);
  }

  lemma {:induction false} DatedBack(bs: seq<Bond>, hs: seq<Happening>, i: nat, n: nat)
    requires |bs| == |hs| + 1 && n <= |hs| && bs[0].reg.pending.None? && bs[n].reg.pending == Some(i)
    requires forall k | 0 <= k < |hs| :: Fits(bs[k], hs[k]) && Dated(bs[k], hs[k], bs[k + 1].reg, i)
    ensures var at := LatestReg1(bs, hs, i, n);
            at.Some? && bs[n].reg.deadlineMs == at.value + Rg.REG2_TIMEOUT_MS
  {
    assert n > 0;
    assert Dated(bs[n - 1], hs[n - 1], bs[n - 1 + 1].reg, i);
    if !SendsReg1(bs[n - 1], hs[n - 1], i) {
      DatedBack(bs, hs, i, n - 1);
    }
  }

  // ----- exactly what ends a wait -----

  /** What ends the wait of uplink `i`, last sent a REG1 at `at`. */
  predicate EndsWait(b: Bond, h: Happening, i: nat, at: nat)
    requires Fits(b, h)
  {
    match h
    case Housekeeping(x) => x.now >= at + Rg.REG2_TIMEOUT_MS || Rehomes(b, x)
    case Received(k, _, f) => k == i && (f.RegErr? || (f.Reg2? && f.whole))
    case _ => false
  }

  lemma StepHoldsIff(b: Bond, h: Happening, i: nat, at: nat)
    requires Inv(b) && Fits(b, h) && b.reg.pending == Some(i) && b.reg.deadlineMs == at + Rg.REG2_TIMEOUT_MS
    ensures Happen(b, h).reg.pending == Some(i) <==> !EndsWait(b, h, i, at)
  {
    match h {
      case Housekeeping(x) =>
        SettlingIsTheSweepOrARestart(b, x);
        if x.now < b.reg.deadlineMs {
          SweptHolds(b, x, i);
        } else {
          LapsedTickClears(b, x);
        }
      case Received(k, now, f) =>
      case Traffic(k, e) =>
      case FlushFailed(k) =>
    }
  }

  /** Step `k` ends the wait, counted from the latest REG1 its owner was sent. */
  ghost predicate Ended(bs: seq<Bond>, hs: seq<Happening>, i: nat, k: nat) {
    && k < |hs| <= |bs| && (forall j | 0 <= j <= k :: Fits(bs[j], hs[j]))
    && LatestReg1(bs, hs, i, k).Some? && EndsWait(bs[k], hs[k], i, LatestReg1(bs, hs, i, k).value)
  }

  /**
   Over any run, a wait is held throughout if and only if no full REG2 and no REG_ERR
   arrives from its owner, no tick re-homes the bond, and every tick comes less than four
   seconds after the latest REG1 sent to the owner.
   */
  lemma WaitIsHeldIff(bs: seq<Bond>, hs: seq<Happening>, i: nat, m: nat, n: nat)
    requires History(bs, hs) && m <= n <= |hs| && bs[m].reg.pending == Some(i)
    ensures (forall k: nat | m <= k <= n :: bs[k].reg.pending == Some(i)) <==>
              (forall k: nat | m <= k < n :: !Ended(bs, hs, i, k))
  {
    var holds := (k: nat) => k < |bs| && bs[k].reg.pending == Some(i);
    var breaks := (k: nat) => Ended(bs, hs, i, k);
    forall k: nat | m <= k < n
      ensures holds(k) ==> (holds(k + 1) <==> !breaks(k))
    {
      if holds(k) {
        InvOverRuns(bs, hs, k);
        WaitDatesFromLatestReg1(bs, hs, i, k);
        StepHoldsIff(bs[k], hs[k], i, LatestReg1(bs, hs, i, k).value);
      }
    }
    UnbrokenIff(holds, breaks, m, n);
    assert forall k: nat | m <= k <= n :: holds(k) == (bs[k].reg.pending == Some(i));
    assert forall k: nat | m <= k < n :: breaks(k) == Ended(bs, hs, i, k);
  }

  // ----- an owner that was established -----

  /** How often a wait can be renewed by an established owner that has failed `f` times. */
  function Renewals(f: nat): nat {
    if f < Lv.FAST_RETRY_ATTEMPTS then Lv.FAST_RETRY_ATTEMPTS - f else 1
  }

  /** A wait that had deadline `d` when its owner had failed `f` times, `j` renewals on. */
  predicate RenewedTimes(r: Rg.Reg, l: Lv.Life, d: nat, f: nat, j: nat) {
    && l.establishedMs != 0 && j <= Renewals(f) && r.deadlineMs <= d + Rg.REG2_TIMEOUT_MS * j
    && (l.failures >= f + j || l.failures == 0xFFFF_FFFF)
    && (j > 0 ==> l.lastAttemptMs > 0 && r.deadlineMs <= l.lastAttemptMs + Rg.REG2_TIMEOUT_MS)
  }

  /** Once the renewals are used up, the next attempt is not due before the deadline. */
  lemma NoRenewalLeft(r: Rg.Reg, l: Lv.Life, d: nat, f: nat, now: nat)
    requires RenewedTimes(r, l, d, f, Renewals(f)) && now < r.deadlineMs
    ensures !Lv.ShouldAttempt(l, now)
  {
  }

  /** What a renewal does to the three fields that pace it. */
  lemma RenewalPaces(l: Link, now: nat, rebuilt: bool)
    requires l.life.establishedMs != 0
    ensures var p := Renewed(l, now, rebuilt).life;
            p.establishedMs == l.life.establishedMs && p.lastAttemptMs == now
            && p.failures == Min(l.life.failures + 1, 0xFFFF_FFFF)
  {
  }

  /** Outside renewals and registrations nothing touches the fields that pace a retry. */
  predicate SamePace(l: Lv.Life, p: Lv.Life) {
    p.establishedMs == l.establishedMs && p.lastAttemptMs == l.lastAttemptMs && p.failures == l.failures
  }

  lemma QuietVisitKeepsPace(l: Link, x: LinkInput, now: nat, classic: bool)
    requires !Renews(l, now)
    ensures SamePace(l.life, VisitLink(l, x, now, classic).life)
  {
  }

  lemma OtherStepKeepsPace(b: Bond, h: Happening, i: nat)
    requires Fits(b, h) && i < |b.links| && !h.Housekeeping? && !AcceptsReg3(b, h, i)
    ensures SamePace(b.links[i].life, Happen(b, h).links[i].life)
  {
    match h {
      case Received(k, now, f) =>
      case Traffic(k, e) =>
      case FlushFailed(k) =>
    }
  }

  /** A sweep sends the owner a REG1 exactly when it renews the owner's link. */
  lemma {:induction false} OwnerRenewalSendsReg1(r: Rg.Reg, links: seq<Link>, k: nat, now: nat, i: nat)
    requires k <= |links| && r.pending == Some(i)
    ensures Reg1To(i) in SweepSends(r, links, k, now) <==> i < k && Renews(links[i], now)
  {
    if k > 0 {
      OwnerRenewalSendsReg1(r, links, k - 1, now, i);
      var q := SweepReg(r, links, k - 1, now);
      assert q.pending == Some(i) by {
        SweepDates(r, links, k - 1, now, i);
      }
      assert Reg1To(i) in VisitSends(q, links[k - 1], k - 1, now) <==> i == k - 1 && Renews(links[i], now);
    }
  }

  /** A tick that holds the wait of uplink `i` visits that link as it was. */
  lemma HeldTick(b: Bond, x: TickInput, i: nat)
    requires Inv(b) && |x.links| == |b.links| && i < |b.links| && b.reg.pending == Some(i)
    requires x.now < b.reg.deadlineMs && !Rehomes(b, x)
    ensures var l := b.links[i];
            Tick(b, x).links[i] == VisitLink(l, x.links[i], x.now, x.classic)
            && Tick(b, x).reg.deadlineMs == if Renews(l, x.now) then x.now + Rg.REG2_TIMEOUT_MS else b.reg.deadlineMs
  {
    TimedKeepsWait(b.reg, |b.links|, x);
    var ls := Graced(b.reg, b.links, x);
    assert ls == b.links;
    SweptHolds(b, x, i);
    SettlingIsTheSweepOrARestart(b, x);
    OwnerRenewalSendsReg1(b.reg, ls, |ls|, x.now, i);
    HeldTickSends(b, x, i);
  }

  lemma HeldTickSends(b: Bond, x: TickInput, i: nat)
    requires Inv(b) && |x.links| == |b.links| && b.reg.pending == Some(i) && x.now < b.reg.deadlineMs
    ensures Reg1To(i) in TickSends(b, x) <==> Reg1To(i) in SweepSends(b.reg, b.links, |b.links|, x.now)
  {
    TimedKeepsWait(b.reg, |b.links|, x);
    assert Graced(b.reg, b.links, x) == b.links;
    SweepDates(b.reg, b.links, |b.links|, x.now, i);
    var r := Rg.Snapshot(SweepReg(b.reg, b.links, |b.links|, x.now), Flags(SweepLinks(b.links, x)));
    DriveDates(r, |b.links|, x.now, i);
  }

  /** One step of a held wait: as it was, or renewed by an attempt that was due before the deadline. */
  predicate HeldMove(b: Bond, h: Happening, s: Bond, i: nat) {
    && i < |b.links| == |s.links| && (h.Housekeeping? ==> 0 < h.x.now < b.reg.deadlineMs)
    && var l, p := b.links[i].life, s.links[i].life;
    || (s.reg.deadlineMs == b.reg.deadlineMs && SamePace(l, p))
    || (&& h.Housekeeping? && Lv.ShouldAttempt(l, h.x.now) && s.reg.deadlineMs == h.x.now + Rg.REG2_TIMEOUT_MS
        && p.establishedMs == l.establishedMs && p.lastAttemptMs == h.x.now
        && p.failures == Min(l.failures + 1, 0xFFFF_FFFF))
  }

  lemma HeldTickMoves(b: Bond, x: TickInput, i: nat)
    requires Inv(b) && |x.links| == |b.links| && i < |b.links| && x.now > 0
    requires b.reg.pending == Some(i) && Tick(b, x).reg.pending == Some(i) && b.links[i].life.establishedMs != 0
    ensures HeldMove(b, Housekeeping(x), Tick(b, x), i)
  {
    var l := b.links[i];
    if x.now >= b.reg.deadlineMs {
      LapsedTickClears(b, x);
    }
    SettlingIsTheSweepOrARestart(b, x);
    HeldTick(b, x, i);
    if Renews(l, x.now) {
      RenewalPaces(l, x.now, x.links[i].rebuilt);
    } else {
      QuietVisitKeepsPace(l, x.links[i], x.now, x.classic);
    }
  }

  lemma HeldStepMoves(b: Bond, h: Happening, i: nat)
    requires Inv(b) && Fits(b, h) && i < |b.links| && !AcceptsReg3(b, h, i) && (h.Housekeeping? ==> h.x.now > 0)
    requires b.reg.pending == Some(i) && Happen(b, h).reg.pending == Some(i) && b.links[i].life.establishedMs != 0
    ensures HeldMove(b, h, Happen(b, h), i)
  {
    if h.Housekeeping? {
      HeldTickMoves(b, h.x, i);
    } else {
      OtherStepKeepsPace(b, h, i);
      StepDates(b, h, i);
    }
  }

  lemma MoveRenewsOnce(b: Bond, h: Happening, s: Bond, i: nat, d: nat, f: nat, j: nat) returns (k: nat)
    requires HeldMove(b, h, s, i) && RenewedTimes(b.reg, b.links[i].life, d, f, j)
    ensures RenewedTimes(s.reg, s.links[i].life, d, f, k)
  {
    if s.reg.deadlineMs == b.reg.deadlineMs && SamePace(b.links[i].life, s.links[i].life) {
      k := j;
    } else {
      if j == Renewals(f) {
        NoRenewalLeft(b.reg, b.links[i].life, d, f, h.x.now);
      }
      k := j + 1;
    }
  }

  /** Uplink `i` owns the slot from `m` to `n`, and no REG3 of its own is accepted meanwhile. */
  ghost predicate HeldThroughout(bs: seq<Bond>, hs: seq<Happening>, i: nat, m: nat, n: nat) {
    && m <= n <= |hs| < |bs|
    && (forall k: nat | m <= k <= n :: bs[k].reg.pending == Some(i))
    && (forall k: nat | m <= k < n :: !AcceptsReg3(bs[k], hs[k], i))
  }

  predicate PositiveTicks(hs: seq<Happening>) {
    forall k: nat | k < |hs| && hs[k].Housekeeping? :: hs[k].x.now > 0
  }

  /** What holds of a held wait at every step holds at the next. */
  lemma {:induction false} HeldRun(bs: seq<Bond>, hs: seq<Happening>, i: nat, m: nat, n: nat) returns (j: nat)
    requires History(bs, hs) && PositiveTicks(hs) && HeldThroughout(bs, hs, i, m, n)
    requires |bs[m].links| == |bs[0].links| && i < |bs[0].links| && bs[m].links[i].life.establishedMs != 0
    ensures |bs[n].links| == |bs[0].links|
    ensures RenewedTimes(bs[n].reg, bs[n].links[i].life, bs[m].reg.deadlineMs, bs[m].links[i].life.failures, j)
    decreases n
  {
    if m == n {
      j := 0;
    } else {
      j := HeldRun(bs, hs, i, m, n - 1);
      HeldAt(bs, hs, i, m, n, n - 1);
      var d, f := bs[m].reg.deadlineMs, bs[m].links[i].life.failures;
      j := MoveRenewsOnce(bs[n - 1], hs[n - 1], bs[n - 1 + 1], i, d, f, j);
    }
  }

  lemma HeldAt(bs: seq<Bond>, hs: seq<Happening>, i: nat, m: nat, n: nat, k: nat)
    requires History(bs, hs) && PositiveTicks(hs) && HeldThroughout(bs, hs, i, m, n) && m <= k < n
    requires i < |bs[k].links| && bs[k].links[i].life.establishedMs != 0
    ensures HeldMove(bs[k], hs[k], bs[k + 1], i)
  {
    InvOverRuns(bs, hs, k);
    assert bs[k].reg.pending == Some(i) && bs[k + 1].reg.pending == Some(i);
    HeldStepMoves(bs[k], hs[k], i);
  }

  /**
   A wait whose owner has been established before is renewed at most four times, because
   the retry pace then slows to five seconds: every tick that holds it comes within
   sixteen seconds of the deadline it had.
   */
  lemma EstablishedOwnerIsReleased(bs: seq<Bond>, hs: seq<Happening>, i: nat, m: nat, n: nat, k: nat)
    requires History(bs, hs) && PositiveTicks(hs) && HeldThroughout(bs, hs, i, m, n)
    requires i < |bs[m].links| && bs[m].links[i].life.establishedMs != 0
    requires m <= k < n && hs[k].Housekeeping?
    ensures hs[k].x.now < bs[m].reg.deadlineMs + Rg.REG2_TIMEOUT_MS * Renewals(bs[m].links[i].life.failures)
  {
    InvOverRuns(bs, hs, m);
    var j := HeldRun(bs, hs, i, m, k);
    HeldAt(bs, hs, i, m, n, k);
  }

  // ----- an owner that was never established -----

  /** The step leaves uplink `i` a socket: no failed flush, and every renewal rebuilds it. */
  predicate KeepsSocket(b: Bond, h: Happening, i: nat) {
    && !(h.FlushFailed? && h.i == i)
    && (h.Housekeeping? && i < |b.links| && i < |h.x.links| && Renews(b.links[i], h.x.now) ==> h.x.links[i].rebuilt)
  }

  /** One step of a wait held by an uplink that never was established and keeps its socket. */
  predicate FirstTimeMove(b: Bond, h: Happening, s: Bond, i: nat) {
    && i < |b.links| == |s.links| && (h.Housekeeping? ==> h.x.now < b.reg.deadlineMs)
    && var l, p := b.links[i].life, s.links[i].life;
    && p.establishedMs == l.establishedMs
    && (|| (s.reg.deadlineMs == b.reg.deadlineMs && p.graceDeadlineMs == l.graceDeadlineMs)
        || (&& h.Housekeeping? && h.x.now > l.graceDeadlineMs && s.reg.deadlineMs == h.x.now + Rg.REG2_TIMEOUT_MS
            && p.graceDeadlineMs == h.x.now + Lv.STARTUP_GRACE_MS))
  }

  lemma FirstTimeVisit(l: Link, x: LinkInput, now: nat, classic: bool)
    requires l.life.establishedMs == 0 && (Renews(l, now) ==> x.rebuilt)
    ensures var p := VisitLink(l, x, now, classic).life;
            p.establishedMs == 0
            && p.graceDeadlineMs == if Renews(l, now) then now + Lv.STARTUP_GRACE_MS else l.life.graceDeadlineMs
  {
  }

  lemma OtherStepKeepsGrace(b: Bond, h: Happening, i: nat)
    requires Fits(b, h) && i < |b.links| && !h.Housekeeping? && !AcceptsReg3(b, h, i) && KeepsSocket(b, h, i)
    ensures var l, p := b.links[i].life, Happen(b, h).links[i].life;
            p.establishedMs == l.establishedMs && p.graceDeadlineMs == l.graceDeadlineMs
  {
    match h {
      case Received(k, now, f) =>
      case Traffic(k, e) =>
      case FlushFailed(k) =>
    }
  }

  lemma FirstTimeTickMoves(b: Bond, x: TickInput, i: nat)
    requires Inv(b) && |x.links| == |b.links| && i < |b.links| && KeepsSocket(b, Housekeeping(x), i)
    requires b.reg.pending == Some(i) && Tick(b, x).reg.pending == Some(i) && b.links[i].life.establishedMs == 0
    ensures FirstTimeMove(b, Housekeeping(x), Tick(b, x), i)
  {
    if x.now >= b.reg.deadlineMs {
      LapsedTickClears(b, x);
    }
    SettlingIsTheSweepOrARestart(b, x);
    HeldTick(b, x, i);
    FirstTimeVisit(b.links[i], x.links[i], x.now, x.classic);
  }

  lemma FirstTimeStepMoves(b: Bond, h: Happening, i: nat)
    requires Inv(b) && Fits(b, h) && i < |b.links| && !AcceptsReg3(b, h, i) && KeepsSocket(b, h, i)
    requires b.reg.pending == Some(i) && Happen(b, h).reg.pending == Some(i) && b.links[i].life.establishedMs == 0
    ensures FirstTimeMove(b, h, Happen(b, h), i)
  {
    if h.Housekeeping? {
      FirstTimeTickMoves(b, h.x, i);
    } else {
      OtherStepKeepsGrace(b, h, i);
      StepDates(b, h, i);
    }
  }

  ghost predicate KeepsSocketThroughout(bs: seq<Bond>, hs: seq<Happening>, i: nat, m: nat, n: nat) {
    m <= n <= |hs| < |bs| && forall k: nat | m <= k < n :: KeepsSocket(bs[k], hs[k], i)
  }

  lemma FirstTimeAt(bs: seq<Bond>, hs: seq<Happening>, i: nat, m: nat, n: nat, k: nat)
    requires History(bs, hs) && HeldThroughout(bs, hs, i, m, n) && KeepsSocketThroughout(bs, hs, i, m, n)
    requires m <= k < n && i < |bs[k].links| && bs[k].links[i].life.establishedMs == 0
    ensures FirstTimeMove(bs[k], hs[k], bs[k + 1], i)
  {
    InvOverRuns(bs, hs, k);
    assert bs[k].reg.pending == Some(i) && bs[k + 1].reg.pending == Some(i);
    FirstTimeStepMoves(bs[k], hs[k], i);
  }

  /** Not renewed yet, or renewed once and in a grace period that outlasts the wait. */
  predicate RenewedAtMostOnce(r: Rg.Reg, l: Lv.Life, d: nat) {
    && l.establishedMs == 0
    && (r.deadlineMs == d || (r.deadlineMs <= d + Rg.REG2_TIMEOUT_MS && r.deadlineMs < l.graceDeadlineMs))
  }

  lemma MoveRenewsAtMostOnce(b: Bond, h: Happening, s: Bond, i: nat, d: nat)
    requires FirstTimeMove(b, h, s, i) && RenewedAtMostOnce(b.reg, b.links[i].life, d)
    ensures RenewedAtMostOnce(s.reg, s.links[i].life, d)
  {
  }

  lemma {:induction false} FirstTimeRun(bs: seq<Bond>, hs: seq<Happening>, i: nat, m: nat, n: nat)
    requires m <= n <= |hs| < |bs| && i < |bs[m].links| && bs[m].links[i].life.establishedMs == 0
    requires forall k: nat | m <= k < n :: FirstTimeNext(bs[k], hs[k], bs[k + 1], i)
    ensures i < |bs[n].links| && RenewedAtMostOnce(bs[n].reg, bs[n].links[i].life, bs[m].reg.deadlineMs)
    decreases n
  {
    if m < n {
      FirstTimeRun(bs, hs, i, m, n - 1);
      assert FirstTimeNext(bs[n - 1], hs[n - 1], bs[n - 1 + 1], i);
      MoveRenewsAtMostOnce(bs[n - 1], hs[n - 1], bs[n - 1 + 1], i, bs[m].reg.deadlineMs);
    }
  }

  predicate FirstTimeNext(b: Bond, h: Happening, s: Bond, i: nat) {
    i < |b.links| && b.links[i].life.establishedMs == 0 ==> FirstTimeMove(b, h, s, i)
  }

  /**
   A wait whose owner was never established is renewed at most once as long as the owner
   keeps its socket, because a rebuilt socket's grace period outlasts the wait.
   */
  lemma FirstTimeOwnerIsReleased(bs: seq<Bond>, hs: seq<Happening>, i: nat, m: nat, n: nat, k: nat)
    requires History(bs, hs) && HeldThroughout(bs, hs, i, m, n) && KeepsSocketThroughout(bs, hs, i, m, n)
    requires i < |bs[m].links| && bs[m].links[i].life.establishedMs == 0
    requires m <= k < n && hs[k].Housekeeping?
    ensures hs[k].x.now < bs[m].reg.deadlineMs + Rg.REG2_TIMEOUT_MS
  {
    forall k: nat | m <= k < n
      ensures FirstTimeNext(bs[k], hs[k], bs[k + 1], i)
    {
      if i < |bs[k].links| && bs[k].links[i].life.establishedMs == 0 {
        FirstTimeAt(bs, hs, i, m, n, k);
      }
    }
    FirstTimeRun(bs, hs, i, m, k);
    assert FirstTimeNext(bs[k], hs[k], bs[k + 1], i);
  }

  // ----- an owner that holds the slot for ever -----

  /** Never registered, never answered, and last retried by `t`. */
  predicate Silent(l: Link, t: nat) {
    && !l.life.connected && l.life.phase.Registering? && l.life.establishedMs == 0
    && l.life.lastReceived.None? && l.life.lastAttemptMs <= t
  }

  /** Silent, and past any grace period since its socket could not be rebuilt. */
  predicate Idle(l: Link, t: nat) {
    Silent(l, t) && l.life.graceDeadlineMs == 0
  }

  /** A silent link whose socket cannot be rebuilt is due half a second after its last attempt, grace permitting. */
  lemma SilentVisit(l: Link, x: LinkInput, now: nat, classic: bool, t: nat)
    requires Silent(l, t) && t + Lv.TICK_SLACK_MS <= now && !x.rebuilt
    ensures Silent(VisitLink(l, x, now, classic), now)
    ensures now < l.life.graceDeadlineMs ==> VisitLink(l, x, now, classic).life == l.life && !Renews(l, now)
    ensures now > l.life.graceDeadlineMs ==> Renews(l, now) && Idle(VisitLink(l, x, now, classic), now)
  {
  }

  /** Every uplink is idle and uplink 0 has just been sent a REG1. */
  predicate Stuck(b: Bond, t: nat) {
    && |b.links| > 0 && b.reg.pending == Some(0) && b.reg.deadlineMs == t + Rg.REG2_TIMEOUT_MS && !b.reg.broadcast
    && (forall j | 0 <= j < |b.links| :: Idle(b.links[j], t))
  }

  /** Every uplink is due a retry, and only the slot's owner is sent anything. */
  predicate Starves(b: Bond, h: Happening) {
    && h.Housekeeping? && |h.x.links| == |b.links| && b.reg.pending == Some(0)
    && (forall j | 0 <= j < |b.links| :: Renews(b.links[j], h.x.now))
    && TickSends(b, h.x) == [Reg1To(0)]
  }

  lemma {:induction false} OnlyOwnerIsSent(r: Rg.Reg, links: seq<Link>, k: nat, now: nat)
    requires k <= |links| && r.pending == Some(0) && forall j | 0 <= j < k :: Renews(links[j], now)
    ensures SweepSends(r, links, k, now) == if k == 0 then [] else [Reg1To(0)]
    ensures SweepReg(r, links, k, now).broadcast == r.broadcast && SweepReg(r, links, k, now).pending == Some(0)
  {
    if k > 0 {
      OnlyOwnerIsSent(r, links, k - 1, now);
    }
  }

  /** Nothing but the sweep's packets, when no broadcast is due and the slot is taken. */
  lemma HeldTickSendsTheSweep(b: Bond, x: TickInput)
    requires Inv(b) && |x.links| == |b.links| && b.reg.pending.Some? && x.now < b.reg.deadlineMs && !Rehomes(b, x)
    requires var r := SweepReg(b.reg, b.links, |b.links|, x.now); r.pending.Some? && !r.broadcast
    ensures TickSends(b, x) == SweepSends(b.reg, b.links, |b.links|, x.now)
    ensures !Tick(b, x).reg.broadcast
    ensures Tick(b, x).links == SweepLinks(b.links, x)
  {
    TimedKeepsWait(b.reg, |b.links|, x);
    assert Graced(b.reg, b.links, x) == b.links;
  }

  /**
   A tick half a second to four seconds after the last REG1, with no socket rebuilt, keeps
   the whole bond stuck: each renewal of the owner moves the deadline it is waiting for.
   */
  lemma StuckTick(b: Bond, x: TickInput, t: nat)
    requires Inv(b) && Stuck(b, t) && |x.links| == |b.links| && !Rehomes(b, x)
    requires t + Lv.TICK_SLACK_MS <= x.now < t + Rg.REG2_TIMEOUT_MS && x.now > 0
    requires forall j | 0 <= j < |x.links| :: !x.links[j].rebuilt
    ensures Stuck(Tick(b, x), x.now) && Starves(b, Housekeeping(x))
  {
    var n := |b.links|;
    forall j | 0 <= j < n
      ensures Renews(b.links[j], x.now) && Idle(SweepLinks(b.links, x)[j], x.now)
    {
      SilentVisit(b.links[j], x.links[j], x.now, x.classic, t);
    }
    OnlyOwnerIsSent(b.reg, b.links, n, x.now);
    HeldTickSendsTheSweep(b, x);
    SettlingIsTheSweepOrARestart(b, x);
    HeldTick(b, x, 0);
    SweptHolds(b, x, 0);
  }

  // ----- how the bond gets stuck -----

  /** A tick on which no socket can be rebuilt and the resolver is not heard from. */
  function Quiet(n: nat, now: nat): TickInput {
    TickInput(now, now, false, seq(n, _ => IDLE), None)
  }

  predicate AllSilent(links: seq<Link>, t: nat) {
    forall j | 0 <= j < |links| :: Silent(links[j], t)
  }

  predicate GraceOver(links: seq<Link>, g: nat) {
    forall j | 0 <= j < |links| :: links[j].life.graceDeadlineMs <= g
  }

  lemma {:induction false} NoneCounted(flags: seq<bool>)
    requires forall j | 0 <= j < |flags| :: !flags[j]
    ensures Rg.Count(flags) == 0
  {
    if flags != [] {
      NoneCounted(flags[..|flags| - 1]);
    }
  }

  /** A quiet sweep leaves silent links silent, and counts none of them. */
  lemma QuietSweep(links: seq<Link>, now: nat, t: nat, g: nat)
    requires AllSilent(links, t) && GraceOver(links, g) && t + Lv.TICK_SLACK_MS <= now
    ensures var after := SweepLinks(links, Quiet(|links|, now));
            AllSilent(after, now) && GraceOver(after, g) && Rg.Count(Flags(after)) == 0
            && (forall j | 0 <= j < |links| && now < links[j].life.graceDeadlineMs :: after[j].life == links[j].life)
            && (now > g ==> forall j | 0 <= j < |links| :: Idle(after[j], now))
  {
    var after := SweepLinks(links, Quiet(|links|, now));
    forall j | 0 <= j < |links|
      ensures Silent(after[j], now) && after[j].life.graceDeadlineMs <= g
      ensures now < links[j].life.graceDeadlineMs ==> after[j].life == links[j].life
      ensures now > g ==> Idle(after[j], now)
    {
      SilentVisit(links[j], IDLE, now, false, t);
      GraceOnlyEnds(links[j], now);
    }
    NoneCounted(Flags(after));
  }

  lemma GraceOnlyEnds(l: Link, now: nat)
    ensures VisitLink(l, IDLE, now, false).life.graceDeadlineMs <= l.life.graceDeadlineMs
  {
  }

  /** The resolver stays out of it, so the bond after a quiet tick is the one its sweep and driver left. */
  lemma QuietTickIsItsSweep(b: Bond, now: nat)
    ensures var x := Quiet(|b.links|, now);
            !Rehomes(b, x) && Tick(b, x).links == Swept(b, x).links && Tick(b, x).reg == Swept(b, x).reg
  {
  }

  lemma {:induction false} QuietSweepKeepsReg(r: Rg.Reg, links: seq<Link>, k: nat, now: nat)
    requires k <= |links| && forall j | 0 <= j < k :: !Renews(links[j], now)
    ensures SweepReg(r, links, k, now) == r
  {
    if k > 0 {
      QuietSweepKeepsReg(r, links, k - 1, now);
    }
  }

  /** Probing: uplink `i` of a bond opened at time 1. */
  function OpenedLink(i: nat): Link {
    Links.Step(NewLink(i, 1, Signals(false, Cl.Healthy, false, 0.0, 0.0, 0, 0.0, 1)), Life(Lv.Grace(1)))
  }

  function OpeningBond(n: nat): Bond {
    Bond(Rg.StartProbing(Rg.FRESH, n, 1), seq(n, i requires 0 <= i => OpenedLink(i)), seq(n, _ => 7), [], None,
         Gate(true, None))
  }

  lemma OpeningBondOpens(n: nat)
    requires n > 0
    ensures Opening(OpeningBond(n)) && |OpeningBond(n).links| == n
  {
    var b := OpeningBond(n);
    forall i | 0 <= i < n
      ensures Opened(b.links[i])
    {
      assert b.links[i] == OpenedLink(i);
    }
  }

  /** The probe has timed out and uplink 0 awaits REG2, in a grace period of its own. */
  predicate Probed(b: Bond) {
    && |b.links| > 0 && b.reg.pending == Some(0) && b.reg.deadlineMs == 7000
    && !b.reg.broadcast && b.reg.probing.Complete?
    && AllSilent(b.links, 3000) && GraceOver(b.links, 8000) && b.links[0].life.graceDeadlineMs == 8000
  }

  /** The wait has lapsed, and uplink 0 is still in its grace period. */
  predicate Lapsed(b: Bond) {
    && |b.links| > 0 && b.reg.pending.None? && !b.reg.broadcast && b.reg.probing.Complete? && b.reg.active == 0
    && AllSilent(b.links, 7000) && GraceOver(b.links, 8000)
  }

  lemma NoProbeAnswered(n: nat)
    requires n > 0
    ensures var t := Rg.CheckProbing(Rg.StartProbing(Rg.FRESH, n, 1), 3000);
            t.target == Some(0) && t.nextSendMs == 3000 && t.probing.Complete? && t.pending.None? && !t.broadcast
  {
    Rg.FastestIsFastest(Rg.StartProbing(Rg.FRESH, n, 1).probes);
  }

  lemma OpeningIsProbed(n: nat)
    requires n > 0
    ensures Probed(Tick(OpeningBond(n), Quiet(n, 3000)))
  {
    var b, x := OpeningBond(n), Quiet(n, 3000);
    NoProbeAnswered(n);
    var t, ls := Timed(b.reg, x), Graced(b.reg, b.links, x);
    QuietSweep(ls, 3000, 0, 8000);
    forall j | 0 <= j < n
      ensures !Renews(ls[j], 3000)
    {
      SilentVisit(ls[j], IDLE, 3000, false, 0);
    }
    QuietSweepKeepsReg(t, ls, n, 3000);
    QuietTickIsItsSweep(b, 3000);
  }

  lemma ProbedLapses(b: Bond)
    requires Inv(b) && Probed(b)
    ensures Lapsed(Tick(b, Quiet(|b.links|, 7000)))
  {
    var n := |b.links|;
    var x := Quiet(n, 7000);
    TimedKeepsWait(b.reg, n, x);
    var t := Timed(b.reg, x);
    QuietSweep(b.links, 7000, 3000, 8000);
    SweepKeepsSlot(t, b.links, n, 7000);
    QuietTickIsItsSweep(b, 7000);
  }

  /** A REG_NGP reopens the wait, and the next tick finds the owner's grace period over. */
  lemma LapsedGetsStuck(b: Bond)
    requires Inv(b) && Lapsed(b)
    ensures Stuck(Tick(OnFrame(b, 0, 7500, Ngp), Quiet(|b.links|, 9000)), 9000)
  {
    var n, a := |b.links|, OnFrame(b, 0, 7500, Ngp);
    var x := Quiet(n, 9000);
    FrameKeepsInv(b, 0, 7500, Ngp);
    assert a.links == b.links && a.reg.pending == Some(0) && a.reg.deadlineMs == 11500;
    QuietSweep(a.links, 9000, 7000, 8000);
    forall j | 0 <= j < n
      ensures Renews(a.links[j], 9000)
    {
      SilentVisit(a.links[j], IDLE, 9000, false, 7000);
    }
    OnlyOwnerIsSent(a.reg, a.links, n, 9000);
    QuietTickIsItsSweep(a, 9000);
    HeldTickSendsTheSweep(a, x);
    HeldTick(a, x, 0);
    SweptHolds(a, x, 0);
  }

  /** A run of `n` uplinks that ends stuck. */
  lemma GettingStuck(n: nat) returns (bs: seq<Bond>, hs: seq<Happening>)
    requires n > 0
    ensures History(bs, hs) && |hs| == 4 && |bs[0].links| == n && |bs[4].links| == n && Stuck(bs[4], 9000)
  {
    OpeningBondOpens(n);
    bs, hs := [OpeningBond(n)], [];
    OpeningIsProbed(n);
    bs, hs := Continue(bs, hs, Housekeeping(Quiet(n, 3000)));
    InvOverRuns(bs, hs, 1);
    ProbedLapses(bs[1]);
    bs, hs := Continue(bs, hs, Housekeeping(Quiet(n, 7000)));
    InvOverRuns(bs, hs, 2);
    LapsedGetsStuck(bs[2]);
    bs, hs := Continue(bs, hs, Received(0, 7500, Ngp));
    bs, hs := Continue(bs, hs, Housekeeping(Quiet(n, 9000)));
  }

  lemma OneMoreStuckTick(bs: seq<Bond>, hs: seq<Happening>, n: nat, t: nat) returns (cs: seq<Bond>, ks: seq<Happening>)
    requires History(bs, hs) && |bs[|hs|].links| == n && Stuck(bs[|hs|], t)
    ensures History(cs, ks) && |ks| == |hs| + 1 && hs <= ks && bs <= cs
    ensures Starves(cs[|hs|], ks[|hs|]) && TimeOf(ks[|hs|]) == t + 1000
    ensures |cs[|ks|].links| == n && Stuck(cs[|ks|], t + 1000)
  {
    var b, x := bs[|hs|], Quiet(n, t + 1000);
    InvOverRuns(bs, hs, |hs|);
    QuietTickIsItsSweep(b, t + 1000);
    StuckTick(b, x, t);
    cs, ks := Continue(bs, hs, Housekeeping(x));
    assert cs[|hs|] == b;
  }

  /** Step `k` is a starving tick, a second after the one before it. */
  predicate StarvesAt(b: Bond, h: Happening, k: nat) {
    Starves(b, h) && TimeOf(h) == 6000 + 1000 * k
  }

  ghost predicate StarvedFrom(bs: seq<Bond>, hs: seq<Happening>, m: nat) {
    && |bs| == |hs| + 1
    && forall k | m <= k < |hs| :: StarvesAt(bs[k], hs[k], k)
  }

  lemma StarvedOneMore(bs: seq<Bond>, hs: seq<Happening>, cs: seq<Bond>, ks: seq<Happening>)
    requires StarvedFrom(bs, hs, 4) && bs <= cs && hs <= ks && |cs| == |bs| + 1 && |ks| == |hs| + 1
    requires StarvesAt(cs[|hs|], ks[|hs|], |hs|)
    ensures StarvedFrom(cs, ks, 4)
  {
    forall k | 4 <= k < |ks|
      ensures StarvesAt(cs[k], ks[k], k)
    {
      if k < |hs| {
        assert cs[k] == bs[k] && ks[k] == hs[k];
      }
    }
  }

  /**
   The slot need not empty: for a bond of any size and any number of ticks there is a run
   in which uplink 0, never established and with a socket that cannot be rebuilt, holds
   the slot through that many ticks a second apart, while every uplink is due a retry and
   no other one is sent anything.
   */
  lemma {:induction false} StuckOwnerHoldsTheSlot(n: nat, ticks: nat) returns (bs: seq<Bond>, hs: seq<Happening>)
    requires n > 0
    ensures History(bs, hs) && |bs[0].links| == n && |hs| == 4 + ticks
    ensures StarvedFrom(bs, hs, 4)
    ensures |bs[|hs|].links| == n && Stuck(bs[|hs|], 9000 + 1000 * ticks)
  {
    if ticks == 0 {
      bs, hs := GettingStuck(n);
    } else {
      var bs0, hs0 := StuckOwnerHoldsTheSlot(n, ticks - 1);
      bs, hs := OneMoreStuckTick(bs0, hs0, n, 8000 + 1000 * ticks);
      StarvedOneMore(bs0, hs0, bs, hs);
    }
  }
}
