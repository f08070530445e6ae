/** What holds over every run of a fixed bond. */
module BondRuns {
  import opened Prelude
  import opened Links
  import opened Lifecycle
  import Lv = Liveness
  import Rg = Registration
  import Sel = Selection
  import Cl = Classifier

  // ----- registration -----

  /** How many REG3 frames uplink `i` had accepted in the first `n` steps. */
  ghost function Accepted(bs: seq<Bond>, hs: seq<Happening>, i: nat, n: nat): nat
    requires n <= |hs| && |bs| == |hs| + 1
  {
    if n == 0 then 0 else
    Accepted(bs, hs, i, n - 1) + if AcceptsReg3(bs[n - 1], hs[n - 1], i) then 1 else 0
  }

  predicate AcceptsReg3(b: Bond, h: Happening, i: nat) {
    h.Received? && h.i == i && h.frame.Reg3? && i in b.reg.awaiting
  }

  lemma {:induction false} SweepRedeemsNothing(r: Rg.Reg, links: seq<Link>, k: nat, now: nat)
    requires k <= |links|
    ensures SweepReg(r, links, k, now).redeemed == r.redeemed
  {
    if k > 0 {
      SweepRedeemsNothing(r, links, k - 1, now);
    }
  }

  /** Whether or not it re-homes, a tick leaves the history its sweep wrote. */
  lemma SettlingKeepsHistory(b: Bond, x: TickInput)
    requires |x.links| == |b.links|
    ensures Settled(b, x).reg.redeemed == b.reg.redeemed && Settled(b, x).reg.armed == b.reg.armed
  {
  }

  lemma TickRedeemsNothing(b: Bond, x: TickInput)
    requires |x.links| == |b.links|
    ensures Tick(b, x).reg.redeemed == b.reg.redeemed
  {
    assert Swept(b, x).reg.redeemed == b.reg.redeemed by {
      SweepRedeemsNothing(Timed(b.reg, x), Graced(b.reg, b.links, x), |b.links|, x.now);
    }
    SettlingKeepsHistory(Swept(b, x), x);
  }

  lemma StepRedeems(b: Bond, h: Happening, i: nat)
    requires Fits(b, h)
    ensures Happen(b, h).reg.redeemed[i] == b.reg.redeemed[i] + if AcceptsReg3(b, h, i) then 1 else 0
  {
    match h {
      case Housekeeping(x) => TickRedeemsNothing(b, x);
      case Received(k, now, f) =>
      case Traffic(k, e) =>
      case FlushFailed(k) =>
    }
  }

  lemma OpeningRedeemsNothing(b: Bond)
    requires Opening(b)
    ensures b.reg.redeemed == multiset{}
  {
    var now :| b.reg == Rg.StartProbing(Rg.FRESH, |b.links|, now);
  }

  /** The history kept in the manager counts what the run shows. */
  lemma RedeemedCountsReg3(bs: seq<Bond>, hs: seq<Happening>, i: nat, n: nat)
    requires History(bs, hs) && n <= |hs|
    ensures bs[n].reg.redeemed[i] == Accepted(bs, hs, i, n)
  {
    OpeningRedeemsNothing(bs[0]);
    forall k | 0 <= k < |hs|
      ensures bs[k + 1].reg.redeemed[i] == bs[k].reg.redeemed[i] + if AcceptsReg3(bs[k], hs[k], i) then 1 else 0
    {
      StepRedeems(bs[k], hs[k], i);
    }
    CountUp(bs, hs, i, n);
  }

  lemma {:induction false} CountUp(bs: seq<Bond>, hs: seq<Happening>, i: nat, n: nat)
    requires n <= |hs| && |bs| == |hs| + 1 && bs[0].reg.redeemed[i] == 0
    requires forall k | 0 <= k < |hs| ::
               bs[k + 1].reg.redeemed[i] == bs[k].reg.redeemed[i] + if AcceptsReg3(bs[k], hs[k], i) then 1 else 0
    ensures bs[n].reg.redeemed[i] == Accepted(bs, hs, i, n)
  {
    if n > 0 {
      CountUp(bs, hs, i, n - 1);
      assert bs[n - 1 + 1] == bs[n];
    }
  }

  /**
   Every accepted REG3 was paid for by a REG2 that armed it, an outstanding grant
   is paid for too, and a connected uplink has none outstanding.
   */
  lemma GrantsAreOneShot(bs: seq<Bond>, hs: seq<Happening>, i: nat, n: nat)
    requires History(bs, hs) && n <= |hs| && i < |bs[n].links|
    ensures Accepted(bs, hs, i, n) + (if i in bs[n].reg.awaiting then 1 else 0) <= bs[n].reg.armed[i]
    ensures bs[n].links[i].life.connected ==> i !in bs[n].reg.awaiting
  {
    InvOverRuns(bs, hs, n);
    RedeemedCountsReg3(bs, hs, i, n);
    var r := bs[n].reg;
    var owed: multiset<nat> := r.redeemed + multiset(r.awaiting);
    assert owed[i] <= r.armed[i];
  }

  lemma {:induction false} SweepArms(r: Rg.Reg, links: seq<Link>, k: nat, now: nat, i: nat)
    requires k <= |links|
    ensures r.armed[i] <= SweepReg(r, links, k, now).armed[i]
                       <= r.armed[i] + if i < k && Renews(links[i], now) then 1 else 0
  {
    if k > 0 {
      SweepArms(r, links, k - 1, now, i);
    }
  }

  lemma DriveArms(r: Rg.Reg, links: seq<Link>, now: nat, i: nat)
    requires i < |links|
    ensures var d := Rg.Drive(Rg.Snapshot(r, Flags(links)), |links|, now).0;
            r.armed[i] <= d.armed[i] <= r.armed[i] + if links[i].life.connected then 0 else 1
  {
  }

  lemma SweptArms(b: Bond, x: TickInput, i: nat)
    requires |x.links| == |b.links| && i < |b.links|
    ensures var s := Swept(b, x);
            b.reg.armed[i] <= s.reg.armed[i] <= b.reg.armed[i] + if s.links[i].life.connected then 0 else 2
  {
    var ls, t := Graced(b.reg, b.links, x), Timed(b.reg, x);
    var after := SweepLinks(ls, x);
    SweepArms(t, ls, |ls|, x.now, i);
    if after[i].life.connected {
      VisitNeverConnects(ls[i], x.links[i], x.now, x.classic);
    }
    DriveArms(SweepReg(t, ls, |ls|, x.now), after, x.now, i);
  }

  /** Only a tick arms a grant, at most twice, and only for an uplink that its sweep leaves unconnected. */
  lemma OnlyTicksArm(b: Bond, h: Happening, i: nat)
    requires Fits(b, h) && i < |b.links|
    ensures b.reg.armed[i] <= Happen(b, h).reg.armed[i] <= b.reg.armed[i] + 2
    ensures Happen(b, h).reg.armed[i] > b.reg.armed[i] ==> h.Housekeeping? && !Swept(b, h.x).links[i].life.connected
  {
    match h {
      case Housekeeping(x) =>
        SweptArms(b, x, i);
        SettlingKeepsHistory(Swept(b, x), x);
      case Received(k, now, f) =>
      case Traffic(k, e) =>
      case FlushFailed(k) =>
    }
  }

  /** In a reachable bond, a REG3 on a connected uplink is just a datagram: it can never wipe a live link. */
  lemma LiveLinkIgnoresReg3(bs: seq<Bond>, hs: seq<Happening>, n: nat, i: nat, now: nat)
    requires History(bs, hs) && n <= |hs| && i < |bs[n].links| && bs[n].links[i].life.connected
    ensures OnFrame(bs[n], i, now, Frame.Reg3).links == OnFrame(bs[n], i, now, Other).links
  {
    InvOverRuns(bs, hs, n);
  }

  /**
   In a reachable bond, a REG_ERR takes a connected uplink down exactly when that uplink
   owns the pending REG2 wait, and touches no other uplink's link, grant or wait.
   */
  lemma RegErrDropsLiveLinkIff(bs: seq<Bond>, hs: seq<Happening>, n: nat, i: nat, now: nat)
    requires History(bs, hs) && n <= |hs| && i < |bs[n].links| && bs[n].links[i].life.connected
    ensures !OnFrame(bs[n], i, now, Frame.RegErr).links[i].life.connected <==> bs[n].reg.pending == Some(i)
    ensures forall j | 0 <= j < |bs[n].links| && j != i :: Untouched(bs[n], OnFrame(bs[n], i, now, Frame.RegErr), j)
  {
    InvOverRuns(bs, hs, n);
    forall j | 0 <= j < |bs[n].links| && j != i
      ensures Untouched(bs[n], OnFrame(bs[n], i, now, Frame.RegErr), j)
    {
      RegErrIsContained(bs[n], i, j, now);
    }
  }

  /** A tick of a bond whose one uplink is still in its grace period: timers and driver only. */
  lemma GraceTick(b: Bond, x: TickInput)
    requires |b.links| == 1 && |x.links| == 1
    requires var l := b.links[0].life;
             !l.connected && l.phase.Registering? && l.establishedMs == 0 && x.now < l.graceDeadlineMs
    ensures var t := Tick(b, x);
            t.reg == Rg.Drive(Rg.Snapshot(Timed(b.reg, x), [false]), 1, x.now).0
            && (t.links[0].life == b.links[0].life || t.links[0].life == Lv.ArmGrace(b.links[0].life, x.now))
  {
    var ls := Graced(b.reg, b.links, x);
    assert !ls[0].life.TimedOut(x.now);
    var after := SweepLinks(ls, x);
    assert after[0].life == ls[0].life;
    assert Flags(after) == [false];
    assert SweepReg(Timed(b.reg, x), ls, 1, x.now) == Timed(b.reg, x) by {
      assert SweepReg(Timed(b.reg, x), ls, 0, x.now) == Timed(b.reg, x);
    }
    assert after[0] in Swept(b, x).links;
  }

  /** One uplink, never connected, within a grace period that lasts past `until`. */
  predicate Lone(b: Bond, until: nat) {
    |b.links| == 1 && var l := b.links[0].life;
    !l.connected && l.phase.Registering? && l.establishedMs == 0 && until < l.graceDeadlineMs
  }

  const IDLE := LinkInput(false, false, false, false, false)

  function QuietTick(now: nat): Happening {
    Housekeeping(TickInput(now, now, false, [IDLE], None))
  }

  /** The probe times out and its uplink is sent REG1. */
  lemma ProbeThenReg1(b: Bond, now: nat, until: nat)
    requires Lone(b, until) && 2001 <= now <= until < now + Lv.STARTUP_GRACE_MS
    requires b.reg == Rg.StartProbing(Rg.FRESH, 1, 1)
    ensures var s := Happen(b, QuietTick(now));
            Lone(s, until) && s.reg.pending == Some(0) && s.reg.probing.Complete? && s.reg.active == 0
  {
    Rg.FastestIsFastest(b.reg.probes);
    GraceTick(b, QuietTick(now).x);
  }

  /** A REG2 is followed by the broadcast that arms the uplink. */
  lemma Reg2ThenGrant(b: Bond, now: nat, later: nat)
    requires Lone(b, later) && b.reg.pending == Some(0) && b.reg.probing.Complete? && b.reg.active == 0
    ensures var s := OnFrame(b, 0, now, Reg2(true)); var t := Happen(s, QuietTick(later));
            Lone(s, later) && Lone(t, later) && t.reg.pending.None? && t.reg.probing.Complete? && t.reg.active == 0
            && 0 in t.reg.awaiting
  {
    var s := OnFrame(b, 0, now, Reg2(true));
    GraceTick(s, QuietTick(later).x);
  }

  /** A REG_NGP on the armed uplink takes the pending slot, and the REG3 it is still owed connects it. */
  lemma NgpThenReg3(b: Bond, now: nat, later: nat)
    requires |b.links| == 1 && b.reg.pending.None? && b.reg.probing.Complete? && b.reg.active == 0
    requires 0 in b.reg.awaiting
    ensures var s := OnFrame(b, 0, now, Ngp); var t := OnFrame(s, 0, later, Frame.Reg3);
            |t.links| == 1 && t.links[0].life.connected && t.reg.pending == Some(0)
  {
  }

  predicate Leads(b: Bond, h: Happening, s: Bond) {
    Fits(b, h) && s == Happen(b, h)
  }

  ghost predicate Steps(bs: seq<Bond>, hs: seq<Happening>) {
    |bs| == |hs| + 1 && forall n | 0 <= n < |hs| :: Leads(bs[n], hs[n], bs[n + 1])
  }

  lemma HistoryIsSteps(bs: seq<Bond>, hs: seq<Happening>)
    ensures History(bs, hs) <==> Steps(bs, hs) && Opening(bs[0])
  {
    if Steps(bs, hs) && Opening(bs[0]) {
      forall n | 0 <= n < |hs|
        ensures Fits(bs[n], hs[n]) && bs[n + 1] == Happen(bs[n], hs[n])
      {
        assert Leads(bs[n], hs[n], bs[n + 1]);
      }
    }
  }

  lemma StepsExtend(bs: seq<Bond>, hs: seq<Happening>, h: Happening, s: Bond)
    requires Steps(bs, hs) && Leads(bs[|hs|], h, s)
    ensures Steps(bs + [s], hs + [h])
  {
    TraceExtends(bs, hs, h, s, Leads);
  }

  lemma OneMoreStep(bs: seq<Bond>, hs: seq<Happening>, h: Happening)
    requires History(bs, hs) && Fits(bs[|hs|], h)
    ensures History(bs + [Happen(bs[|hs|], h)], hs + [h])
  {
    var s := Happen(bs[|hs|], h);
    HistoryIsSteps(bs, hs);
    StepsExtend(bs, hs, h, s);
    HistoryIsSteps(bs + [s], hs + [h]);
  }

  /** A history with one more step. */
  lemma Continue(bs: seq<Bond>, hs: seq<Happening>, h: Happening) returns (cs: seq<Bond>, ks: seq<Happening>)
    requires History(bs, hs) && Fits(bs[|hs|], h)
    ensures History(cs, ks) && |ks| == |hs| + 1 && cs[|ks|] == Happen(bs[|hs|], h)
    ensures hs <= ks && bs <= cs && ks[|hs|] == h
  {
    OneMoreStep(bs, hs, h);
    cs, ks := bs + [Happen(bs[|hs|], h)], hs + [h];
  }

  /** A just-opened bond of one uplink. */
  lemma LoneOpening() returns (b: Bond)
    ensures Opening(b) && Lone(b, 5000) && b.reg == Rg.StartProbing(Rg.FRESH, 1, 1)
  {
    var signals := Signals(false, Cl.Healthy, false, 0.0, 0.0, 0, 0.0, 1);
    var l := Links.Step(NewLink(1, 1, signals), Life(Lv.Grace(1)));
    assert Opened(l);
    b := Bond(Rg.StartProbing(Rg.FRESH, 1, 1), [l], [7], [], None, Gate(true, None));
  }

  /** An uplink may hold a grant and the pending slot at once, so it can connect while it still owns the wait. */
  lemma ConnectedUplinkMayOwnTheWait() returns (bs: seq<Bond>, hs: seq<Happening>)
    ensures History(bs, hs) && |bs[|hs|].links| == 1
    ensures bs[|hs|].links[0].life.connected && bs[|hs|].reg.pending == Some(0)
  {
    var b := LoneOpening();
    bs, hs := [b], [];
    ProbeThenReg1(b, 3000, 5000);
    bs, hs := Continue(bs, hs, QuietTick(3000));
    Reg2ThenGrant(bs[1], 3100, 4000);
    bs, hs := Continue(bs, hs, Received(0, 3100, Reg2(true)));
    bs, hs := Continue(bs, hs, QuietTick(4000));
    NgpThenReg3(bs[3], 4100, 4200);
    bs, hs := Continue(bs, hs, Received(0, 4100, Ngp));
    bs, hs := Continue(bs, hs, Received(0, 4200, Frame.Reg3));
  }

  /** Uplink `j` keeps its link, its grant and its pending wait. */
  predicate Untouched(b: Bond, a: Bond, j: nat)
    requires j < |b.links| == |a.links|
  {
    && a.links[j] == b.links[j] && (j in a.reg.awaiting <==> j in b.reg.awaiting)
    && (b.reg.pending == Some(j) ==> a.reg.pending == Some(j) && a.reg.deadlineMs == b.reg.deadlineMs)
  }

  lemma RegErrIsContained(b: Bond, i: nat, j: nat, now: nat)
    requires i < |b.links| && j < |b.links| && i != j
    ensures Untouched(b, OnFrame(b, i, now, Frame.RegErr), j)
  {
  }

  /** A REG2 wait always has a deadline, and a tick at or past it empties the slot. */
  lemma LapsedWaitClears(bs: seq<Bond>, hs: seq<Happening>, n: nat, x: TickInput)
    requires History(bs, hs) && n <= |hs| && bs[n].reg.pending.Some? && |x.links| == |bs[n].links|
    ensures bs[n].reg.deadlineMs != 0
    ensures x.now >= bs[n].reg.deadlineMs ==> Tick(bs[n], x).reg.pending.None?
  {
    InvOverRuns(bs, hs, n);
    if x.now >= bs[n].reg.deadlineMs {
      LapsedTickClears(bs[n], x);
    }
  }

  lemma LapsedTickClears(b: Bond, x: TickInput)
    requires Inv(b) && b.reg.pending.Some? && |x.links| == |b.links| && x.now >= b.reg.deadlineMs
    ensures Tick(b, x).reg.pending.None?
  {
    SweepKeepsSlot(Timed(b.reg, x), Graced(b.reg, b.links, x), |b.links|, x.now);
  }

  /** Sweeping with an empty slot changes nothing but grants. */
  lemma {:induction false} SweepKeepsSlot(r: Rg.Reg, links: seq<Link>, k: nat, now: nat)
    requires k <= |links| && r.pending.None?
    ensures var s := SweepReg(r, links, k, now);
            s == r.(awaiting := s.awaiting, armed := s.armed)
  {
    if k > 0 {
      SweepKeepsSlot(r, links, k - 1, now);
    }
  }

  lemma {:induction false} SweepGrantsAreSent(r: Rg.Reg, links: seq<Link>, k: nat, now: nat, i: nat)
    requires k <= |links|
    ensures i in SweepReg(r, links, k, now).awaiting ==> i in r.awaiting || Reg2To(i) in SweepSends(r, links, k, now)
    ensures Reg1To(i) in SweepSends(r, links, k, now) ==>
              r.pending == Some(i) && SweepReg(r, links, k, now).pending == Some(i)
    ensures SweepReg(r, links, k, now).pending == r.pending
  {
    if k > 0 {
      SweepGrantsAreSent(r, links, k - 1, now, i);
    }
  }

  /**
   A tick arms no grant without sending the REG2 that asks for the REG3.  It sends REG1
   only to the uplink that owns the pending slot once the tick's sweep and driver are
   done, which is the owner after the tick unless the tick also re-homes the bond.
   */
  lemma GrantsAreSent(b: Bond, x: TickInput, i: nat)
    requires |x.links| == |b.links|
    ensures i in Tick(b, x).reg.awaiting ==>
              i in b.reg.awaiting || Reg2To(i) in TickSends(b, x) || Reg2ToAll in TickSends(b, x)
    ensures Reg1To(i) in TickSends(b, x) ==> Swept(b, x).reg.pending == Some(i)
    ensures Tick(b, x).reg.pending == if Rehomes(b, x) then None else Swept(b, x).reg.pending
  {
    SettlingIsTheSweepOrARestart(b, x);
    SweptGrantsAreSent(b, x, i);
  }

  lemma SweptGrantsAreSent(b: Bond, x: TickInput, i: nat)
    requires |x.links| == |b.links|
    ensures i in Swept(b, x).reg.awaiting ==>
              i in b.reg.awaiting || Reg2To(i) in TickSends(b, x) || Reg2ToAll in TickSends(b, x)
    ensures Reg1To(i) in TickSends(b, x) ==> Swept(b, x).reg.pending == Some(i)
  {
    var t, ls := Timed(b.reg, x), Graced(b.reg, b.links, x);
    SweepGrantsAreSent(t, ls, |ls|, x.now, i);
    var r := Rg.Snapshot(SweepReg(t, ls, |ls|, x.now), Flags(SweepLinks(ls, x)));
    DriveSends(r, |ls|, x.now, i);
    assert Swept(b, x).reg == Rg.Drive(r, |ls|, x.now).0;
  }

  /** The manager after a tick is the one its sweep and driver left, unless the tick re-homes. */
  lemma SettlingIsTheSweepOrARestart(b: Bond, x: TickInput)
    requires |x.links| == |b.links|
    ensures if Rehomes(b, x) then Tick(b, x).reg.pending.None? && Tick(b, x).reg.awaiting == {}
            else Tick(b, x).reg == Swept(b, x).reg
  {
  }

  lemma DriveSends(r: Rg.Reg, n: nat, now: nat, i: nat)
    ensures var (d, s) := Rg.Drive(r, n, now);
            (i in d.awaiting ==> i in r.awaiting || Reg2ToAll in DriverSends(s))
            && (Reg1To(i) in DriverSends(s) ==> d.pending == Some(i))
            && (r.pending.Some? ==> d.pending == r.pending)
  {
  }

  /**
   An uplink that is down and due a retry holds a grant after the tick's sweep, and so
   was sent a REG2, unless some uplink is awaiting REG2.  A re-home, which starts
   registration over, is all that takes the grant away before the tick ends.
   */
  lemma LostLinksAreGranted(bs: seq<Bond>, hs: seq<Happening>, n: nat, x: TickInput, i: nat)
    requires History(bs, hs) && n <= |hs| && |x.links| == |bs[n].links| && i < |bs[n].links|
    requires Renews(Graced(bs[n].reg, bs[n].links, x)[i], x.now)
    ensures i in Swept(bs[n], x).reg.awaiting || Timed(bs[n].reg, x).pending.Some?
    ensures i in Tick(bs[n], x).reg.awaiting <==> i in Swept(bs[n], x).reg.awaiting && !Rehomes(bs[n], x)
  {
    InvOverRuns(bs, hs, n);
    TimedKeepsSound(bs[n].reg, |bs[n].links|, x);
    SweepKeepsSound(Timed(bs[n].reg, x), Graced(bs[n].reg, bs[n].links, x), |bs[n].links|, x.now);
    SettlingIsTheSweepOrARestart(bs[n], x);
  }

  // ----- every link of the bond -----

  lemma VisitReaches(l: Link, x: LinkInput, now: nat, classic: bool)
    requires Reachable(l)
    ensures Reachable(VisitLink(l, x, now, classic))
  {
    if Renews(l, now) {
      ReachableStep(l, Life(Lv.Attempt(now)));
      ReachableStep(Links.Step(l, Life(Lv.Attempt(now))), if x.rebuilt then Reconnect(now) else Recovery);
    } else if !l.life.TimedOut(now) {
      var e := Life(Lv.PhaseTick(now, x.nakDegraded, x.nakRecovered, l.signals.lossDegraded));
      var w := WindowRecovery(x.rising, now);
      if classic {
        ReachableStep(l, e);
      } else {
        ReachableStep(l, w);
        ReachableStep(Links.Step(l, w), e);
      }
    }
  }

  lemma MoveReaches(l: Link, x: LinkInput, now: nat)
    requires Reachable(l)
    ensures Reachable(MovedLink(l, x, now))
  {
    var e := if x.moved then Reconnect(now) else Recovery;
    ReachableStep(l, e);
    ReachableStep(Links.Step(l, e), Life(Lv.Grace(now)));
  }

  lemma TickReaches(b: Bond, x: TickInput, i: nat)
    requires |x.links| == |b.links| && i < |b.links| && Reachable(b.links[i])
    ensures Reachable(Tick(b, x).links[i])
  {
    ReachableStep(b.links[i], Life(Lv.Grace(x.now)));
    var ls := Graced(b.reg, b.links, x);
    VisitReaches(ls[i], x.links[i], x.now, x.classic);
    if Rehomes(b, x) {
      MoveReaches(Swept(b, x).links[i], x.links[i], x.now);
    }
  }

  lemma FrameReaches(b: Bond, i: nat, now: nat, f: Frame, j: nat)
    requires i < |b.links| && now > 0 && j < |b.links| && Reachable(b.links[j])
    ensures Reachable(OnFrame(b, i, now, f).links[j])
  {
    if i == j {
      ReachableStep(b.links[i], Life(Lv.Datagram(now)));
      ReachableStep(b.links[i], Event.Reg3(now));
      ReachableStep(b.links[i], Life(Lv.RegErr));
    }
  }

  lemma StepReaches(b: Bond, h: Happening, j: nat)
    requires Fits(b, h) && j < |b.links| && Reachable(b.links[j])
    ensures Reachable(Happen(b, h).links[j])
  {
    match h {
      case Housekeeping(x) => TickReaches(b, x, j);
      case Received(i, now, f) => FrameReaches(b, i, now, f, j);
      case Traffic(i, e) =>
        if i == j {
          ReachableStep(b.links[i], e);
        }
      case FlushFailed(i) =>
        if i == j {
          ReachableStep(b.links[i], Recovery);
        }
    }
  }

  /** Whatever the bond goes through, each of its links goes through a run of its own. */
  lemma {:induction false} LinksStayReachable(bs: seq<Bond>, hs: seq<Happening>, n: nat, j: nat)
    requires History(bs, hs) && n <= |hs| && j < |bs[0].links|
    ensures |bs[n].links| == |bs[0].links| && Reachable(bs[n].links[j])
  {
    if n == 0 {
      OpenedIsReachable(bs[0].links[j]);
    } else {
      LinksStayReachable(bs, hs, n - 1, j);
      StepReaches(bs[n - 1], hs[n - 1], j);
    }
  }

  lemma OpenedIsReachable(l: Link)
    requires Opened(l)
    ensures Reachable(l)
  {
    var id, at, s: Signals, now :| s.smoothRtt >= 0.0 && l == Links.Step(NewLink(id, at, s), Life(Lv.Grace(now)));
    assert Links.Run([NewLink(id, at, s)], []);
    ReachableStep(NewLink(id, at, s), Life(Lv.Grace(now)));
  }

  /** No uplink of a running bond is in limbo: lost means timed out, and usable means connected. */
  lemma NoUplinkInLimbo(bs: seq<Bond>, hs: seq<Happening>, n: nat, j: nat, now: nat)
    requires History(bs, hs) && n <= |hs| && j < |bs[n].links|
    ensures var l := bs[n].links[j];
            (l.life.establishedMs != 0 && !l.life.connected ==> l.life.TimedOut(now))
            && (l.Usable(now) ==> l.life.connected)
  {
    InvOverRuns(bs, hs, n);
    LinksStayReachable(bs, hs, n, j);
    ReachableIsHealthy(bs[n].links[j]);
  }

  /**
   In every state of every run, selection finds a link exactly when one is usable, and the
   link it finds can deliver.
   */
  lemma RunningBondNeverStarves(bs: seq<Bond>, hs: seq<Happening>, n: nat, last: Option<nat>, now: nat,
                                cfg: Sel.Config, qs: seq<real>)
    requires History(bs, hs) && n <= |hs| && |qs| == |bs[n].links| && Sel.PositiveAll(qs)
    ensures var (rs, pick) := Sel.Select(bs[n].links, last, now, cfg, qs);
            (pick.Some? <==> exists i | 0 <= i < |bs[n].links| :: Sel.Retimed(bs[n].links[i], cfg).Usable(now))
            && (pick.Some? ==> pick.value < |rs| && Sel.Deliverable(rs[pick.value], now))
  {
    InvOverRuns(bs, hs, n);
    forall j | 0 <= j < |bs[n].links|
      ensures Reachable(bs[n].links[j])
    {
      LinksStayReachable(bs, hs, n, j);
    }
    Sel.SelectionNeverStarves(bs[n].links, last, now, cfg, qs);
  }

  // ----- re-homing -----

  /** Ticks read a clock that never goes back. */
  predicate Ordered(hs: seq<Happening>) {
    forall m, n | 0 <= m < n < |hs| && hs[m].Housekeeping? && hs[n].Housekeeping? :: hs[m].x.now <= hs[n].x.now
  }

  ghost predicate IsTick(bs: seq<Bond>, hs: seq<Happening>, n: int) {
    0 <= n < |hs| <= |bs| && hs[n].Housekeeping? && |hs[n].x.links| == |bs[n].links|
  }

  /** Every tick from `m` up to `n` found no live uplink. */
  ghost predicate DeadThroughout(bs: seq<Bond>, hs: seq<Happening>, m: int, n: int) {
    forall k | m <= k < n && IsTick(bs, hs, k) :: Dead(bs[k], hs[k].x)
  }

  /** What a step does to the two stamps. */
  predicate Stamped(b: Bond, h: Happening, s: Bond)
    requires Fits(b, h)
  {
    if !h.Housekeeping? then s.failedAt == b.failedAt && s.gate == b.gate
    else
      && s.gate.lastProbe == (if Probes(b, h.x) then Some(h.x.now) else b.gate.lastProbe)
      && (s.failedAt.Some? <==> Dead(b, h.x))
      && (s.failedAt.Some? ==> s.failedAt.value == h.x.now || s.failedAt == b.failedAt)
  }

  lemma StepStamps(b: Bond, h: Happening)
    requires Fits(b, h)
    ensures Stamped(b, h, Happen(b, h))
  {
  }

  ghost predicate StampedRun(bs: seq<Bond>, hs: seq<Happening>) {
    && |bs| == |hs| + 1 && bs[0].failedAt.None?
    && (forall n | 0 <= n < |hs| :: Fits(bs[n], hs[n]) && Stamped(bs[n], hs[n], bs[n + 1]))
  }

  lemma RunIsStamped(bs: seq<Bond>, hs: seq<Happening>)
    requires History(bs, hs)
    ensures StampedRun(bs, hs)
  {
    forall n | 0 <= n < |hs|
      ensures Stamped(bs[n], hs[n], bs[n + 1])
    {
      StepStamps(bs[n], hs[n]);
    }
  }

  /** The failure stamp is the time of a tick since which no tick found a live uplink. */
  lemma {:induction false} StampStartsADeadRun(bs: seq<Bond>, hs: seq<Happening>, n: nat) returns (m: nat)
    requires StampedRun(bs, hs) && n <= |hs| && bs[n].failedAt.Some?
    ensures m < n && IsTick(bs, hs, m) && hs[m].x.now == bs[n].failedAt.value && DeadThroughout(bs, hs, m, n)
  {
    var b, h := bs[n - 1], hs[n - 1];
    assert Stamped(b, h, bs[n - 1 + 1]);
    if h.Housekeeping? && bs[n].failedAt.value == h.x.now {
      m := n - 1;
    } else {
      m := StampStartsADeadRun(bs, hs, n - 1);
    }
  }

  /** A re-home ends an unbroken run of dead ticks more than ten seconds long. */
  lemma RehomeFollowsDeadRun(bs: seq<Bond>, hs: seq<Happening>, n: nat) returns (m: nat)
    requires History(bs, hs) && IsTick(bs, hs, n) && Rehomes(bs[n], hs[n].x)
    ensures m < n && IsTick(bs, hs, m) && DeadThroughout(bs, hs, m, n + 1)
    ensures hs[n].x.now > hs[m].x.now + GLOBAL_TIMEOUT_MS
  {
    RehomeNeedsStamp(bs[n], hs[n].x);
    RunIsStamped(bs, hs);
    m := StampStartsADeadRun(bs, hs, n);
  }

  lemma RehomeNeedsStamp(b: Bond, x: TickInput)
    requires |x.links| == |b.links| && Rehomes(b, x)
    ensures Dead(b, x) && b.failedAt.Some? && x.now > b.failedAt.value + GLOBAL_TIMEOUT_MS
  {
  }

  /** The probe stamp is the latest tick that spent a slot. */
  lemma {:induction false} StampIsLatestProbe(bs: seq<Bond>, hs: seq<Happening>, m: nat, n: nat)
    requires StampedRun(bs, hs) && Ordered(hs) && m < n <= |hs| && IsTick(bs, hs, m) && Probes(bs[m], hs[m].x)
    ensures bs[n].gate.lastProbe.Some? && bs[n].gate.lastProbe.value >= hs[m].x.now
    decreases n
  {
    assert Stamped(bs[n - 1], hs[n - 1], bs[n - 1 + 1]);
    if m < n - 1 {
      StampIsLatestProbe(bs, hs, m, n - 1);
    }
  }

  /** Resolver lookups, and so re-homes, are at least a minute apart. */
  lemma ProbesAreSpaced(bs: seq<Bond>, hs: seq<Happening>, m: nat, n: nat)
    requires History(bs, hs) && Ordered(hs) && m < n && IsTick(bs, hs, m) && IsTick(bs, hs, n)
    requires Probes(bs[m], hs[m].x) && Probes(bs[n], hs[n].x)
    ensures hs[n].x.now >= hs[m].x.now + REHOME_MIN_INTERVAL_MS
  {
    RunIsStamped(bs, hs);
    StampIsLatestProbe(bs, hs, m, n);
  }

  /** Only a re-home changes a remote, and it moves every uplink to one address none of them was on. */
  lemma OnlyRehomeMovesRemotes(b: Bond, h: Happening)
    requires Fits(b, h) && |b.remotes| == |b.links|
    ensures Happen(b, h).remotes != b.remotes <==> h.Housekeeping? && Rehomes(b, h.x)
    ensures h.Housekeeping? && Rehomes(b, h.x) ==>
              exists to: Addr :: to !in b.remotes && Happen(b, h).remotes == seq(|b.remotes|, i => to)
  {
    if h.Housekeeping? && Rehomes(b, h.x) {
      var to := h.x.answer.value[0];
      assert Happen(b, h).remotes == seq(|b.remotes|, i => to);
      assert Happen(b, h).remotes[0] == to && b.remotes[0] != to;
    }
  }

  predicate OneAddress(remotes: seq<Addr>) {
    forall i, j | 0 <= i < j < |remotes| :: remotes[i] == remotes[j]
  }

  /** A bond that starts on one address is on one address after every step. */
  lemma {:induction false} BondIsNeverSplit(bs: seq<Bond>, hs: seq<Happening>, n: nat)
    requires History(bs, hs) && n <= |hs| && OneAddress(bs[0].remotes)
    ensures OneAddress(bs[n].remotes)
  {
    if n > 0 {
      BondIsNeverSplit(bs, hs, n - 1);
      InvOverRuns(bs, hs, n - 1);
      OnlyRehomeMovesRemotes(bs[n - 1], hs[n - 1]);
    }
  }
}
