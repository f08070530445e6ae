/**
 A fixed bond of uplinks over time: housekeeping ticks, received frames, failed
 flushes and whole-bond re-homes, in any interleaving.
 */
module Lifecycle {
  import opened Prelude
  import opened Links
  import Lv = Liveness
  import Rg = Registration
  import Tr = SequenceTracker

  const GLOBAL_TIMEOUT_MS: nat := 10_000
  const REHOME_MIN_INTERVAL_MS: nat := 60_000

  /** A receiver address. */
  type Addr = nat

  /** The opt-out switch and the probe stamp of the re-home rate limit. */
  datatype Gate = Gate(enabled: bool, lastProbe: Option<nat>)

  datatype Bond = Bond(
    reg: Rg.Reg,
    links: seq<Link>,
    remotes: seq<Addr>,
    ops: seq<Tr.Op>,
    failedAt: Option<nat>,
    gate: Gate)

  /** What the outside world decides about one link during a tick. */
  datatype LinkInput = LinkInput(rebuilt: bool, moved: bool, rising: bool, nakDegraded: bool, nakRecovered: bool)

  /** `clock` is the probing check's own clock read; `answer` is what the resolver says if it is asked. */
  datatype TickInput = TickInput(now: nat, clock: nat, classic: bool, links: seq<LinkInput>, answer: Option<seq<Addr>>)

  // ----- one tick, link by link -----

  predicate Renews(l: Link, now: nat) {
    l.life.TimedOut(now) && Lv.ShouldAttempt(l.life, now)
  }

  /** A reconnect attempt: a new socket and a reset, or plain recovery when the socket cannot be rebuilt. */
  function Renewed(l: Link, now: nat, rebuilt: bool): Link {
    var a := Links.Step(l, Life(Lv.Attempt(now)));
    Links.Step(a, if rebuilt then Reconnect(now) else Recovery)
  }

  /** The upkeep of a link that is not timed out. */
  function Maintained(l: Link, x: LinkInput, now: nat, classic: bool): Link {
    var w := if classic then l else Links.Step(l, WindowRecovery(x.rising, now));
    Links.Step(w, Life(Lv.PhaseTick(now, x.nakDegraded, x.nakRecovered, l.signals.lossDegraded)))
  }

  function VisitLink(l: Link, x: LinkInput, now: nat, classic: bool): Link {
    if Renews(l, now) then Renewed(l, now, x.rebuilt)
    else if l.life.TimedOut(now) then l
    else Maintained(l, x, now, classic)
  }

  function VisitReg(r: Rg.Reg, l: Link, i: nat, now: nat): Rg.Reg {
    if !Renews(l, now) then r
    else if r.pending == Some(i) then Rg.BuildReg1(r, i, now)
    else if r.pending.Some? then r
    else Rg.Arm(r, {i})
  }

  function SweepReg(r: Rg.Reg, links: seq<Link>, k: nat, now: nat): Rg.Reg
    requires k <= |links|
  {
    if k == 0 then r else VisitReg(SweepReg(r, links, k - 1, now), links[k - 1], k - 1, now)
  }

  function SweepOps(ops: seq<Tr.Op>, links: seq<Link>, k: nat, now: nat): seq<Tr.Op>
    requires k <= |links|
  {
    if k == 0 then ops else
    SweepOps(ops, links, k - 1, now) + if Renews(links[k - 1], now) then [Tr.Remove(links[k - 1].id)] else []
  }

  /** Registration packets a tick sends: to one uplink, or a REG2 to all. */
  datatype Packet = Reg1To(link: nat) | Reg2To(link: nat) | Reg2ToAll | ProbeTo(link: nat)

  function VisitSends(r: Rg.Reg, l: Link, i: nat, now: nat): seq<Packet> {
    if !Renews(l, now) then []
    else if r.pending == Some(i) then [Reg1To(i)]
    else if r.pending.Some? then []
    else [Reg2To(i)]
  }

  function SweepSends(r: Rg.Reg, links: seq<Link>, k: nat, now: nat): seq<Packet>
    requires k <= |links|
  {
    if k == 0 then [] else
    SweepSends(r, links, k - 1, now) + VisitSends(SweepReg(r, links, k - 1, now), links[k - 1], k - 1, now)
  }

  function DriverSends(s: Rg.Sends): seq<Packet> {
    (if s.reg1.Some? then [Reg1To(s.reg1.value)] else []) + if s.reg2 then [Reg2ToAll] else []
  }

  function SweepLinks(links: seq<Link>, x: TickInput): (s: seq<Link>)
    requires |x.links| == |links|
    ensures |s| == |links|
  {
    seq(|links|, i requires 0 <= i < |links| => VisitLink(links[i], x.links[i], x.now, x.classic))
  }

  function Flags(links: seq<Link>): (s: seq<bool>)
    ensures |s| == |links|
  {
    seq(|links|, i requires 0 <= i < |links| => links[i].life.connected)
  }

  predicate IsProbing(r: Rg.Reg) {
    r.probing.Started? || r.probing.Waiting?
  }

  /** The manager after its timers, before the links are visited. */
  function Timed(r: Rg.Reg, x: TickInput): Rg.Reg {
    var e := Rg.Expire(r, x.now);
    if IsProbing(e) then Rg.CheckProbing(e, x.clock) else e
  }

  /** Completing the probe restarts the grace period of the uplink it selected. */
  function Graced(before: Rg.Reg, links: seq<Link>, x: TickInput): (s: seq<Link>)
    ensures |s| == |links|
  {
    var r := Timed(before, x);
    if IsProbing(before) && !IsProbing(r) && r.target.Some? && r.target.value < |links| then
      links[r.target.value := Links.Step(links[r.target.value], Life(Lv.Grace(x.now)))]
    else links
  }

  /** The part of a bond a tick works on before it counts the live uplinks. */
  datatype Progress = Progress(links: seq<Link>, reg: Rg.Reg, ops: seq<Tr.Op>)

  function AfterTimers(p: Progress, x: TickInput): (q: Progress)
    ensures |q.links| == |p.links|
  {
    Progress(Graced(p.reg, p.links, x), Timed(p.reg, x), p.ops)
  }

  function AfterSweep(p: Progress, x: TickInput): (q: Progress)
    requires |x.links| == |p.links|
    ensures |q.links| == |p.links|
  {
    Progress(SweepLinks(p.links, x), SweepReg(p.reg, p.links, |p.links|, x.now),
             SweepOps(p.ops, p.links, |p.links|, x.now))
  }

  function AfterDriver(p: Progress, now: nat): (q: Progress)
    ensures |q.links| == |p.links|
  {
    p.(reg := Rg.Drive(Rg.Snapshot(p.reg, Flags(p.links)), |p.links|, now).0)
  }

  /** The bond after the timers, the sweep and the registration driver. */
  function Swept(b: Bond, x: TickInput): (s: Bond)
    requires |x.links| == |b.links|
    ensures |s.links| == |b.links|
  {
    var p := AfterDriver(AfterSweep(AfterTimers(Progress(b.links, b.reg, b.ops), x), x), x.now);
    b.(links := p.links, reg := p.reg, ops := p.ops)
  }

  // ----- the all-failed timer and the re-home -----

  predicate AllDown(links: seq<Link>, now: nat) {
    forall l | l in links :: l.life.TimedOut(now)
  }

  function FailedSince(failedAt: Option<nat>, now: nat): nat {
    if failedAt.Some? then failedAt.value else now
  }

  predicate MayClaim(g: Gate, now: nat) {
    g.enabled && (g.lastProbe.Some? ==> SatSub(now, g.lastProbe.value) >= REHOME_MIN_INTERVAL_MS)
  }

  predicate Drifted(cached: Addr, found: seq<Addr>) {
    found != [] && cached !in found
  }

  /** The name answers, and with none of the addresses in use. */
  predicate ReceiverMoved(current: seq<Addr>, found: seq<Addr>): (moved: bool)
    ensures moved ==> found != [] && found[0] !in current
  {
    current != [] && Drifted(current[0], found) && forall a | a in current :: Drifted(a, found)
  }

  /** The bond has been down for longer than the global timeout. */
  predicate Overdue(b: Bond, now: nat) {
    AllDown(b.links, now) && SatSub(now, FailedSince(b.failedAt, now)) > GLOBAL_TIMEOUT_MS
  }

  predicate SpendsProbe(b: Bond, now: nat) {
    Overdue(b, now) && b.remotes != [] && MayClaim(b.gate, now)
  }

  predicate Relocates(b: Bond, x: TickInput) {
    SpendsProbe(b, x.now) && x.answer.Some? && ReceiverMoved(b.remotes, x.answer.value)
  }

  function ResetLink(l: Link, x: LinkInput, now: nat): Link {
    Links.Step(l, if x.moved then Reconnect(now) else Recovery)
  }

  /** Reset, then probed, which restarts its grace period. */
  function MovedLink(l: Link, x: LinkInput, now: nat): Link {
    Links.Step(ResetLink(l, x, now), Life(Lv.Grace(now)))
  }

  function Removals(links: seq<Link>): (s: seq<Tr.Op>)
    ensures |s| == |links|
  {
    seq(|links|, i requires 0 <= i < |links| => Tr.Remove(links[i].id))
  }

  function MovedLinks(links: seq<Link>, x: TickInput): (s: seq<Link>)
    requires |x.links| == |links|
    ensures |s| == |links|
  {
    seq(|links|, i requires 0 <= i < |links| => MovedLink(links[i], x.links[i], x.now))
  }

  /** Every uplink to one address, every link reset, registration from scratch. */
  function Moved(b: Bond, to: Addr, x: TickInput): (s: Bond)
    requires |x.links| == |b.links|
    ensures |s.links| == |b.links|
  {
    var n := |b.links|;
    b.(remotes := seq(|b.remotes|, i => to),
       links := MovedLinks(b.links, x),
       ops := b.ops + Removals(b.links),
       reg := Rg.StartProbing(Rg.ResetForRehome(b.reg), n, x.now))
  }

  /** The end of a tick: the all-failed timer, and the re-home it may lead to. */
  function Settled(b: Bond, x: TickInput): (s: Bond)
    requires |x.links| == |b.links|
    ensures |s.links| == |b.links|
  {
    if !AllDown(b.links, x.now) then b.(failedAt := None)
    else
      var g := if SpendsProbe(b, x.now) then b.gate.(lastProbe := Some(x.now)) else b.gate;
      if Relocates(b, x) then Moved(b, x.answer.value[0], x).(failedAt := Some(x.now), gate := g)
      else b.(failedAt := Some(FailedSince(b.failedAt, x.now)), gate := g)
  }

  function Tick(b: Bond, x: TickInput): (s: Bond)
    requires |x.links| == |b.links|
    ensures |s.links| == |b.links|
  {
    Settled(Swept(b, x), x)
  }

  /** Everything about registration the tick sends, in order; a re-home probes every uplink. */
  function TickSends(b: Bond, x: TickInput): seq<Packet>
    requires |x.links| == |b.links|
  {
    var p := AfterTimers(Progress(b.links, b.reg, b.ops), x);
    var q := AfterSweep(p, x);
    var n := |b.links|;
    SweepSends(p.reg, p.links, n, x.now)
    + DriverSends(Rg.Drive(Rg.Snapshot(q.reg, Flags(q.links)), n, x.now).1)
    + if Relocates(Swept(b, x), x) then seq(n, i requires 0 <= i => ProbeTo(i)) else []
  }

  /** No uplink is live after this tick's sweep. */
  predicate Dead(b: Bond, x: TickInput)
    requires |x.links| == |b.links|
  {
    AllDown(Swept(b, x).links, x.now)
  }

  predicate Probes(b: Bond, x: TickInput)
    requires |x.links| == |b.links|
  {
    SpendsProbe(Swept(b, x), x.now)
  }

  predicate Rehomes(b: Bond, x: TickInput)
    requires |x.links| == |b.links|
  {
    Relocates(Swept(b, x), x)
  }

  /** The tick reports the bond unrecoverable. */
  predicate GivesUp(b: Bond, x: TickInput)
    requires |x.links| == |b.links|
  {
    Overdue(Swept(b, x), x.now) && !Rehomes(b, x)
  }

  // ----- received frames -----

  datatype Frame = Ngp | Reg2(whole: bool) | Reg3 | RegErr | Other

  function FrameReg(r: Rg.Reg, i: nat, now: nat, f: Frame): Rg.Reg {
    match f
    case Ngp =>
      var q := Rg.OnNgp(r, i, now);
      if Rg.Immediate(q, i, now) then Rg.BuildReg1(q, i, now) else q
    case Reg2(whole) => Rg.OnReg2(r, i, whole, now)
    case Reg3 => Rg.OnReg3(r, i)
    case RegErr => Rg.OnRegErr(r, i, now)
    case Other => r
  }

  /** A REG3 or REG_ERR out of phase counts as any other datagram. */
  function FrameLink(r: Rg.Reg, l: Link, i: nat, now: nat, f: Frame): Link {
    match f
    case Ngp => l
    case Reg2(_) => l
    case Reg3 => Links.Step(l, if i in r.awaiting then Event.Reg3(now) else Life(Lv.Datagram(now)))
    case RegErr => Links.Step(l, Life(if Rg.ErrInPhase(r, i) then Lv.RegErr else Lv.Datagram(now)))
    case Other => Links.Step(l, Life(Lv.Datagram(now)))
  }

  function OnFrame(b: Bond, i: nat, now: nat, f: Frame): Bond
    requires i < |b.links|
  {
    b.(reg := FrameReg(b.reg, i, now, f), links := b.links[i := FrameLink(b.reg, b.links[i], i, now, f)])
  }

  // ----- steps and runs -----

  datatype Happening =
    | Housekeeping(x: TickInput)
    | Received(i: nat, now: nat, frame: Frame)
    | Traffic(i: nat, e: Event)
    | FlushFailed(i: nat)

  predicate ReadsClock(h: Happening) {
    h.Housekeeping? || h.Received?
  }

  /** When a step happens; the data path and failed flushes do not read the clock here. */
  function TimeOf(h: Happening): nat {
    match h
    case Housekeeping(x) => x.now
    case Received(_, now, _) => now
    case _ => 0
  }

  /** Events of the data path: none of them registers, resets or receives. */
  predicate OnDataPath(e: Event) {
    && !e.Reg3? && !e.Recovery? && !e.Reconnect?
    && (e.Life? ==> e.life.RttProbe? || e.life.Retime?)
  }

  predicate Fits(b: Bond, h: Happening) {
    match h
    case Housekeeping(x) => |x.links| == |b.links|
    case Received(i, now, _) => i < |b.links| && now > 0
    case Traffic(i, e) => i < |b.links| && Legal(e) && OnDataPath(e)
    case FlushFailed(i) => i < |b.links|
  }

  function Happen(b: Bond, h: Happening): (s: Bond)
    requires Fits(b, h)
    ensures |s.links| == |b.links|
  {
    match h
    case Housekeeping(x) => Tick(b, x)
    case Received(i, now, f) => OnFrame(b, i, now, f)
    case Traffic(i, e) =>
      b.(links := b.links[i := Links.Step(b.links[i], e)],
         ops := if e.Queue? && e.q.Tracked? then b.ops + [Tr.Insert(e.q.seqNo, b.links[i].id, e.q.at)] else b.ops)
    case FlushFailed(i) =>
      b.(links := b.links[i := Links.Step(b.links[i], Recovery)], ops := b.ops + [Tr.Remove(b.links[i].id)])
  }

  /** A link just created and probed. */
  ghost predicate Opened(l: Link) {
    exists id, at, s: Signals, now | s.smoothRtt >= 0.0 :: l == Links.Step(NewLink(id, at, s), Life(Lv.Grace(now)))
  }

  ghost predicate Opening(b: Bond) {
    && |b.remotes| == |b.links|
    && (forall i | 0 <= i < |b.links| :: Opened(b.links[i]))
    && (exists now :: b.reg == Rg.StartProbing(Rg.FRESH, |b.links|, now))
    && b.failedAt.None? && b.gate.lastProbe.None?
  }

  ghost predicate History(bs: seq<Bond>, hs: seq<Happening>) {
    && |bs| == |hs| + 1
    && Opening(bs[0])
    && (forall n | 0 <= n < |hs| :: Fits(bs[n], hs[n]) && bs[n + 1] == Happen(bs[n], hs[n]))
  }

  // ----- the registration invariant -----

  predicate NoLiveGrant(r: Rg.Reg, links: seq<Link>) {
    forall i | 0 <= i < |links| && links[i].life.connected :: i !in r.awaiting
  }

  /** The manager is sound and no connected uplink holds a REG3 grant. */
  predicate Inv(b: Bond) {
    |b.remotes| == |b.links| && Rg.Sound(b.reg, |b.links|) && NoLiveGrant(b.reg, b.links)
  }

  /** Sweeping arms only uplinks that were just reset, and leaves an empty slot empty. */
  lemma {:induction false} SweepKeepsSound(r: Rg.Reg, links: seq<Link>, k: nat, now: nat)
    requires k <= |links| && Rg.Sound(r, |links|)
    ensures var s := SweepReg(r, links, k, now);
            Rg.Sound(s, |links|)
            && (forall i: nat :: i in s.awaiting ==> i in r.awaiting || (i < k && Renews(links[i], now)))
            && (s.pending.None? <==> r.pending.None?)
            && (r.pending.None? ==> forall i: nat :: i < k && Renews(links[i], now) ==> i in s.awaiting)
  {
    if k > 0 {
      SweepKeepsSound(r, links, k - 1, now);
      Rg.RetriesKeepSound(SweepReg(r, links, k - 1, now), |links|, k - 1, now);
    }
  }

  lemma TimedKeepsSound(r: Rg.Reg, n: nat, x: TickInput)
    requires Rg.Sound(r, n)
    ensures Rg.Sound(Timed(r, x), n) && Timed(r, x).awaiting == r.awaiting
  {
    Rg.TimersKeepSound(r, n, x.now);
    Rg.TimersKeepSound(Rg.Expire(r, x.now), n, x.clock);
  }

  /** A link that connects or stays connected through a visit was connected before it, and was not renewed. */
  lemma VisitNeverConnects(l: Link, x: LinkInput, now: nat, classic: bool)
    requires VisitLink(l, x, now, classic).life.connected
    ensures l.life.connected && !Renews(l, now)
  {
  }

  lemma SweptKeepsInv(b: Bond, x: TickInput)
    requires Inv(b) && |x.links| == |b.links|
    ensures Inv(Swept(b, x))
  {
    var n, ls, t := |b.links|, Graced(b.reg, b.links, x), Timed(b.reg, x);
    TimedKeepsSound(b.reg, n, x);
    SweepKeepsSound(t, ls, n, x.now);
    var after, r := SweepLinks(ls, x), SweepReg(t, ls, n, x.now);
    forall i | 0 <= i < n && after[i].life.connected
      ensures i !in r.awaiting
    {
      VisitNeverConnects(ls[i], x.links[i], x.now, x.classic);
      assert b.links[i].life.connected;
    }
    DriveSparesConnected(r, after, x.now);
  }

  /** The driver broadcasts against a snapshot taken just before, so it arms no connected uplink. */
  lemma DriveSparesConnected(r: Rg.Reg, links: seq<Link>, now: nat)
    requires Rg.Sound(r, |links|) && NoLiveGrant(r, links)
    ensures var d := Rg.Drive(Rg.Snapshot(r, Flags(links)), |links|, now).0;
            Rg.Sound(d, |links|) && NoLiveGrant(d, links)
  {
    Rg.TimersKeepSound(Rg.Snapshot(r, Flags(links)), |links|, now);
  }

  lemma MovedKeepsInv(b: Bond, to: Addr, x: TickInput)
    requires Inv(b) && |x.links| == |b.links|
    ensures Inv(Moved(b, to, x))
  {
    Rg.RestartKeepsSound(b.reg, |b.links|, x.now);
  }

  /** A link may change freely as long as it does not become connected, or holds no grant afterwards. */
  lemma ChangeKeepsInv(b: Bond, i: nat, l: Link, r: Rg.Reg)
    requires Inv(b) && i < |b.links| && Rg.Sound(r, |b.links|)
    requires r.awaiting <= b.reg.awaiting && (l.life.connected ==> b.links[i].life.connected || i !in r.awaiting)
    ensures Inv(b.(links := b.links[i := l], reg := r))
  {
  }

  lemma FrameKeepsInv(b: Bond, i: nat, now: nat, f: Frame)
    requires Inv(b) && i < |b.links|
    ensures Inv(OnFrame(b, i, now, f))
  {
    var n := |b.links|;
    assert Rg.Sound(FrameReg(b.reg, i, now, f), n) by {
      Rg.NgpKeepsSound(b.reg, n, i, now);
      Rg.NgpKeepsSound(Rg.OnNgp(b.reg, i, now), n, i, now);
      Rg.RepliesKeepSound(b.reg, n, i, f.Reg2? && f.whole, now);
    }
    ChangeKeepsInv(b, i, FrameLink(b.reg, b.links[i], i, now, f), FrameReg(b.reg, i, now, f));
  }

  lemma TickKeepsInv(b: Bond, x: TickInput)
    requires Inv(b) && |x.links| == |b.links|
    ensures Inv(Tick(b, x))
  {
    SweptKeepsInv(b, x);
    if Rehomes(b, x) {
      MovedKeepsInv(Swept(b, x), x.answer.value[0], x);
    }
  }

  lemma StepKeepsInv(b: Bond, h: Happening)
    requires Inv(b) && Fits(b, h)
    ensures Inv(Happen(b, h))
  {
    match h {
      case Housekeeping(x) => TickKeepsInv(b, x);
      case Received(i, now, f) => FrameKeepsInv(b, i, now, f);
      case Traffic(i, e) => ChangeKeepsInv(b, i, Links.Step(b.links[i], e), b.reg);
      case FlushFailed(i) => ChangeKeepsInv(b, i, Links.Step(b.links[i], Recovery), b.reg);
    }
  }

  lemma {:induction false} InvOverRuns(bs: seq<Bond>, hs: seq<Happening>, n: nat)
    requires History(bs, hs) && n <= |hs|
    ensures Inv(bs[n]) && |bs[n].links| == |bs[0].links|
  {
    if n == 0 {
      var b := bs[0];
      var now :| b.reg == Rg.StartProbing(Rg.FRESH, |b.links|, now);
    } else {
      InvOverRuns(bs, hs, n - 1);
      StepKeepsInv(bs[n - 1], hs[n - 1]);
    }
  }
}
