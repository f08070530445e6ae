/** One bonded link as the scheduler sees it: its records side by side, and the pure reads over them. */
module Links {
  import opened Prelude
  import Lv = Liveness
  import Fl = Flow
  import Cg = Congestion
  import Serial
  import St = Stall
  import Cl = Classifier

  const I32_MAX: int := 0x7FFF_FFFF
  const ASSUMED_PAYLOAD_BYTES := 1316.0
  const CAP_BDP_MULT := 1.5
  const SOFT_CAP_FLOOR := 0.10
  const HELD_OUT_RAMP_MS: nat := 2000
  const QUALITY_CACHE_MS: nat := 50

  function CapacityScore(window: int, load: int): int {
    window / Max(Min(Min(load, I32_MAX) + 1, I32_MAX), 1)
  }

  /** In-flight cap as a bandwidth-delay product with headroom; absent without a rate signal. */
  function CapPackets(ccTargetBps: nat, rttMin: real): Option<int> {
    if ccTargetBps == 0 then None else
    var rtt := if rttMin > 0.0 then rttMin else 1.0;
    var bdp := ccTargetBps as real * (rtt / 1000.0) / 8.0 * CAP_BDP_MULT;
    Some(Min(Max((bdp / ASSUMED_PAYLOAD_BYTES).Floor, 1), I32_MAX))
  }

  predicate CapExceededBy(ccTargetBps: nat, rttMin: real, inFlight: int) {
    CapPackets(ccTargetBps, rttMin).Some? && inFlight > CapPackets(ccTargetBps, rttMin).value
  }

  function SoftCapMultiplier(ccTargetBps: nat, bitrateBps: real): real {
    if ccTargetBps == 0 || bitrateBps <= 0.0 then 1.0 else
    var cap := ccTargetBps as real;
    RMin(RMax(RMax(cap - bitrateBps, 0.0) / cap, SOFT_CAP_FLOOR), 1.0)
  }

  /** Sole-carrier role fields; a zero stamp means "never". */
  datatype Role = Role(carrier: bool, sinceMs: nat, excluded: bool, elections: nat)

  const NO_ROLE := Role(false, 0, false, 0)

  datatype Quality = Quality(multiplier: real, calculatedMs: nat)

  /** Signals other components stamp on the link; arbitrary inputs here. */
  datatype Signals = Signals(
    weak: bool,
    weakReason: Cl.WeakReason,
    lossDegraded: bool,
    smoothRtt: real,
    rttMin: real,
    ccTargetBps: nat,
    bitrateBps: real,
    weight: nat)

  datatype Link = Link(
    id: nat,
    life: Lv.Life,
    account: Fl.Account,
    guard: St.Guard,
    ramp: St.Ramp,
    role: Role,
    excluded: bool,
    budgetMs: nat,
    quality: Quality,
    signals: Signals)
  {
    /** Schedulable and not timed out. */
    predicate Usable(now: nat) {
      !life.TimedOut(now) && life.Schedulable()
    }

    /** Usable and not stall-gated. */
    predicate Candidate(now: nat) {
      Usable(now) && !guard.gated
    }

    /** A link whose packets would hold up the receiver: lossy, or weak for a delay reason. */
    predicate Late() {
      signals.lossDegraded || (signals.weak && signals.weakReason.IsDelay())
    }

    predicate QualityOk() {
      !signals.weak && !signals.lossDegraded
    }

    /** `window / (in flight + queued + 1)`, or -1 when not connected. */
    function Score(): int {
      if life.connected then CapacityScore(account.cwnd.window, account.inFlight + |account.queue|) else -1
    }

    predicate CapExceeded() {
      CapExceededBy(signals.ccTargetBps, signals.rttMin, account.inFlight)
    }

    function SoftCap(): real {
      SoftCapMultiplier(signals.ccTargetBps, signals.bitrateBps)
    }

    function Reading(): St.Reading {
      St.Reading(life.connected, account.inFlight, life.lastReceived, account.lastProofMs, signals.smoothRtt, budgetMs)
    }
  }

  function NewLink(id: nat, now: nat, signals: Signals): Link {
    Link(id, Lv.NewRegistering(now), Fl.COLD, St.CLEAR, St.NO_RAMP, NO_ROLE, false, 0, Quality(1.0, 0), signals)
  }

  // ----- resets -----

  /** The state every reset drops, whatever kind of reset it is. */
  function ResetCommon(l: Link): Link {
    l.(guard := St.ResetGuard(l.guard), ramp := St.NO_RAMP, role := NO_ROLE.(elections := l.role.elections))
  }

  function MarkForRecovery(l: Link): Link {
    ResetCommon(l).(life := Lv.MarkForRecovery(l.life), account := Fl.ResetCore(l.account))
  }

  function ResetForReconnect(l: Link, now: nat): Link {
    ResetCommon(l).(life := Lv.ResetForReconnect(l.life, now), account := Fl.ResetForReconnect(l.account))
  }

  function OnReg3(l: Link, now: nat): Link {
    l.(life := Lv.OnReg3(l.life, now), account := Fl.ClearPreRegistration(l.account), quality := Quality(1.0, 0))
  }

  function ArmRamp(l: Link, now: nat): Link {
    l.(ramp := St.ArmRamp(l.ramp, now, HELD_OUT_RAMP_MS, false))
  }

  // ----- a link on its own, over any run -----

  /** Everything that happens to one link, selection's own bookkeeping included as arbitrary values. */
  datatype Event =
    | Life(life: Lv.Event)
    | Reg3(now: nat)
    | Recovery
    | Reconnect(now: nat)
    | Queue(q: Fl.Queued)
    | Probe(seqNo: int, at: nat)
    | Flush
    | SrtAck(ack: int, now: nat, owns: bool)
    | SrtlaAck(seqNo: int, classic: bool, now: nat)
    | GlobalAck
    | Nak(seqNo: int, now: nat)
    | KeepaliveSent(now: nat)
    | KeepaliveEcho(stamp: Option<nat>, now: nat)
    | WindowRecovery(rising: bool, now: nat)
    | Stamp(signals: Signals)
    | Bookkeep(guard: St.Guard, ramp: St.Ramp, role: Role, excluded: bool, budgetMs: nat, quality: Quality)

  function Step(l: Link, e: Event): Link {
    match e
    case Life(v) => l.(life := Lv.Step(l.life, v))
    case Reg3(now) => OnReg3(l, now)
    case Recovery => MarkForRecovery(l)
    case Reconnect(now) =>
      var r := ResetForReconnect(l, now);
      r.(life := Lv.ArmGrace(r.life, now))
    case Queue(q) => l.(account := Fl.Enqueue(l.account, q))
    case Probe(s, t) => l.(account := Fl.QueueProbe(l.account, s, t))
    case Flush => l.(account := Fl.TakeBatch(l.account))
    case SrtAck(a, now, owns) => l.(account := Fl.SrtAck(l.account, a, now, owns))
    case SrtlaAck(s, c, now) => l.(account := Fl.SrtlaAck(l.account, s, c, now))
    case GlobalAck => l.(account := Fl.GlobalAck(l.account, l.life.connected && l.life.lastReceived.Some?))
    case Nak(s, now) => l.(account := Fl.Nak(l.account, s, now))
    case KeepaliveSent(now) => l.(account := Fl.KeepaliveSent(l.account, now))
    case KeepaliveEcho(t, now) => l.(account := Fl.KeepaliveEcho(l.account, t, now))
    case WindowRecovery(r, now) => l.(account := Fl.RecoverWindow(l.account, l.life.connected, r, now))
    case Stamp(s) => l.(signals := s)
    case Bookkeep(g, p, r, x, b, q) => l.(guard := g, ramp := p, role := r, excluded := x, budgetMs := b, quality := q)
  }

  /** What the clock, the packet headers and the estimators guarantee of an event. */
  predicate Legal(e: Event) {
    match e
    case Life(v) => v.Reg3? ==> v.now > 0
    case Reg3(now) => now > 0
    case Queue(q) => q.Tracked? ==> 0 <= q.seqNo < 0x8000_0000
    case Stamp(s) => s.smoothRtt >= 0.0
    case Bookkeep(_, _, _, _, _, q) => q.multiplier > 0.0
    case _ => true
  }

  /** Holds of every link in every reachable state. */
  predicate Healthy(l: Link) {
    && Lv.NoLimbo(l.life)
    && Fl.Sound(l.account)
    && l.quality.multiplier > 0.0
    && l.signals.smoothRtt >= 0.0
  }

  lemma AccountStepSound(l: Link, e: Event)
    requires Healthy(l) && Legal(e)
    ensures Fl.Sound(Step(l, e).account)
  {
    match e {
      case Probe(s, t) => Fl.RecordProbeBounded(l.account.probes, s, t);
      case Flush => Fl.RegisterAllSound(l.account.(queue := []), l.account.queue);
      case SrtAck(a, now, owns) => Fl.SrtAckSound(l.account, a, now, owns);
      case SrtlaAck(s, c, now) => Fl.SrtlaAckSound(l.account, s, c, now);
      case _ =>
    }
  }

  lemma StepKeepsHealthy(l: Link, e: Event)
    requires Healthy(l) && Legal(e)
    ensures Healthy(Step(l, e))
  {
    AccountStepSound(l, e);
  }

  ghost predicate Run(ls: seq<Link>, es: seq<Event>) {
    && |ls| == |es| + 1
    && (exists id, now, s: Signals | s.smoothRtt >= 0.0 :: ls[0] == NewLink(id, now, s))
    && (forall n | 0 <= n < |es| :: Legal(es[n]) && ls[n + 1] == Step(ls[n], es[n]))
  }

  /** Every link in every run keeps its window in 1000..60000, its counts honest, and stays out of limbo. */
  lemma {:induction false} RunsStayHealthy(ls: seq<Link>, es: seq<Event>, n: nat)
    requires Run(ls, es) && n <= |es|
    ensures Healthy(ls[n])
  {
    if n > 0 {
      RunsStayHealthy(ls, es, n - 1);
      StepKeepsHealthy(ls[n - 1], es[n - 1]);
    }
  }

  /** Some run ends in this state. */
  ghost predicate Reachable(l: Link) {
    exists ls, es :: Run(ls, es) && ls[|es|] == l
  }

  lemma ReachableIsHealthy(l: Link)
    requires Reachable(l)
    ensures Healthy(l)
  {
    var ls, es :| Run(ls, es) && ls[|es|] == l;
    RunsStayHealthy(ls, es, |es|);
  }

  /** One more legal event from a reachable state is reachable. */
  lemma ReachableStep(l: Link, e: Event)
    requires Reachable(l) && Legal(e)
    ensures Reachable(Step(l, e))
  {
    var ls, es :| Run(ls, es) && ls[|es|] == l;
    RunContinues(ls, es, e);
    var ls', es' := ls + [Step(l, e)], es + [e];
    assert Run(ls', es') && ls'[|es'|] == Step(l, e);
  }

  // ----- the window over a run -----

  /** What an event is to the congestion window, if anything. */
  function WindowEvent(l: Link, e: Event): Option<Cg.Event> {
    match e
    case Reg3(_) => Some(Cg.Registered)
    case Recovery => Some(Cg.SoftReset)
    case Reconnect(_) => Some(Cg.Restart)
    case SrtlaAck(s, classic, _) =>
      if s !in l.account.probes && s in l.account.packets then Some(Cg.EarnedAck(|l.account.packets - {s}|, classic))
      else None
    case GlobalAck => if l.life.connected && l.life.lastReceived.Some? then Some(Cg.GlobalAck) else None
    case Nak(s, now) => if s in l.account.packets then Some(Cg.Nak(now)) else None
    case WindowRecovery(rising, now) => Some(Cg.Recovery(l.life.connected, rising, now))
    case _ => None
  }

  predicate Follows(w: Cg.Cwnd, e: Option<Cg.Event>, w': Cg.Cwnd) {
    w' == if e.Some? then Cg.Step(w, e.value) else w
  }

  /** Event `e` moves the window as its window event says, or not at all. */
  predicate MovesWindow(l: Link, e: Event, w: Option<Cg.Event>) {
    Follows(l.account.cwnd, w, Step(l, e).account.cwnd)
  }

  lemma EarnedAckOfWindow(l: Link, s: int, classic: bool, now: nat)
    ensures MovesWindow(l, SrtlaAck(s, classic, now), WindowEvent(l, SrtlaAck(s, classic, now)))
  {
    Fl.SrtlaAckMovesWindow(l.account, s, classic, now);
  }

  lemma NakOfWindow(l: Link, s: int, now: nat)
    ensures MovesWindow(l, Nak(s, now), WindowEvent(l, Nak(s, now)))
  {
    var b := Fl.Nak(l.account, s, now);
    assert b.cwnd == if s in l.account.packets then Cg.Step(l.account.cwnd, Cg.Nak(now)) else l.account.cwnd;
  }

  lemma ResetOfWindow(l: Link, e: Event)
    requires e.Reg3? || e.Recovery? || e.Reconnect? || e.WindowRecovery?
    ensures MovesWindow(l, e, WindowEvent(l, e))
  {
  }

  lemma FlushLeavesWindow(l: Link)
    ensures MovesWindow(l, Flush, None)
  {
    Fl.RegisterAllFrame(l.account.(queue := []), l.account.queue);
  }

  /** Every event of a link is a step of its window or leaves the window alone. */
  lemma StepOfWindow(l: Link, e: Event)
    ensures MovesWindow(l, e, WindowEvent(l, e))
  {
    match e {
      case SrtlaAck(s, classic, now) => EarnedAckOfWindow(l, s, classic, now);
      case Nak(s, now) => NakOfWindow(l, s, now);
      case Reg3(_) => ResetOfWindow(l, e);
      case Recovery => ResetOfWindow(l, e);
      case Reconnect(_) => ResetOfWindow(l, e);
      case WindowRecovery(_, _) => ResetOfWindow(l, e);
      case Flush => FlushLeavesWindow(l);
      case _ =>
    }
  }

  function WindowEvents(ls: seq<Link>, es: seq<Event>, n: nat): seq<Cg.Event>
    requires n <= |es| <= |ls|
  {
    if n == 0 then [] else
    var w := WindowEvent(ls[n - 1], es[n - 1]);
    WindowEvents(ls, es, n - 1) + if w.Some? then [w.value] else []
  }

  /**
   The window of a link over any run is a run of window events from a fresh window, so
   it loses at most 100 per charged NAK between the resets that start it over.
   */
  lemma WindowIsARun(ls: seq<Link>, es: seq<Event>, n: nat)
    requires Run(ls, es) && n <= |es|
    ensures var ws := WindowEvents(ls, es, n);
            ls[n].account.cwnd == Cg.Run(Cg.START, ws)
            && (Cg.NoRestart(ws) ==> ls[n].account.cwnd.window >= Cg.WINDOW_START - Cg.WINDOW_DECR * Cg.Naks(ws))
  {
    forall k | 0 <= k < |es|
      ensures Follows(ls[k].account.cwnd, WindowEvent(ls[k], es[k]), ls[k + 1].account.cwnd)
    {
      StepOfWindow(ls[k], es[k]);
    }
    WindowsFollow(ls, es, n);
    Cg.WindowOverRuns(Cg.START, WindowEvents(ls, es, n));
  }

  lemma {:induction false} WindowsFollow(ls: seq<Link>, es: seq<Event>, n: nat)
    requires |ls| == |es| + 1 && n <= |es| && ls[0].account.cwnd == Cg.START
    requires forall k | 0 <= k < |es| :: Follows(ls[k].account.cwnd, WindowEvent(ls[k], es[k]), ls[k + 1].account.cwnd)
    ensures ls[n].account.cwnd == Cg.Run(Cg.START, WindowEvents(ls, es, n))
  {
    if n > 0 {
      WindowsFollow(ls, es, n - 1);
      var ws, p := WindowEvents(ls, es, n), WindowEvents(ls, es, n - 1);
      var w := WindowEvent(ls[n - 1], es[n - 1]);
      assert Follows(ls[n - 1].account.cwnd, w, ls[n - 1 + 1].account.cwnd);
      if w.Some? {
        assert ws == p + [w.value] && ws[..|ws| - 1] == p;
        assert Cg.Run(Cg.START, ws) == Cg.Step(Cg.Run(Cg.START, p), w.value);
      } else {
        assert ws == p;
      }
    }
  }

  /** The link meets an event that carries its window past 12000 with fast recovery still on. */
  predicate Slips(l: Link, e: Event) {
    var w := l.account.cwnd.window;
    && l.account.cwnd.control.fastRecovery
    && match e
       case Recovery => true
       case GlobalAck => l.life.connected && l.life.lastReceived.Some? && w == 11999
       case SrtlaAck(s, classic, _) =>
         && classic && s !in l.account.probes && s in l.account.packets
         && |l.account.packets - {s}| * 1000 > w && w >= 11971
       case _ => false
  }

  lemma SlipsAsWindow(l: Link, e: Event)
    ensures Slips(l, e) <==> WindowEvent(l, e).Some? && Cg.Slips(l.account.cwnd, WindowEvent(l, e).value)
  {
  }

  lemma TameAfter(w: Cg.Cwnd, e: Option<Cg.Event>, w': Cg.Cwnd)
    requires Cg.InRange(w.window) && Cg.Tame(w) && Follows(w, e, w')
    ensures Cg.Tame(w') <==> !(e.Some? && Cg.Slips(w, e.value))
  {
    if e.Some? {
      Cg.StepStaysTameIff(w, e.value);
    }
  }

  lemma StepStaysTameIff(l: Link, e: Event)
    requires Healthy(l) && Cg.Tame(l.account.cwnd)
    ensures Cg.Tame(Step(l, e).account.cwnd) <==> !Slips(l, e)
  {
    StepOfWindow(l, e);
    SlipsAsWindow(l, e);
    TameAfter(l.account.cwnd, WindowEvent(l, e), Step(l, e).account.cwnd);
  }

  /**
   Over any run of a link, fast recovery keeps the window below 12000 throughout if and
   only if no event slips: no recovery in the mode, no global ACK at 11999, and no
   classic earned ACK that grows a window of 11971 or more.
   */
  lemma ModeBoundsWindowIff(ls: seq<Link>, es: seq<Event>, n: nat)
    requires Run(ls, es) && n <= |es|
    ensures (forall k | 0 <= k <= n :: Cg.Tame(ls[k].account.cwnd)) <==> (forall k | 0 <= k < n :: !Slips(ls[k], es[k]))
  {
    forall k | 0 <= k < |es|
      ensures Cg.Tame(ls[k].account.cwnd) ==> (Cg.Tame(ls[k + 1].account.cwnd) <==> !Slips(ls[k], es[k]))
    {
      RunsStayHealthy(ls, es, k);
      if Cg.Tame(ls[k].account.cwnd) {
        StepStaysTameIff(ls[k], es[k]);
      }
    }
    var tame := (k: nat) => k < |ls| && Cg.Tame(ls[k].account.cwnd);
    var slips := (k: nat) => k < |es| && Slips(ls[k], es[k]);
    UnbrokenIff(tame, slips, 0, n);
    assert forall k | 0 <= k <= n :: tame(k) == Cg.Tame(ls[k].account.cwnd);
    assert forall k | 0 <= k < n :: slips(k) == Slips(ls[k], es[k]);
  }

  lemma RunContinues(ls: seq<Link>, es: seq<Event>, e: Event)
    requires Run(ls, es) && Legal(e)
    ensures Run(ls + [Step(ls[|es|], e)], es + [e])
  {
    var ls', es' := ls + [Step(ls[|es|], e)], es + [e];
    assert ls'[0] == ls[0];
    forall n | 0 <= n < |es'|
      ensures Legal(es'[n]) && ls'[n + 1] == Step(ls'[n], es'[n])
    {
      if n < |es| {
        assert ls'[n] == ls[n] && ls'[n + 1] == ls[n + 1] && es'[n] == es[n];
      }
    }
  }

  /** Nothing logged, nothing queued, and a window that has taken `n` NAKs. */
  predicate Battered(l: Link, n: nat) {
    && l.account.packets == map[] && l.account.probes == map[] && l.account.queue == []
    && l.account.cwnd == Cg.Run(Cg.START, Cg.Repeat(Cg.Nak(1), n))
  }

  const PAYLOAD := Fl.Tracked(0, 1)

  /** Queueing and flushing one packet on an idle account leaves just that packet in flight. */
  lemma SendOne(a: Fl.Account)
    requires a.packets == map[] && a.queue == []
    ensures var q := Fl.Enqueue(a, PAYLOAD);
            Fl.TakeBatch(q) == a.(packets := map[0 := 1], inFlight := 1)
  {
    var b := Fl.Enqueue(a, PAYLOAD).(queue := []);
    assert b == a && [PAYLOAD][..0] == [];
    assert Fl.RegisterAll(b, [PAYLOAD]) == Fl.Register(Fl.RegisterAll(b, []), 0, 1);
  }

  lemma LoseOne(a: Fl.Account)
    requires a.packets == map[0 := 1]
    ensures Fl.Nak(a, 0, 1) == a.(packets := map[], inFlight := 0, cwnd := Cg.OnNak(a.cwnd, 1))
  {
    assert a.packets - {0} == map[];
  }

  lemma BatteredOnceMore(l: Link, n: nat)
    requires Battered(l, n)
    ensures Battered(Step(Step(Step(l, Queue(PAYLOAD)), Flush), Nak(0, 1)), n + 1)
  {
    SendOne(l.account);
    LoseOne(Step(Step(l, Queue(PAYLOAD)), Flush).account);
    Cg.RepeatMore(Cg.START, [], Cg.Nak(1), n + 1);
    assert [] + Cg.Repeat(Cg.Nak(1), n + 1) == Cg.Repeat(Cg.Nak(1), n + 1);
    assert [] + Cg.Repeat(Cg.Nak(1), n) == Cg.Repeat(Cg.Nak(1), n);
  }

  /** One more packet is sent and lost. */
  lemma OneMoreLoss(ls: seq<Link>, es: seq<Event>, n: nat) returns (ls': seq<Link>, es': seq<Event>)
    requires Run(ls, es) && Battered(ls[|es|], n)
    ensures Run(ls', es') && Battered(ls'[|es'|], n + 1)
  {
    BatteredOnceMore(ls[|es|], n);
    ls', es' := Extended(ls, es, Queue(PAYLOAD));
    ls', es' := Extended(ls', es', Flush);
    ls', es' := Extended(ls', es', Nak(0, 1));
  }

  lemma Extended(ls: seq<Link>, es: seq<Event>, e: Event) returns (ls': seq<Link>, es': seq<Event>)
    requires Run(ls, es) && Legal(e)
    ensures Run(ls', es') && es' == es + [e] && ls'[|es'|] == Step(ls[|es|], e)
  {
    RunContinues(ls, es, e);
    ls', es' := ls + [Step(ls[|es|], e)], es + [e];
  }

  lemma {:induction false} ManyLosses(n: nat, s: Signals) returns (ls: seq<Link>, es: seq<Event>)
    requires s.smoothRtt >= 0.0
    ensures Run(ls, es) && Battered(ls[|es|], n)
  {
    if n == 0 {
      ls, es := [NewLink(1, 1, s)], [];
    } else {
      ls, es := ManyLosses(n - 1, s);
      ls, es := OneMoreLoss(ls, es, n - 1);
    }
  }

  /** A run of a link, from new, that ends in a recovery with the window at 20000 and fast recovery on. */
  lemma RecoveryKeepsModeOn(s: Signals) returns (ls: seq<Link>, es: seq<Event>)
    requires s.smoothRtt >= 0.0
    ensures Run(ls, es) && es != [] && es[|es| - 1] == Recovery
    ensures var w := ls[|es|].account.cwnd; w.window == Cg.WINDOW_START && w.control.fastRecovery && !Cg.Tame(w)
  {
    ls, es := ManyLosses(180, s);
    Cg.NaksCut(180);
    ls, es := Extended(ls, es, Recovery);
  }

  // ----- the highest ACK -----

  predicate Resets(e: Event) {
    e.Reg3? || e.Recovery? || e.Reconnect?
  }

  /** The highest ACK of `m` is that of `l`, or serially after it, or the first. */
  predicate AckMovesForward(l: Link, m: Link) {
    || m.account.highestAcked == l.account.highestAcked
    || (m.account.highestAcked.Some?
        && (l.account.highestAcked.Some? ==> Serial.After(m.account.highestAcked.value, l.account.highestAcked.value)))
  }

  lemma StepMovesAckForward(l: Link, e: Event)
    requires !Resets(e)
    ensures AckMovesForward(l, Step(l, e))
  {
    match e {
      case Flush => Fl.RegisterAllFrame(l.account.(queue := []), l.account.queue);
      case SrtAck(a, now, owns) => Fl.HighestAckAdvances(l.account, a, now, owns);
      case _ =>
    }
  }

  /** Between resets no event of any kind moves the highest ACK other than serially forward, nor forgets it. */
  lemma {:induction false} HighestAckOnlyAdvances(ls: seq<Link>, es: seq<Event>, m: nat, n: nat)
    requires Run(ls, es) && m <= n <= |es| && forall k | m <= k < n :: !Resets(es[k])
    ensures forall k | m <= k < n :: AckMovesForward(ls[k], ls[k + 1])
    ensures ls[m].account.highestAcked.Some? ==> ls[n].account.highestAcked.Some?
    decreases n
  {
    if m < n {
      HighestAckOnlyAdvances(ls, es, m, n - 1);
      StepMovesAckForward(ls[n - 1], es[n - 1]);
      assert AckMovesForward(ls[n - 1], ls[n - 1 + 1]);
    }
  }

  // ----- the score -----

  /** A connected link never scores negative, and whatever is usable is connected. */
  lemma UsableLinksScore(l: Link, now: nat)
    requires Healthy(l) && l.Usable(now)
    ensures l.life.connected && l.Score() >= 0
    ensures 0.8 <= l.life.PhaseWeight() <= 1.0
  {
    var load := l.account.inFlight + |l.account.queue|;
    DivNonNegative(l.account.cwnd.window, Max(Min(Min(load, I32_MAX) + 1, I32_MAX), 1));
  }

  lemma DivNonNegative(a: int, b: int)
    requires a >= 0 && b >= 1
    ensures a / b >= 0
  {
  }

  /** Routing a packet to a link never raises its own score: selection is a closed feedback loop. */
  lemma RoutingLowersScore(l: Link, q: Fl.Queued)
    requires Healthy(l)
    ensures Step(l, Queue(q)).Score() <= l.Score()
  {
    if l.life.connected {
      var t := l.account.inFlight + |l.account.queue|;
      DivAntitone(l.account.cwnd.window, Max(Min(Min(t, I32_MAX) + 1, I32_MAX), 1),
                  Max(Min(Min(t + 1, I32_MAX) + 1, I32_MAX), 1));
    }
  }

  lemma DivAntitone(a: nat, b: nat, c: nat)
    requires 1 <= b <= c
    ensures a / c <= a / b
  {
    var x, y := a / c, a / b;
    assert x * c <= a < (y + 1) * b;
    if x > y {
      Monotone(y + 1, x, b);
      Monotone(b, c, x);
    }
  }

  lemma Monotone(a: nat, b: nat, c: nat)
    requires a <= b
    ensures a * c <= b * c && c * a <= c * b
  {
  }

  /** A link may always keep one packet in flight, and without a rate signal it is not capped at all. */
  lemma CapNeverStarves(ccTargetBps: nat, rttMin: real, inFlight: int)
    ensures inFlight <= 1 || ccTargetBps == 0 ==> !CapExceededBy(ccTargetBps, rttMin, inFlight)
  {
  }

  lemma SoftCapBounds(l: Link)
    ensures SOFT_CAP_FLOOR <= l.SoftCap() <= 1.0
  {
  }
}
