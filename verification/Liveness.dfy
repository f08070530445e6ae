/** Connection phase, receive stamp and retry pacing of one link. */
module Liveness {
  import opened Prelude

  const STARTUP_GRACE_MS: nat := 5_000
  const CONN_TIMEOUT_MS: nat := 5_000
  const WARMING_RTT_PROBES: nat := 2
  const WARMING_TIMEOUT_MS: nat := 5_000
  const FAST_RETRY_ATTEMPTS: nat := 4
  const FAST_RETRY_DELAY_MS: nat := 1_000
  const SLOW_RETRY_DELAY_MS: nat := 5_000
  const TICK_SLACK_MS: nat := 500

  datatype Phase = Registering | Warming(rttProbes: nat, enteredMs: nat) | Live | Degraded

  datatype Life = Life(
    connected: bool,
    phase: Phase,
    lastReceived: Option<nat>,
    establishedMs: nat,
    graceDeadlineMs: nat,
    timeoutMs: nat,
    lastAttemptMs: nat,
    failures: nat)
  {
    predicate Schedulable() {
      !phase.Registering?
    }

    predicate TimedOut(now: nat) {
      if !connected then
        !(establishedMs == 0 && now < graceDeadlineMs)
        && (lastReceived.None? || SatSub(now, lastReceived.value) >= timeoutMs)
      else
        lastReceived.Some? && SatSub(now, lastReceived.value) >= timeoutMs
    }

    function PhaseWeight(): real {
      match phase
      case Registering => 0.0
      case Warming(_, _) => 0.8
      case Live => 1.0
      case Degraded => 1.0
    }
  }

  function NewRegistering(now: nat): Life {
    Life(false, Registering, None, 0, now + STARTUP_GRACE_MS, CONN_TIMEOUT_MS, 0, 0)
  }

  // ----- operations -----

  /** REG3 accepted: the link is registered and starts warming. */
  function OnReg3(l: Life, now: nat): Life {
    l.(connected := true, phase := Warming(0, now), lastReceived := Some(now),
       establishedMs := if l.establishedMs == 0 then now else l.establishedMs, failures := 0)
  }

  function OnRegErr(l: Life): Life {
    l.(connected := false, lastReceived := None)
  }

  /** Any other datagram: liveness counts only for a link that is registered or never was. */
  function OnDatagram(l: Life, now: nat): Life {
    if l.connected || l.establishedMs == 0 then l.(lastReceived := Some(now)) else l
  }

  function MarkForRecovery(l: Life): Life {
    l.(connected := false, phase := Registering, lastReceived := None, graceDeadlineMs := 0)
  }

  function ResetForReconnect(l: Life, now: nat): Life {
    l.(connected := false, phase := Registering, lastReceived := None, lastAttemptMs := now)
  }

  function ArmGrace(l: Life, now: nat): Life {
    l.(graceDeadlineMs := now + STARTUP_GRACE_MS)
  }

  function RetryDelay(l: Life): nat {
    if l.failures < FAST_RETRY_ATTEMPTS then FAST_RETRY_DELAY_MS else SLOW_RETRY_DELAY_MS
  }

  predicate ShouldAttempt(l: Life, now: nat) {
    if l.establishedMs == 0 then
      now > l.graceDeadlineMs
      && (l.lastAttemptMs == 0 || SatSub(now, l.lastAttemptMs) + TICK_SLACK_MS >= FAST_RETRY_DELAY_MS)
    else
      l.lastAttemptMs == 0 || SatSub(now, l.lastAttemptMs) + TICK_SLACK_MS >= RetryDelay(l)
  }

  function RecordAttempt(l: Life, now: nat): Life {
    var a := l.(lastAttemptMs := now);
    if l.establishedMs == 0 then a else a.(failures := Min(l.failures + 1, 0xFFFF_FFFF))
  }

  function OnRttProbe(l: Life): Life {
    match l.phase
    case Warming(n, t) => l.(phase := if n + 1 >= WARMING_RTT_PROBES then Live else Warming(n + 1, t))
    case _ => l
  }

  function UpdatePhase(l: Life, now: nat, nakDegraded: bool, nakRecovered: bool, lossDegraded: bool): Life {
    match l.phase
    case Warming(_, t) => if SatSub(now, t) >= WARMING_TIMEOUT_MS then l.(phase := Live) else l
    case Live => if nakDegraded || lossDegraded then l.(phase := Degraded) else l
    case Degraded => if nakRecovered && !lossDegraded then l.(phase := Live) else l
    case Registering => l
  }

  // ----- no limbo -----

  /**
   A link that was established and is not connected carries no receive stamp; a
   connected or schedulable link has been established.
   */
  predicate NoLimbo(l: Life) {
    && (l.establishedMs != 0 && !l.connected ==> l.lastReceived.None?)
    && (l.Schedulable() ==> l.establishedMs != 0)
    && (l.connected ==> l.Schedulable() && l.lastReceived.Some?)
  }

  /** Everything that can happen to a link's liveness; `now` stamps are positive, as the clock is. */
  datatype Event =
    | Reg3(now: nat)
    | RegErr
    | Datagram(now: nat)
    | Recovery
    | Rebuild(now: nat)
    | Grace(now: nat)
    | Attempt(now: nat)
    | RttProbe
    | PhaseTick(now: nat, nakDegraded: bool, nakRecovered: bool, lossDegraded: bool)
    | Retime(timeoutMs: nat)

  function Step(l: Life, e: Event): Life {
    match e
    case Reg3(now) => OnReg3(l, now)
    case RegErr => OnRegErr(l)
    case Datagram(now) => OnDatagram(l, now)
    case Recovery => MarkForRecovery(l)
    case Rebuild(now) => ArmGrace(ResetForReconnect(l, now), now)
    case Grace(now) => ArmGrace(l, now)
    case Attempt(now) => RecordAttempt(l, now)
    case RttProbe => OnRttProbe(l)
    case PhaseTick(now, d, r, loss) => UpdatePhase(l, now, d, r, loss)
    case Retime(ms) => l.(timeoutMs := ms)
  }

  predicate PositiveClock(es: seq<Event>) {
    forall e | e in es :: e.Reg3? ==> e.now > 0
  }

  function Run(l: Life, es: seq<Event>): Life {
    if es == [] then l else Step(Run(l, es[..|es| - 1]), es[|es| - 1])
  }

  /** No interleaving of events ever parks a link in limbo. */
  lemma {:induction false} NeverInLimbo(start: nat, es: seq<Event>)
    requires PositiveClock(es)
    ensures NoLimbo(Run(NewRegistering(start), es))
  {
    if es != [] {
      assert es[|es| - 1] in es;
      NeverInLimbo(start, es[..|es| - 1]);
    }
  }

  /**
   Until REG3, a link that lost its registration is timed out at every instant, so
   housekeeping keeps rebuilding it; and whatever is schedulable and not timed out
   is connected.
   */
  lemma LostLinksAreTimedOut(start: nat, es: seq<Event>, now: nat)
    requires PositiveClock(es)
    ensures var l := Run(NewRegistering(start), es);
            (l.establishedMs != 0 && !l.connected ==> l.TimedOut(now))
            && (l.Schedulable() && !l.TimedOut(now) ==> l.connected)
  {
    NeverInLimbo(start, es);
  }

  /** A lost link stays lost until the event that is a REG3. */
  lemma OnlyReg3Revives(l: Life, e: Event)
    requires NoLimbo(l) && l.establishedMs != 0 && !l.connected
    ensures e.Reg3? || (!Step(l, e).connected && Step(l, e).lastReceived.None?
                        && Step(l, e).establishedMs == l.establishedMs)
  {
  }

  // ----- retry pacing over a run -----

  /** The time an event happens, if it is stamped. */
  function At(e: Event): Option<nat> {
    match e
    case Reg3(now) => Some(now)
    case Datagram(now) => Some(now)
    case Rebuild(now) => Some(now)
    case Grace(now) => Some(now)
    case Attempt(now) => Some(now)
    case PhaseTick(now, _, _, _) => Some(now)
    case _ => None
  }

  /** A link's life, event by event, on a positive clock that never goes back; attempts are made only when due. */
  ghost predicate Paced(ls: seq<Life>, es: seq<Event>) {
    && |ls| == |es| + 1 && (exists start :: ls[0] == NewRegistering(start))
    && (forall n | 0 <= n < |es| :: ls[n + 1] == Step(ls[n], es[n]))
    && (forall n | 0 <= n < |es| :: At(es[n]).Some? ==> At(es[n]).value > 0)
    && (forall m, n | 0 <= m < n < |es| && At(es[m]).Some? && At(es[n]).Some? :: At(es[m]).value <= At(es[n]).value)
    && (forall n | 0 <= n < |es| && es[n].Attempt? :: ShouldAttempt(ls[n], es[n].now))
  }

  /** Event `n`, if it is an attempt, is made when it is due. */
  predicate DueAt(l: Life, es: seq<Event>, n: nat)
    requires n < |es|
  {
    es[n].Attempt? ==> ShouldAttempt(Run(l, es[..n]), es[n].now)
  }

  /** Every attempt among the events, taken from `l`, is made when it is due. */
  ghost predicate Due(l: Life, es: seq<Event>) {
    forall n: nat | n < |es| :: DueAt(l, es, n)
  }

  lemma {:induction false} RunAppends(l: Life, es: seq<Event>, fs: seq<Event>)
    ensures Run(l, es + fs) == Run(Run(l, es), fs)
  {
    if fs == [] {
      assert es + fs == es;
    } else {
      var k := |fs| - 1;
      RunAppends(l, es, fs[..k]);
      assert (es + fs)[..|es + fs| - 1] == es + fs[..k];
    }
  }

  lemma DueAppends(l: Life, es: seq<Event>, fs: seq<Event>)
    requires Due(l, es) && Due(Run(l, es), fs)
    ensures Due(l, es + fs)
  {
    forall n: nat | n < |es + fs|
      ensures DueAt(l, es + fs, n)
    {
      EitherIsDue(l, Run(l, es), es, fs, n);
    }
  }

  lemma EitherIsDue(l: Life, p: Life, es: seq<Event>, fs: seq<Event>, n: nat)
    requires p == Run(l, es) && n < |es + fs|
    requires if n < |es| then DueAt(l, es, n) else DueAt(p, fs, n - |es|)
    ensures DueAt(l, es + fs, n)
  {
    if n < |es| {
      EarlierIsDue(l, es, fs, n);
    } else {
      LaterIsDue(l, es, fs, n - |es|);
    }
  }

  lemma EarlierIsDue(l: Life, es: seq<Event>, fs: seq<Event>, n: nat)
    requires n < |es| && DueAt(l, es, n)
    ensures DueAt(l, es + fs, n)
  {
    assert (es + fs)[..n] == es[..n];
  }

  lemma LaterIsDue(l: Life, es: seq<Event>, fs: seq<Event>, k: nat)
    requires k < |fs| && DueAt(Run(l, es), fs, k)
    ensures DueAt(l, es + fs, |es| + k)
  {
    assert (es + fs)[..|es| + k] == es + fs[..k];
    RunAppends(l, es, fs[..k]);
  }

  /** Stamps are positive and never go back. */
  predicate Clocked(es: seq<Event>) {
    && (forall n | 0 <= n < |es| :: At(es[n]).Some? ==> At(es[n]).value > 0)
    && (forall m, n | 0 <= m < n < |es| && At(es[m]).Some? && At(es[n]).Some? :: At(es[m]).value <= At(es[n]).value)
  }

  /** The life of a link after each of the events. */
  function Lives(l: Life, es: seq<Event>): (ls: seq<Life>)
    ensures |ls| == |es| + 1
  {
    seq(|es| + 1, n requires 0 <= n <= |es| => Run(l, es[..n]))
  }

  lemma LivesArePaced(start: nat, es: seq<Event>)
    requires Clocked(es) && Due(NewRegistering(start), es)
    ensures Paced(Lives(NewRegistering(start), es), es)
  {
    var ls := Lives(NewRegistering(start), es);
    assert es[..0] == [] && ls[0] == NewRegistering(start);
    forall n | 0 <= n < |es|
      ensures ls[n + 1] == Step(ls[n], es[n])
    {
      assert es[..n + 1][..n] == es[..n];
    }
    forall n | 0 <= n < |es| && es[n].Attempt?
      ensures ShouldAttempt(ls[n], es[n].now)
    {
      assert DueAt(NewRegistering(start), es, n);
    }
  }

  /** Attempts among the first `n` events made on an established link since its last REG3. */
  ghost function Tries(ls: seq<Life>, es: seq<Event>, n: nat): nat
    requires n <= |es| <= |ls|
  {
    if n == 0 || es[n - 1].Reg3? then 0
    else Tries(ls, es, n - 1) + if es[n - 1].Attempt? && ls[n - 1].establishedMs != 0 then 1 else 0
  }

  lemma {:induction false} FailuresCountTries(ls: seq<Life>, es: seq<Event>, n: nat)
    requires Paced(ls, es) && n <= |es|
    ensures ls[n].failures == Min(Tries(ls, es, n), 0xFFFF_FFFF)
  {
    if n > 0 {
      FailuresCountTries(ls, es, n - 1);
      assert ls[n - 1 + 1] == Step(ls[n - 1], es[n - 1]);
    }
  }

  lemma {:induction false} StampCoversAttempts(ls: seq<Life>, es: seq<Event>, i: nat, n: nat)
    requires Paced(ls, es) && i < n <= |es| && es[i].Attempt?
    ensures ls[n].lastAttemptMs >= es[i].now
    decreases n
  {
    assert ls[n - 1 + 1] == Step(ls[n - 1], es[n - 1]);
    if i < n - 1 {
      StampCoversAttempts(ls, es, i, n - 1);
      assert At(es[n - 1]).Some? ==> At(es[i]).value <= At(es[n - 1]).value;
    }
  }

  /**
   Any two attempts of a run are half a second apart, and from the fifth attempt since
   a registration on, an attempt comes at least four and a half seconds after every
   earlier one: the pace is 1 s, then 5 s, less the tick slack.
   */
  lemma AttemptsArePaced(ls: seq<Life>, es: seq<Event>, i: nat, j: nat)
    requires Paced(ls, es) && i < j < |es| && es[i].Attempt? && es[j].Attempt?
    ensures es[j].now - es[i].now >= FAST_RETRY_DELAY_MS - TICK_SLACK_MS
    ensures ls[j].establishedMs != 0 && Tries(ls, es, j) >= FAST_RETRY_ATTEMPTS ==>
              es[j].now - es[i].now >= SLOW_RETRY_DELAY_MS - TICK_SLACK_MS
  {
    StampCoversAttempts(ls, es, i, j);
    FailuresCountTries(ls, es, j);
    assert At(es[i]).value > 0;
  }
}
