/** Congestion window of one link: NAK cuts, ACK growth and time-based recovery. */
module Congestion {
  import opened Prelude

  const WINDOW_FLOOR: int := 1000
  const WINDOW_START: int := 20000
  const WINDOW_CEIL: int := 60000
  const WINDOW_MULT: int := 1000
  const WINDOW_DECR: int := 100
  const WINDOW_INCR: int := 30
  const NAK_BURST_WINDOW_MS: nat := 1000
  const FAST_RECOVERY_ENTER: int := 2000
  const FAST_RECOVERY_LEAVE: int := 12000
  const I32_MAX: int := 0x7FFF_FFFF

  datatype Control = Control(
    nakCount: int,
    lastNakMs: nat,
    lastIncreaseMs: nat,
    acksWithoutNak: int,
    fastRecovery: bool,
    fastRecoveryStartMs: nat,
    burstCount: int,
    burstStartMs: nat)

  const FRESH := Control(0, 0, 0, 0, false, 0, 0, 0)

  /** A window together with its control state, as the handlers update them. */
  datatype Cwnd = Cwnd(window: int, control: Control)

  const START := Cwnd(WINDOW_START, FRESH)

  predicate InRange(window: int) {
    WINDOW_FLOOR <= window <= WINDOW_CEIL
  }

  function SatInc(n: int): int {
    Min(n + 1, I32_MAX)
  }

  function OnNak(w: Cwnd, now: nat): Cwnd {
    var c := w.control;
    var inBurst := c.lastNakMs > 0 && SatSub(now, c.lastNakMs) < NAK_BURST_WINDOW_MS;
    var window := Max(w.window - WINDOW_DECR, WINDOW_FLOOR);
    var enter := window <= FAST_RECOVERY_ENTER && !c.fastRecovery;
    Cwnd(window, c.(
      nakCount := SatInc(c.nakCount),
      burstCount := if !inBurst then 0 else if c.burstCount == 0 then 2 else SatInc(c.burstCount),
      burstStartMs := if !inBurst then 0 else if c.burstCount == 0 then c.lastNakMs else c.burstStartMs,
      lastNakMs := now,
      acksWithoutNak := 0,
      fastRecovery := c.fastRecovery || enter,
      fastRecoveryStartMs := if enter then now else c.fastRecoveryStartMs))
  }

  /** Growth on an earned ACK, common to both modes. */
  function Grown(window: int, inFlight: int): int {
    if Min(inFlight * WINDOW_MULT, I32_MAX) > window then Min(window + WINDOW_INCR - 1, WINDOW_CEIL) else window
  }

  function OnEarnedAck(w: Cwnd, inFlight: int, classic: bool): Cwnd {
    var window := Grown(w.window, inFlight);
    if classic then w.(window := window)
    else Cwnd(window, w.control.(fastRecovery := w.control.fastRecovery && window < FAST_RECOVERY_LEAVE))
  }

  function OnGlobalAck(window: int): int {
    Min(window + 1, WINDOW_CEIL)
  }

  /** The increment granted after `quiet` ms without a NAK. */
  function RecoveryIncrement(quiet: nat, fast: bool, rising: bool): int {
    var bonus := if fast then 2 else 1;
    var base := if quiet > 10_000 then WINDOW_INCR * 2 * bonus
                else if quiet > 7_000 then WINDOW_INCR * bonus
                else if quiet > 5_000 then WINDOW_INCR * bonus / 2
                else WINDOW_INCR * bonus / 4;
    if rising then base / 2 else base
  }

  /** Time-based recovery; `rising` says the RTT velocity is above its gate. */
  function Recover(w: Cwnd, connected: bool, rising: bool, now: nat): Cwnd {
    if !connected || w.window >= WINDOW_CEIL then w else
    var c := w.control;
    var quiet := if c.lastNakMs > 0 then SatSub(now, c.lastNakMs) else U64_MAX;
    var calm := quiet >= NAK_BURST_WINDOW_MS && c.burstCount > 0;
    var c1 := if calm then c.(burstCount := 0, burstStartMs := 0) else c;
    var minWait := if c.fastRecovery then 500 else 2000;
    var gap := if c.fastRecovery then 300 else 1000;
    if quiet > minWait && SatSub(now, c.lastIncreaseMs) > gap then
      var window := Min(w.window + RecoveryIncrement(quiet, c.fastRecovery, rising), WINDOW_CEIL);
      Cwnd(window, c1.(lastIncreaseMs := now, fastRecovery := c.fastRecovery && window < FAST_RECOVERY_LEAVE))
    else
      w.(control := c1)
  }

  datatype Event =
    | Nak(now: nat)
    | EarnedAck(inFlight: int, classic: bool)
    | GlobalAck
    | Recovery(connected: bool, rising: bool, now: nat)
    | SoftReset   // recovery: the window starts over, the control state survives
    | Registered  // REG3: the control state starts over, the window survives
    | Restart     // reconnect: both start over

  function Step(w: Cwnd, e: Event): Cwnd {
    match e
    case Nak(now) => OnNak(w, now)
    case EarnedAck(f, classic) => OnEarnedAck(w, f, classic)
    case GlobalAck => w.(window := OnGlobalAck(w.window))
    case Recovery(c, r, now) => Recover(w, c, r, now)
    case SoftReset => w.(window := WINDOW_START)
    case Registered => w.(control := FRESH)
    case Restart => START
  }

  function Run(w: Cwnd, es: seq<Event>): Cwnd
    decreases |es|
  {
    if es == [] then w else Step(Run(w, es[..|es| - 1]), es[|es| - 1])
  }

  function Naks(es: seq<Event>): nat {
    if es == [] then 0 else Naks(es[..|es| - 1]) + if es[|es| - 1].Nak? then 1 else 0
  }

  /** No event of the run starts the window over. */
  predicate NoRestart(es: seq<Event>) {
    Restart !in es && SoftReset !in es
  }

  /**
   On every run the window stays in 1000..60000, and only NAKs ever shrink it:
   between the resets that start it over it loses at most 100 per NAK.
   */
  lemma {:induction false} WindowOverRuns(w: Cwnd, es: seq<Event>)
    requires InRange(w.window)
    ensures InRange(Run(w, es).window)
    ensures NoRestart(es) ==> Run(w, es).window >= w.window - WINDOW_DECR * Naks(es)
  {
    if es != [] {
      var p := es[..|es| - 1];
      WindowOverRuns(w, p);
      assert NoRestart(es) ==> NoRestart(p);
    }
  }

  // ----- fast recovery and its threshold -----

  /** Fast recovery is on only below the window that ends it. */
  predicate Tame(w: Cwnd) {
    w.control.fastRecovery ==> w.window < FAST_RECOVERY_LEAVE
  }

  /**
   The three ways past the threshold with the mode still on: a global ACK one below it,
   a classic earned ACK that grows a window within one increment of it, and a recovery,
   which lifts the window to 20000 and leaves the mode as it is.
   */
  predicate Slips(w: Cwnd, e: Event) {
    && w.control.fastRecovery
    && match e
       case GlobalAck => w.window == 11999
       case EarnedAck(inFlight, classic) => classic && inFlight * 1000 > w.window && w.window >= 11971
       case SoftReset => true
       case _ => false
  }

  lemma StepStaysTameIff(w: Cwnd, e: Event)
    requires InRange(w.window) && Tame(w)
    ensures Tame(Step(w, e)) <==> !Slips(w, e)
  {
  }

  /** Tame after every prefix of the run. */
  predicate StaysTame(w: Cwnd, es: seq<Event>)
    decreases |es|
  {
    Tame(Run(w, es)) && (es != [] ==> StaysTame(w, es[..|es| - 1]))
  }

  /** No event of the run slips in the state it meets. */
  predicate NeverSlips(w: Cwnd, es: seq<Event>)
    decreases |es|
  {
    es != [] ==> NeverSlips(w, es[..|es| - 1]) && !Slips(Run(w, es[..|es| - 1]), es[|es| - 1])
  }

  /** Fast recovery bounds the window throughout a run if and only if no event of the run slips past the threshold. */
  lemma {:induction false} RunStaysTameIff(w: Cwnd, es: seq<Event>)
    requires InRange(w.window) && Tame(w)
    ensures StaysTame(w, es) <==> NeverSlips(w, es)
    decreases |es|
  {
    if es != [] {
      var p := es[..|es| - 1];
      RunStaysTameIff(w, p);
      WindowOverRuns(w, p);
      if Tame(Run(w, p)) {
        StepStaysTameIff(Run(w, p), es[|es| - 1]);
      }
    }
  }

  function Repeat(e: Event, n: nat): (es: seq<Event>)
    ensures |es| == n
  {
    seq(n, i => e)
  }

  lemma RepeatMore(w: Cwnd, p: seq<Event>, e: Event, n: nat)
    requires n > 0
    ensures Run(w, p + Repeat(e, n)) == Step(Run(w, p + Repeat(e, n - 1)), e)
  {
    var es := p + Repeat(e, n);
    assert es[..|es| - 1] == p + Repeat(e, n - 1);
  }

  /** NAKs at one instant take a fresh window down by a hundred each and switch the mode on at 2000. */
  lemma {:induction false} NaksCut(n: nat)
    requires n <= 180
    ensures var w := Run(START, Repeat(Nak(1), n));
            w.window == WINDOW_START - WINDOW_DECR * n && (w.control.fastRecovery <==> n == 180)
  {
    if n > 0 {
      NaksCut(n - 1);
      RepeatMore(START, [], Nak(1), n);
      assert [] + Repeat(Nak(1), n) == Repeat(Nak(1), n) && [] + Repeat(Nak(1), n - 1) == Repeat(Nak(1), n - 1);
    }
  }

  lemma {:induction false} GlobalAcksLift(w: Cwnd, p: seq<Event>, n: nat)
    requires Run(w, p).window + n <= WINDOW_CEIL
    ensures Run(w, p + Repeat(GlobalAck, n)) == Run(w, p).(window := Run(w, p).window + n)
  {
    if n == 0 {
      assert p + Repeat(GlobalAck, 0) == p;
    } else {
      GlobalAcksLift(w, p, n - 1);
      RepeatMore(w, p, GlobalAck, n);
    }
  }

  lemma {:induction false} ClassicAcksLift(w: Cwnd, p: seq<Event>, n: nat)
    requires Run(w, p).window + 29 * n < WINDOW_CEIL
    ensures Run(w, p + Repeat(EarnedAck(60, true), n)) == Run(w, p).(window := Run(w, p).window + 29 * n)
  {
    if n == 0 {
      assert p + Repeat(EarnedAck(60, true), 0) == p;
    } else {
      ClassicAcksLift(w, p, n - 1);
      RepeatMore(w, p, EarnedAck(60, true), n);
    }
  }

  /**
   All three ways do occur, on runs from a fresh link: 180 NAKs bring the window to
   2000 and switch the mode on, and then global ACKs alone, classic earned ACKs alone,
   or a single recovery, leave it past 12000 with the mode still on.
   */
  lemma FastRecoveryOutlivesItsThreshold()
    ensures var cut := Repeat(Nak(1), 180);
            !Tame(Run(START, cut + Repeat(GlobalAck, 10_000)))
            && !Tame(Run(START, cut + Repeat(EarnedAck(60, true), 345)))
            && !Tame(Run(START, cut + [SoftReset]))
  {
    var cut := Repeat(Nak(1), 180);
    NaksCut(180);
    GlobalAcksLift(START, cut, 10_000);
    ClassicAcksLift(START, cut, 345);
    assert (cut + [SoftReset])[..|cut|] == cut;
  }
}
