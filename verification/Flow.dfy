/**
 In-flight accounting of one link: the packet log, the sweep-proof probe log and
 the cumulative-ACK position, over wrapping 31-bit sequence numbers.
 */
module Flow {
  import opened Prelude
  import opened Serial
  import Cg = Congestion

  const TARGETED_REMOVAL_LIMIT: int := 64
  const PROBE_LOG_SOFT_CAP: nat := 128
  const PROBE_LOG_MAX_AGE_MS: nat := 10_000

  /** Send time of every logged sequence number. */
  type Log = map<int, nat>

  /** A datagram waiting in the batch queue; only tracked ones are registered at flush. */
  datatype Queued = Tracked(seqNo: int, at: nat) | Untracked(at: nat)

  const MAX_PLAUSIBLE_RTT_MS: nat := 10_000
  const ECHO_REARM_MS: nat := 3_000

  /** A round trip the RTT estimator took. */
  datatype RoundTrip = RoundTrip(sentMs: nat, ackedMs: nat)

  /** What the estimator has been fed, when it last was, and whether the next keepalive echo is to be a sample. */
  datatype Rtt = Rtt(trips: seq<RoundTrip>, lastSampleMs: nat, echoDue: bool)

  const UNMEASURED := Rtt([], 0, false)

  datatype Account = Account(
    inFlight: int,
    packets: Log,
    probes: Log,
    highestAcked: Option<int>,
    queue: seq<Queued>,
    lastProofMs: nat,
    rtt: Rtt,
    cwnd: Cg.Cwnd)

  const COLD := Account(0, map[], map[], None, [], 0, UNMEASURED, Cg.START)

  // ----- round trips -----

  /** Neither instantaneous nor implausibly long. */
  predicate Plausible(sentMs: nat, now: nat) {
    0 < SatSub(now, sentMs) <= MAX_PLAUSIBLE_RTT_MS
  }

  function Sample(r: Rtt, sentMs: nat, now: nat): Rtt {
    if Plausible(sentMs, now) then r.(trips := r.trips + [RoundTrip(sentMs, now)], lastSampleMs := now) else r
  }

  /** A keepalive is sent: its echo is wanted as a sample only after 3 s without any. */
  function KeepaliveSent(a: Account, now: nat): Account {
    var due := a.rtt.lastSampleMs == 0 || SatSub(now, a.rtt.lastSampleMs) > ECHO_REARM_MS;
    a.(rtt := a.rtt.(echoDue := a.rtt.echoDue || due))
  }

  /** An echo with a plausible stamp is delivery proof every time, and a sample when one is due. */
  function KeepaliveEcho(a: Account, stamp: Option<nat>, now: nat): Account {
    var good := stamp.Some? && Plausible(stamp.value, now);
    var r := if a.rtt.echoDue && good then Sample(a.rtt, stamp.value, now) else a.rtt;
    a.(rtt := r.(echoDue := false), lastProofMs := if good then now else a.lastProofMs)
  }

  // ----- operations -----

  function Register(a: Account, seqNo: int, at: nat): Account {
    var log := a.packets[seqNo := at];
    a.(packets := log, inFlight := |log|)
  }

  function Enqueue(a: Account, q: Queued): Account {
    a.(queue := a.queue + [q])
  }

  function RegisterAll(a: Account, batch: seq<Queued>): Account {
    if batch == [] then a else
    var b := RegisterAll(a, batch[..|batch| - 1]);
    match batch[|batch| - 1]
    case Tracked(s, t) => Register(b, s, t)
    case Untracked(_) => b
  }

  /** Drain the queue, registering every tracked datagram. */
  function TakeBatch(a: Account): Account {
    RegisterAll(a.(queue := []), a.queue)
  }

  function Expired(log: Log, cutoff: nat): Log {
    map s | s in log && log[s] >= cutoff :: log[s]
  }

  function RecordProbe(log: Log, seqNo: int, at: nat): Log {
    var kept := if |log| < PROBE_LOG_SOFT_CAP then log else
                var live := Expired(log, SatSub(at, PROBE_LOG_MAX_AGE_MS));
                if |live| >= PROBE_LOG_SOFT_CAP then map[] else live;
    kept[seqNo := at]
  }

  function QueueProbe(a: Account, seqNo: int, at: nat): Account {
    a.(probes := RecordProbe(a.probes, seqNo, at), queue := a.queue + [Untracked(at)])
  }

  /** The `n` sequences following `from`. */
  function Following(from: int, n: nat): set<int> {
    set j | 1 <= j <= n :: Advance(from, j)
  }

  /** Keep only what is serially ahead of `ack`. */
  function Sweep(log: Log, ack: int): Log {
    map s | s in log && After(s, ack) :: log[s]
  }

  /** Remove `(old, ack]` by stepping through it. */
  function Walk(log: Log, prev: int, ack: int): Log
    requires After(ack, prev)
  {
    log - Following(prev, Diff(ack, prev))
  }

  predicate Accepted(highest: Option<int>, ack: int) {
    highest.None? || After(ack, highest.value)
  }

  /** The log an accepted cumulative ACK leaves. */
  function Pruned(log: Log, highest: Option<int>, ack: int): Log
    requires Accepted(highest, ack)
  {
    if highest.Some? && Diff(ack, highest.value) <= TARGETED_REMOVAL_LIMIT
    then Walk(log, highest.value, ack)
    else Sweep(log, ack)
  }

  function SrtAck(a: Account, field: int, now: nat, owns: bool): Account {
    var ack := Normalize(field);
    if !Accepted(a.highestAcked, ack) then a else
    var log := Pruned(a.packets, a.highestAcked, ack);
    a.(highestAcked := Some(ack), packets := log, inFlight := |log|,
       rtt := if owns && ack in a.packets then Sample(a.rtt, a.packets[ack], now) else a.rtt)
  }

  function Nak(a: Account, seqNo: int, now: nat): Account {
    if seqNo !in a.packets then a else
    var log := a.packets - {seqNo};
    a.(packets := log, inFlight := |log|, cwnd := Cg.OnNak(a.cwnd, now))
  }

  /** Whether an SRTLA ACK for `seqNo` is answered by this link. */
  predicate Matches(a: Account, seqNo: int) {
    seqNo in a.probes || seqNo in a.packets
  }

  function SrtlaAck(a: Account, seqNo: int, classic: bool, now: nat): Account {
    if seqNo in a.probes then
      a.(probes := a.probes - {seqNo}, lastProofMs := now,
         rtt := Sample(a.rtt, a.probes[seqNo], now))
    else if seqNo in a.packets then
      var log := a.packets - {seqNo};
      a.(packets := log, inFlight := |log|, lastProofMs := now,
         rtt := Sample(a.rtt, a.packets[seqNo], now),
         cwnd := Cg.OnEarnedAck(a.cwnd, |log|, classic))
    else a
  }

  function GlobalAck(a: Account, heard: bool): Account {
    if heard then a.(cwnd := a.cwnd.(window := Cg.OnGlobalAck(a.cwnd.window))) else a
  }

  /** Soft reset on recovery: logs, queue, the awaited echo and window go; congestion history survives. */
  function ResetCore(a: Account): Account {
    a.(inFlight := 0, packets := map[], probes := map[], highestAcked := None, queue := [], lastProofMs := 0,
       rtt := a.rtt.(echoDue := false), cwnd := a.cwnd.(window := Cg.WINDOW_START))
  }

  function ResetForReconnect(a: Account): Account {
    var r := ResetCore(a);
    r.(cwnd := r.cwnd.(control := Cg.FRESH), rtt := r.rtt.(lastSampleMs := 0))
  }

  /** What REG3 clears: everything sent before the link was registered. */
  function ClearPreRegistration(a: Account): Account {
    a.(inFlight := 0, packets := map[], probes := map[], highestAcked := None, queue := [],
       cwnd := a.cwnd.(control := Cg.FRESH))
  }

  function RecoverWindow(a: Account, connected: bool, rising: bool, now: nat): Account {
    a.(cwnd := Cg.Recover(a.cwnd, connected, rising, now))
  }

  // ----- what an SRTLA ACK does to one link -----

  /** When the number an SRTLA ACK matches was sent. */
  function SentAt(a: Account, s: int): nat
    requires Matches(a, s)
  {
    if s in a.probes then a.probes[s] else a.packets[s]
  }

  /** It feeds the estimator exactly when it matches. */
  lemma SrtlaAckSamples(a: Account, s: int, classic: bool, now: nat)
    ensures SrtlaAck(a, s, classic, now).rtt == if Matches(a, s) then Sample(a.rtt, SentAt(a, s), now) else a.rtt
    ensures SrtlaAck(a, s, classic, now).probes == a.probes - {s}
  {
  }

  lemma SrtlaAckMovesWindow(a: Account, s: int, classic: bool, now: nat)
    ensures s in a.probes || s !in a.packets ==> SrtlaAck(a, s, classic, now).cwnd == a.cwnd
    ensures s !in a.probes && s in a.packets ==>
              SrtlaAck(a, s, classic, now).cwnd == Cg.Step(a.cwnd, Cg.EarnedAck(|a.packets - {s}|, classic))
  {
    var log := a.packets - {s};
    if s !in a.probes && s in a.packets {
      assert SrtlaAck(a, s, classic, now).cwnd == Cg.OnEarnedAck(a.cwnd, |log|, classic);
    }
  }

  // ----- cumulative ACKs: the walk against the sweep -----

  predicate KeysInSpace(log: Log) {
    forall s | s in log :: InSpace(s)
  }

  /** Membership in the walked range is a question of serial distance. */
  lemma FollowingIsARange(s: int, prev: int, n: nat)
    requires InSpace(s) && n < HALF
    ensures s in Following(prev, n) <==> 1 <= Diff(s, prev) <= n
  {
    if s in Following(prev, n) {
      var j :| 1 <= j <= n && s == Advance(prev, j);
      AdvanceDiff(prev, j);
    }
    if 1 <= Diff(s, prev) <= n {
      AdvanceByDiff(s, prev);
      var j := Diff(s, prev);
      assert s == Advance(prev, j);
    }
  }

  /** Distance to the new ACK, from the distances to the old one. */
  lemma DiffToAck(s: int, prev: int, ack: int)
    requires After(ack, prev)
    ensures var x := Diff(s, prev); var a := Diff(ack, prev);
            Diff(s, ack) == if x - a >= -HALF then x - a else x - a + SPACE
  {
    var x, a := Diff(s, prev), Diff(ack, prev);
    var i := DiffTurns(s, prev);
    var j := DiffTurns(ack, prev);
    if x - a >= -HALF {
      DiffFromTurns(s, ack, x - a, i - j);
    } else {
      DiffFromTurns(s, ack, x - a + SPACE, i - j - 1);
    }
  }

  /**
   An accepted ACK removes every logged number in (prev, ack] and keeps, with its
   send time, every number serially after `ack`, whichever path it takes and
   wherever the wrap falls.
   */
  lemma AcceptedAckPrunes(log: Log, highest: Option<int>, ack: int)
    requires KeysInSpace(log) && InSpace(ack) && Accepted(highest, ack)
    ensures var left := Pruned(log, highest, ack);
            (forall s | s in log && highest.Some? && 0 < Diff(s, highest.value) <= Diff(ack, highest.value) ::
               s !in left)
            && (forall s | s in log && highest.None? && !After(s, ack) :: s !in left)
            && (forall s | s in log && After(s, ack) :: s in left && left[s] == log[s])
            && (forall s | s in left :: s in log && left[s] == log[s])
  {
    if highest.Some? {
      var prev := highest.value;
      DiffIsTheShortWay(ack, prev);
      forall s | s in log
        ensures 0 < Diff(s, prev) <= Diff(ack, prev) ==> !After(s, ack)
        ensures Diff(ack, prev) <= TARGETED_REMOVAL_LIMIT ==>
                  (s in Following(prev, Diff(ack, prev)) <==> 1 <= Diff(s, prev) <= Diff(ack, prev))
      {
        DiffToAck(s, prev, ack);
        FollowingIsARange(s, prev, Diff(ack, prev));
      }
    }
  }

  /**
   `s` sits in the band where the two paths part: at or behind the old ACK, but not so far
   behind that it wraps ahead of the new one.
   */
  predicate InStaleBand(s: int, prev: int, ack: int) {
    Diff(ack, prev) - HALF <= Diff(s, prev) <= 0
  }

  /** Walk and sweep leave the same log exactly when nothing logged lies in the stale band. */
  lemma WalkEqualsSweepIff(log: Log, prev: int, ack: int)
    requires KeysInSpace(log) && InSpace(ack) && After(ack, prev)
    ensures Walk(log, prev, ack) == Sweep(log, ack) <==> forall s | s in log :: !InStaleBand(s, prev, ack)
  {
    DiffIsTheShortWay(ack, prev);
    forall s | s in log
      ensures (s in Walk(log, prev, ack) <==> s in Sweep(log, ack)) <==> !InStaleBand(s, prev, ack)
    {
      DiffToAck(s, prev, ack);
      DiffIsTheShortWay(s, prev);
      FollowingIsARange(s, prev, Diff(ack, prev));
    }
    if Walk(log, prev, ack) == Sweep(log, ack) {
      forall s | s in log
        ensures !InStaleBand(s, prev, ack)
      {
        assert s in Walk(log, prev, ack) <==> s in Sweep(log, ack);
      }
    }
  }

  /** A stale registration makes them differ: number 5 logged after 5 was acknowledged, then ACK 6. */
  lemma StaleRegistrationSplitsThePaths()
    ensures After(6, 5) && Walk(map[5 := 1], 5, 6) != Sweep(map[5 := 1], 6)
  {
    WalkEqualsSweepIff(map[5 := 1], 5, 6);
    assert InStaleBand(5, 5, 6);
  }

  /** Every logged number is serially ahead of the highest ACK. */
  predicate AllAhead(a: Account) {
    a.highestAcked.Some? ==> forall s | s in a.packets :: After(s, a.highestAcked.value)
  }

  predicate Sound(a: Account) {
    && a.inFlight == |a.packets|
    && KeysInSpace(a.packets)
    && (a.highestAcked.Some? ==> InSpace(a.highestAcked.value))
    && |a.probes| <= PROBE_LOG_SOFT_CAP
    && Cg.InRange(a.cwnd.window)
    && (forall q | q in a.queue && q.Tracked? :: InSpace(q.seqNo))
  }

  /**
   On accounts whose registrations were all ahead of the highest ACK, the choice of
   path is invisible, and the property survives the ACK.
   */
  lemma AheadMakesPathsAgree(a: Account, field: int, now: nat, owns: bool)
    requires Sound(a) && AllAhead(a)
    ensures AllAhead(SrtAck(a, field, now, owns))
    ensures Accepted(a.highestAcked, Normalize(field)) ==>
              SrtAck(a, field, now, owns).packets == Sweep(a.packets, Normalize(field))
  {
    var ack := Normalize(field);
    if Accepted(a.highestAcked, ack) && a.highestAcked.Some? {
      WalkEqualsSweepIff(a.packets, a.highestAcked.value, ack);
    }
  }

  /** Between resets the highest ACK only moves serially forward, and a refused ACK changes nothing. */
  lemma HighestAckAdvances(a: Account, field: int, now: nat, owns: bool)
    ensures var n := SrtAck(a, field, now, owns);
            n == a || (n.highestAcked.Some?
                       && (a.highestAcked.Some? ==> After(n.highestAcked.value, a.highestAcked.value)))
    ensures SrtAck(a, field, now, owns).probes == a.probes
  {
  }

  // ----- every operation keeps the account sound -----

  lemma RecordProbeBounded(log: Log, seqNo: int, at: nat)
    requires |log| <= PROBE_LOG_SOFT_CAP
    ensures |RecordProbe(log, seqNo, at)| <= PROBE_LOG_SOFT_CAP
    ensures seqNo in RecordProbe(log, seqNo, at)
  {
    var kept := if |log| < PROBE_LOG_SOFT_CAP then log else
                var live := Expired(log, SatSub(at, PROBE_LOG_MAX_AGE_MS));
                if |live| >= PROBE_LOG_SOFT_CAP then map[] else live;
    assert kept[seqNo := at].Keys == kept.Keys + {seqNo};
  }

  /** Registering touches only the log and its count. */
  lemma {:induction false} RegisterAllFrame(a: Account, batch: seq<Queued>)
    ensures var r := RegisterAll(a, batch); r == a.(packets := r.packets, inFlight := r.inFlight)
  {
    if batch != [] {
      RegisterAllFrame(a, batch[..|batch| - 1]);
    }
  }

  lemma {:induction false} RegisterAllKeys(a: Account, batch: seq<Queued>)
    ensures RegisterAll(a, batch).packets.Keys == a.packets.Keys + set q | q in batch && q.Tracked? :: q.seqNo
  {
    if batch != [] {
      var p, q := batch[..|batch| - 1], batch[|batch| - 1];
      assert batch == p + [q];
      RegisterAllKeys(a, p);
    }
  }

  lemma {:induction false} RegisterAllCounts(a: Account, batch: seq<Queued>)
    requires a.inFlight == |a.packets|
    ensures RegisterAll(a, batch).inFlight == |RegisterAll(a, batch).packets|
  {
    if batch != [] {
      RegisterAllCounts(a, batch[..|batch| - 1]);
    }
  }

  lemma RegisterAllSound(a: Account, batch: seq<Queued>)
    requires Sound(a) && forall q | q in batch && q.Tracked? :: InSpace(q.seqNo)
    ensures Sound(RegisterAll(a, batch))
  {
    RegisterAllFrame(a, batch);
    RegisterAllKeys(a, batch);
    RegisterAllCounts(a, batch);
    forall s | s in RegisterAll(a, batch).packets
      ensures InSpace(s)
    {
      assert s in RegisterAll(a, batch).packets.Keys;
    }
  }

  lemma RemovedIsSmaller(log: Log, s: set<int>)
    ensures |log - s| <= |log|
  {
    assert (log - s).Keys <= log.Keys;
    SubsetSize((log - s).Keys, log.Keys);
  }

  lemma SubsetSize(a: set<int>, b: set<int>)
    requires a <= b
    ensures |a| <= |b|
  {
    assert b == a + (b - a);
  }

  lemma SrtAckSound(a: Account, field: int, now: nat, owns: bool)
    requires Sound(a)
    ensures Sound(SrtAck(a, field, now, owns))
  {
  }

  lemma SrtlaAckSound(a: Account, seqNo: int, classic: bool, now: nat)
    requires Sound(a)
    ensures Sound(SrtlaAck(a, seqNo, classic, now))
  {
    RemovedIsSmaller(a.probes, {seqNo});
  }
}
