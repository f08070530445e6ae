/**
 One forward to the SRT client per distinct control packet.  A fixed ring of the
 last N forwards stands in for an unbounded memory of every forward ever made;
 the packet digest is an opaque number.
 */
module ClientDedup {
  import opened Prelude

  const ACK_DEDUP_WINDOW_MS: nat := 1000
  const ACK_RING_SIZE: nat := 512
  const NAK_DEDUP_WINDOW_MS: nat := 50
  const NAK_RING_SIZE: nat := 64

  datatype Forwarded = Forwarded(hash: nat, at: nat)

  /** An arrival at the deduplicator: which packet, and when. */
  type Arrival = Forwarded

  predicate Suppresses(e: Forwarded, a: Arrival, win: nat) {
    e.hash == a.hash && SatSub(a.at, e.at) < win
  }

  /** Some forward in `log` suppresses the arrival. */
  predicate Seen(log: seq<Forwarded>, a: Arrival, win: nat) {
    exists i | 0 <= i < |log| :: Suppresses(log[i], a, win)
  }

  function LastN(log: seq<Forwarded>, n: nat): seq<Forwarded> {
    if |log| <= n then log else log[|log| - n..]
  }

  /** Forwards still inside the window. */
  function InWindow(log: seq<Forwarded>, now: nat, win: nat): nat {
    if log == [] then 0
    else InWindow(log[..|log| - 1], now, win) + if SatSub(now, log[|log| - 1].at) < win then 1 else 0
  }

  predicate TimeOrdered(s: seq<Forwarded>) {
    forall i, j | 0 <= i < j < |s| :: s[i].at <= s[j].at
  }

  /** The unbounded deduplicator: the log of what it forwards. */
  function Unbounded(arrivals: seq<Arrival>, win: nat): seq<Forwarded> {
    if arrivals == [] then [] else
    var log := Unbounded(arrivals[..|arrivals| - 1], win);
    var a := arrivals[|arrivals| - 1];
    if Seen(log, a, win) then log else log + [a]
  }

  /** The bounded one: it remembers only its last `n` forwards. */
  function Bounded(arrivals: seq<Arrival>, n: nat, win: nat): seq<Forwarded> {
    if arrivals == [] then [] else
    var log := Bounded(arrivals[..|arrivals| - 1], n, win);
    var a := arrivals[|arrivals| - 1];
    if Seen(LastN(log, n), a, win) then log else log + [a]
  }

  /** Forgetting never suppresses more: whatever the ring drops had a copy forwarded less than a window ago. */
  lemma SuppressionIsJustified(log: seq<Forwarded>, n: nat, a: Arrival, win: nat)
    requires Seen(LastN(log, n), a, win)
    ensures Seen(log, a, win)
  {
    var k := LastN(log, n);
    var i :| 0 <= i < |k| && Suppresses(k[i], a, win);
    assert log[|log| - |k| + i] == k[i];
  }

  /** A packet whose every earlier forward is at least a window old always gets through. */
  lemma StaleCopyIsForwarded(log: seq<Forwarded>, n: nat, a: Arrival, win: nat)
    requires forall e | e in log && e.hash == a.hash :: e.at + win <= a.at
    ensures !Seen(LastN(log, n), a, win)
  {
    if Seen(LastN(log, n), a, win) {
      SuppressionIsJustified(log, n, a, win);
    }
  }

  /** A window holding every forward from position `i` on counts at least that many. */
  lemma {:induction false} SuffixCounts(log: seq<Forwarded>, i: nat, now: nat, win: nat)
    requires i <= |log| && forall j | i <= j < |log| :: SatSub(now, log[j].at) < win
    ensures InWindow(log, now, win) >= |log| - i
  {
    if i < |log| {
      SuffixCounts(log[..|log| - 1], i, now, win);
    }
  }

  /** With at most `n` forwards in the window, the last `n` decide exactly as the full log does. */
  lemma RingDecidesLikeFullLog(log: seq<Forwarded>, n: nat, a: Arrival, win: nat)
    requires TimeOrdered(log + [a]) && InWindow(log, a.at, win) <= n
    ensures Seen(LastN(log, n), a, win) <==> Seen(log, a, win)
  {
    if Seen(LastN(log, n), a, win) {
      SuppressionIsJustified(log, n, a, win);
    }
    if Seen(log, a, win) {
      var i :| 0 <= i < |log| && Suppresses(log[i], a, win);
      forall j | i <= j < |log|
        ensures SatSub(a.at, log[j].at) < win
      {
        assert (log + [a])[i] == log[i] && (log + [a])[j] == log[j] && (log + [a])[|log|] == a;
      }
      SuffixCounts(log, i, a.at, win);
      var k := LastN(log, n);
      assert k[i - (|log| - |k|)] == log[i];
    }
  }

  /** At every arrival, the unbounded deduplicator has at most `n` forwards in its window. */
  predicate FitsRing(arrivals: seq<Arrival>, n: nat, win: nat) {
    forall k | 0 <= k < |arrivals| :: InWindow(Unbounded(arrivals[..k], win), arrivals[k].at, win) <= n
  }

  lemma {:induction false} ForwardsAreOrdered(arrivals: seq<Arrival>, win: nat)
    requires TimeOrdered(arrivals)
    ensures TimeOrdered(Unbounded(arrivals, win))
    ensures forall e | e in Unbounded(arrivals, win) :: e in arrivals
  {
    if arrivals != [] {
      var p, a := arrivals[..|arrivals| - 1], arrivals[|arrivals| - 1];
      ForwardsAreOrdered(p, win);
      var log := Unbounded(p, win);
      forall i | 0 <= i < |log|
        ensures log[i].at <= a.at
      {
        assert log[i] in p;
      }
    }
  }

  lemma FitsRingPrefix(p: seq<Arrival>, a: Arrival, n: nat, win: nat)
    requires FitsRing(p + [a], n, win)
    ensures FitsRing(p, n, win) && InWindow(Unbounded(p, win), a.at, win) <= n
  {
    var s := p + [a];
    forall k | 0 <= k < |p|
      ensures InWindow(Unbounded(p[..k], win), p[k].at, win) <= n
    {
      assert p[..k] == s[..k] && p[k] == s[k];
    }
    assert s[..|p|] == p && s[|p|] == a;
  }

  lemma RunsSnoc(p: seq<Arrival>, a: Arrival, n: nat, win: nat)
    ensures Unbounded(p + [a], win)
            == if Seen(Unbounded(p, win), a, win) then Unbounded(p, win) else Unbounded(p, win) + [a]
    ensures Bounded(p + [a], n, win)
            == if Seen(LastN(Bounded(p, n, win), n), a, win) then Bounded(p, n, win) else Bounded(p, n, win) + [a]
  {
    assert (p + [a])[..|p|] == p;
  }

  lemma ForwardsPrecede(p: seq<Arrival>, a: Arrival, win: nat)
    requires TimeOrdered(p + [a])
    ensures TimeOrdered(p) && TimeOrdered(Unbounded(p, win) + [a])
  {
    var s := p + [a];
    assert forall i | 0 <= i < |p| :: s[i] == p[i];
    ForwardsAreOrdered(p, win);
    var log := Unbounded(p, win);
    forall i | 0 <= i < |log|
      ensures log[i].at <= a.at
    {
      assert log[i] in p;
      var k :| 0 <= k < |p| && p[k] == log[i];
      assert s[k] == log[i] && s[|p|] == a;
    }
  }

  /**
   Whole runs: as long as the window never holds more than `n` forwards, ring and unbounded
   memory forward the same packets.
   */
  lemma {:induction false} RingRefinesUnbounded(arrivals: seq<Arrival>, n: nat, win: nat)
    requires TimeOrdered(arrivals) && FitsRing(arrivals, n, win)
    ensures Bounded(arrivals, n, win) == Unbounded(arrivals, win)
  {
    if arrivals != [] {
      var p, a := arrivals[..|arrivals| - 1], arrivals[|arrivals| - 1];
      assert arrivals == p + [a];
      FitsRingPrefix(p, a, n, win);
      ForwardsPrecede(p, a, win);
      RingRefinesUnbounded(p, n, win);
      RingDecidesLikeFullLog(Unbounded(p, win), n, a, win);
      RunsSnoc(p, a, n, win);
    }
  }

  lemma StepOn(i: nat, n: nat)
    requires i < n
    ensures (i + 1) % n == if i + 1 == n then 0 else i + 1
  {
  }

  lemma KeptAfter(log: seq<Forwarded>, a: Arrival, n: nat)
    requires n > 0
    ensures var kept := LastN(log, n); LastN(log + [a], n) == (if |log| < n then kept else kept[1..]) + [a]
  {
  }

  /** Cell `k`, counted from the oldest, of a ring whose next write goes to `next`. */
  function CellOf(es: seq<Option<Forwarded>>, next: nat, k: nat): Option<Forwarded>
    requires k < |es| && next < |es|
  {
    if next + k < |es| then es[next + k] else es[next + k - |es|]
  }

  /** Writing the oldest cell and stepping on shifts every other cell one place older. */
  lemma WriteShifts(es: seq<Option<Forwarded>>, next: nat, a: Arrival, k: nat)
    requires next < |es| && k < |es|
    ensures var step := if next + 1 == |es| then 0 else next + 1;
            CellOf(es[next := Some(a)], step, k) == if k < |es| - 1 then CellOf(es, next, k + 1) else Some(a)
  {
  }

  /** The ring holds exactly `kept`, oldest first, with the unused cells before it. */
  predicate Holds(es: seq<Option<Forwarded>>, next: nat, kept: seq<Forwarded>) {
    && next < |es| && |kept| <= |es|
    && (forall k | 0 <= k < |es| ::
          CellOf(es, next, k) == if k < |es| - |kept| then None else Some(kept[k - (|es| - |kept|)]))
  }

  lemma WriteHolds(es: seq<Option<Forwarded>>, next: nat, log: seq<Forwarded>, a: Arrival)
    requires next < |es| && Holds(es, next, LastN(log, |es|))
    ensures Holds(es[next := Some(a)], if next + 1 == |es| then 0 else next + 1, LastN(log + [a], |es|))
  {
    var n, kept := |es|, LastN(log, |es|);
    var step, more := if next + 1 == n then 0 else next + 1, LastN(log + [a], n);
    var cs := es[next := Some(a)];
    KeptAfter(log, a, n);
    forall k | 0 <= k < n
      ensures CellOf(cs, step, k) == if k < n - |more| then None else Some(more[k - (n - |more|)])
    {
      WriteShifts(es, next, a, k);
      if k < n - 1 {
        assert CellOf(es, next, k + 1) == if k + 1 < n - |kept| then None else Some(kept[k + 1 - (n - |kept|)]);
      }
    }
  }

  /** The fixed ring.  `log` records every forward; `Valid` ties the array to its last N entries. */
  class Ring {
    const entries: array<Option<Forwarded>>
    const windowMs: nat
    var next: nat
    ghost var log: seq<Forwarded>

    ghost predicate Valid()
      reads this, entries
    {
      0 < entries.Length && Holds(entries[..], next, LastN(log, entries.Length))
    }

    constructor (size: nat, windowMs: nat)
      requires size > 0
      ensures Valid() && fresh(entries) && entries.Length == size && this.windowMs == windowMs && log == []
    {
      this.windowMs := windowMs;
      next := 0;
      log := [];
      entries := new Option<Forwarded>[size](i => None);
    }

    method Scan(a: Arrival) returns (seen: bool)
      requires Valid()
      ensures seen == Seen(LastN(log, entries.Length), a, windowMs)
    {
      seen := false;
      ghost var n := entries.Length;
      ghost var kept := LastN(log, n);
      var i := 0;
      while i < entries.Length
        invariant 0 <= i <= n
        invariant !seen ==> forall k | 0 <= k < i :: entries[k].None? || !Suppresses(entries[k].value, a, windowMs)
        invariant seen ==> Seen(kept, a, windowMs)
      {
        if entries[i].Some? && Suppresses(entries[i].value, a, windowMs) {
          ghost var k := if i >= next then i - next else i + n - next;
          assert CellOf(entries[..], next, k) == entries[i];
          assert Suppresses(kept[k - (n - |kept|)], a, windowMs);
          seen := true;
        }
        i := i + 1;
      }
      if !seen {
        forall j | 0 <= j < |kept|
          ensures !Suppresses(kept[j], a, windowMs)
        {
          assert CellOf(entries[..], next, n - |kept| + j) == Some(kept[j]);
        }
      }
    }

    method ShouldForward(hash: nat, now: nat) returns (forward: bool)
      requires Valid()
      modifies this, entries
      ensures Valid()
      ensures forward == !Seen(LastN(old(log), entries.Length), Forwarded(hash, now), windowMs)
      ensures log == if forward then old(log) + [Forwarded(hash, now)] else old(log)
    {
      var a := Forwarded(hash, now);
      var seen := Scan(a);
      if seen {
        return false;
      }
      Record(a);
      return true;
    }

    /** Overwrite the oldest cell and step on. */
    method Record(a: Arrival)
      requires Valid()
      modifies this, entries
      ensures Valid() && log == old(log) + [a]
    {
      StepOn(next, entries.Length);
      WriteHolds(entries[..], next, log, a);
      ghost var cells := entries[..][next := Some(a)];
      entries[next] := Some(a);
      assert entries[..] == cells;
      next := (next + 1) % entries.Length;
      log := log + [a];
    }
  }

  /** ACKs and NAKs are kept in rings of their own, so neither kind can evict the other. */
  class Dedup {
    const acks: Ring
    const naks: Ring

    ghost predicate Valid()
      reads this, acks, naks, acks.entries, naks.entries
    {
      && acks != naks && acks.entries != naks.entries
      && acks.Valid() && naks.Valid()
      && acks.entries.Length == ACK_RING_SIZE && acks.windowMs == ACK_DEDUP_WINDOW_MS
      && naks.entries.Length == NAK_RING_SIZE && naks.windowMs == NAK_DEDUP_WINDOW_MS
    }

    constructor ()
      ensures Valid() && acks.log == [] && naks.log == []
    {
      acks := new Ring(ACK_RING_SIZE, ACK_DEDUP_WINDOW_MS);
      naks := new Ring(NAK_RING_SIZE, NAK_DEDUP_WINDOW_MS);
    }

    method ShouldForwardAck(hash: nat, now: nat) returns (forward: bool)
      requires Valid()
      modifies acks, acks.entries
      ensures Valid() && naks.log == old(naks.log)
      ensures forward == !Seen(LastN(old(acks.log), ACK_RING_SIZE), Forwarded(hash, now), ACK_DEDUP_WINDOW_MS)
      ensures acks.log == if forward then old(acks.log) + [Forwarded(hash, now)] else old(acks.log)
    {
      forward := acks.ShouldForward(hash, now);
    }

    method ShouldForwardNak(hash: nat, now: nat) returns (forward: bool)
      requires Valid()
      modifies naks, naks.entries
      ensures Valid() && acks.log == old(acks.log)
      ensures forward == !Seen(LastN(old(naks.log), NAK_RING_SIZE), Forwarded(hash, now), NAK_DEDUP_WINDOW_MS)
      ensures naks.log == if forward then old(naks.log) + [Forwarded(hash, now)] else old(naks.log)
    {
      forward := naks.ShouldForward(hash, now);
    }
  }
}
