/**
 The fixed ring that remembers which uplink carried a sequence number, specified
 against the whole history of insertions and link removals.
 */
module SequenceTracker {
  import opened Prelude

  const SIZE: nat := 16384
  const MAX_AGE_MS: nat := 5000

  datatype Entry = Entry(connId: nat, at: nat, seqNo: nat)

  const EMPTY := Entry(0, 0, 0)

  datatype Op = Insert(seqNo: nat, connId: nat, at: nat) | Remove(connId: nat)

  function Slot(seqNo: nat): nat {
    seqNo % SIZE
  }

  // ----- one slot over a history -----

  /** What slot `i` holds after `h`. */
  function Held(h: seq<Op>, i: nat): Entry {
    if h == [] then EMPTY else
    var e := Held(h[..|h| - 1], i);
    match h[|h| - 1]
    case Insert(s, c, t) => if Slot(s) == i then Entry(c, t, s) else e
    case Remove(c) => if e.connId == c then EMPTY else e
  }

  predicate ValidFor(e: Entry, seqNo: nat, now: nat) {
    e.connId != 0 && e.seqNo == seqNo && SatSub(now, e.at) <= MAX_AGE_MS
  }

  function Lookup(h: seq<Op>, seqNo: nat, now: nat): Option<nat> {
    var e := Held(h, Slot(seqNo));
    if ValidFor(e, seqNo, now) then Some(e.connId) else None
  }

  /** Operation `k` is the insertion that decides slot `i` after `h`: nothing later overwrote or removed it. */
  predicate Decides(h: seq<Op>, k: nat, i: nat) {
    && k < |h| && h[k].Insert? && Slot(h[k].seqNo) == i
    && forall j | k < j < |h| ::
         match h[j]
         case Insert(s, _, _) => Slot(s) != i
         case Remove(c) => c != h[k].connId
  }

  lemma {:induction false} DecidedSlot(h: seq<Op>, k: nat, i: nat)
    requires Decides(h, k, i)
    ensures Held(h, i) == Entry(h[k].connId, h[k].at, h[k].seqNo)
  {
    if k < |h| - 1 {
      var p := h[..|h| - 1];
      assert forall j | k <= j < |p| :: p[j] == h[j];
      DecidedSlot(p, k, i);
    }
  }

  /** An occupied slot was filled by exactly one deciding insertion. */
  lemma {:induction false} OccupiedSlotIsDecided(h: seq<Op>, i: nat) returns (k: nat)
    requires Held(h, i).connId != 0
    ensures Decides(h, k, i)
  {
    var n := |h| - 1;
    var p := h[..n];
    if h[n].Insert? && Slot(h[n].seqNo) == i {
      k := n;
    } else {
      k := OccupiedSlotIsDecided(p, i);
      DecidedSlot(p, k, i);
      assert forall j | k <= j < n :: p[j] == h[j];
    }
  }

  /**
   The ring answers `c` for `seqNo` exactly when the newest surviving insertion in
   its class modulo 16384 was for that very number, on that link, at most 5 s ago,
   and the link has not been removed since.
   */
  lemma LookupMeansLatestInsert(h: seq<Op>, seqNo: nat, now: nat, c: nat)
    ensures Lookup(h, seqNo, now) == Some(c)
            <==> c != 0 && exists k | 0 <= k < |h| ::
                   Decides(h, k, Slot(seqNo)) && h[k].seqNo == seqNo && h[k].connId == c
                   && SatSub(now, h[k].at) <= MAX_AGE_MS
  {
    var i := Slot(seqNo);
    if Lookup(h, seqNo, now) == Some(c) {
      var k := OccupiedSlotIsDecided(h, i);
      DecidedSlot(h, k, i);
    }
    if k: nat :| k < |h| && Decides(h, k, i) && h[k].seqNo == seqNo && h[k].connId == c
                 && SatSub(now, h[k].at) <= MAX_AGE_MS {
      DecidedSlot(h, k, i);
    }
  }

  // ----- the occupancy counter -----

  function Occupied(s: seq<Entry>): nat {
    if s == [] then 0 else Occupied(s[1..]) + if s[0].connId != 0 then 1 else 0
  }

  function Matches(s: seq<Entry>, c: nat): nat {
    if s == [] then 0 else Matches(s[1..], c) + if s[0].connId == c then 1 else 0
  }

  function Removed(s: seq<Entry>, c: nat): (r: seq<Entry>)
    ensures |r| == |s|
  {
    if s == [] then [] else [if s[0].connId == c then EMPTY else s[0]] + Removed(s[1..], c)
  }

  lemma {:induction false} RemovedAt(s: seq<Entry>, c: nat, i: nat)
    requires i < |s|
    ensures Removed(s, c)[i] == if s[i].connId == c then EMPTY else s[i]
  {
    if i > 0 {
      RemovedAt(s[1..], c, i - 1);
    }
  }

  lemma {:induction false} OccupiedUpdate(s: seq<Entry>, i: nat, e: Entry)
    requires i < |s|
    ensures Occupied(s[i := e]) == Occupied(s) - (if s[i].connId != 0 then 1 else 0) + if e.connId != 0 then 1 else 0
  {
    if i == 0 {
      assert s[0 := e][1..] == s[1..];
    } else {
      OccupiedUpdate(s[1..], i - 1, e);
      assert s[i := e][1..] == s[1..][i - 1 := e];
    }
  }

  lemma {:induction false} OccupiedAfterRemoval(s: seq<Entry>, c: nat)
    ensures Occupied(s) <= |s| && Matches(s, 0) == |s| - Occupied(s)
    ensures c != 0 ==> Matches(s, c) <= Occupied(s) && Occupied(Removed(s, c)) == Occupied(s) - Matches(s, c)
    ensures c == 0 ==> Occupied(Removed(s, c)) == Occupied(s)
  {
    if s != [] {
      OccupiedAfterRemoval(s[1..], c);
      assert Removed(s, c)[1..] == Removed(s[1..], c);
    }
  }

  /** Table and counter after one operation, from an exact counter. */
  function Apply(s: seq<Entry>, count: nat, op: Op): (seq<Entry>, nat)
    requires |s| == SIZE
  {
    match op
    case Insert(q, c, t) =>
      (s[Slot(q) := Entry(c, t, q)], if s[Slot(q)].connId == 0 then count + 1 else count)
    case Remove(c) =>
      (Removed(s, c), SatSub(count, Matches(s, c)))
  }

  /**
   The operation keeps an exact counter exact: it does not use the reserved id 0, or
   removes it from a full or empty table.
   */
  predicate Counted(s: seq<Entry>, op: Op) {
    op.connId != 0 || (op.Remove? && (Occupied(s) == SIZE || Occupied(s) == 0))
  }

  /**
   The counter equals the number of occupied slots after an operation exactly when
   the operation does not use the reserved id 0, or is a removal of id 0 on a table
   that is completely full or completely empty.
   */
  lemma CounterIsExactIff(s: seq<Entry>, op: Op)
    requires |s| == SIZE
    ensures var (t, n) := Apply(s, Occupied(s), op);
            n == Occupied(t) <==> Counted(s, op)
  {
    match op {
      case Insert(q, c, t) => OccupiedUpdate(s, Slot(q), Entry(c, t, q));
      case Remove(c) => OccupiedAfterRemoval(s, c);
    }
  }

  /** Table and counter after a history. */
  ghost function Ran(h: seq<Op>): (r: (seq<Entry>, nat))
    ensures |r.0| == SIZE
  {
    if h == [] then (seq(SIZE, i => EMPTY), 0) else
    var (s, n) := Ran(h[..|h| - 1]);
    Apply(s, n, h[|h| - 1])
  }

  /** The table is, slot by slot, what each slot holds after the history. */
  lemma {:induction false} TableIsWhatIsHeld(h: seq<Op>, i: nat)
    requires i < SIZE
    ensures Ran(h).0[i] == Held(h, i)
  {
    if h != [] {
      var p := h[..|h| - 1];
      TableIsWhatIsHeld(p, i);
      if h[|h| - 1].Remove? {
        RemovedAt(Ran(p).0, h[|h| - 1].connId, i);
      }
    }
  }

  /** The counter is the number of occupied slots after the first `n` operations. */
  ghost predicate Exact(h: seq<Op>, n: nat)
    requires n <= |h|
  {
    Ran(h[..n]).1 == Occupied(Ran(h[..n]).0)
  }

  lemma NextIsExactIff(h: seq<Op>, n: nat)
    requires n < |h| && Exact(h, n)
    ensures Exact(h, n + 1) <==> Counted(Ran(h[..n]).0, h[n])
  {
    assert h[..n + 1][..n] == h[..n];
    CounterIsExactIff(Ran(h[..n]).0, h[n]);
  }

  /**
   From the empty table, the counter is exact throughout a history if and only if every
   operation of it is counted.
   */
  lemma CounterStaysExactIff(h: seq<Op>)
    ensures (forall n | 0 <= n <= |h| :: Exact(h, n)) <==> (forall n | 0 <= n < |h| :: Counted(Ran(h[..n]).0, h[n]))
  {
    var exact := (n: nat) => n <= |h| && Exact(h, n);
    var slips := (n: nat) => n < |h| && !Counted(Ran(h[..n]).0, h[n]);
    EmptyTableIsUnoccupied(SIZE);
    assert h[..0] == [] && exact(0);
    forall n: nat | 0 <= n < |h|
      ensures exact(n) ==> (exact(n + 1) <==> !slips(n))
    {
      if exact(n) {
        NextIsExactIff(h, n);
      }
    }
    UnbrokenIff(exact, slips, 0, |h|);
    assert forall n | 0 <= n <= |h| :: exact(n) == Exact(h, n);
    assert forall n | 0 <= n < |h| :: slips(n) == !Counted(Ran(h[..n]).0, h[n]);
  }

  /** In particular it is exact after any history that never uses id 0. */
  lemma RealIdsCountExactly(h: seq<Op>)
    requires forall o | o in h :: o.connId != 0
    ensures Ran(h).1 == Occupied(Ran(h).0)
  {
    assert forall n | 0 <= n < |h| :: h[n] in h && Counted(Ran(h[..n]).0, h[n]);
    CounterStaysExactIff(h);
    assert Exact(h, |h|) && h[..|h|] == h;
  }

  lemma {:induction false} EmptyTableIsUnoccupied(n: nat)
    ensures Occupied(seq(n, i => EMPTY)) == 0
  {
    if n > 0 {
      assert seq(n, i => EMPTY)[1..] == seq(n - 1, i => EMPTY);
      EmptyTableIsUnoccupied(n - 1);
    }
  }

  /** Inserting id 0 into the empty table counts an entry no lookup can ever return. */
  lemma ZeroIdBreaksCounter(q: nat, t: nat)
    ensures var s := seq(SIZE, i => EMPTY); var (s', n) := Apply(s, Occupied(s), Insert(q, 0, t));
            n == 1 && Occupied(s') == 0
  {
    EmptyTableIsUnoccupied(SIZE);
    OccupiedUpdate(seq(SIZE, i => EMPTY), Slot(q), Entry(0, t, q));
  }

  class Tracker {
    const entries: array<Entry>
    var count: nat
    ghost var ops: seq<Op>

    ghost predicate Valid()
      reads this, entries
    {
      entries.Length == SIZE && Ran(ops) == (entries[..], count)
    }

    constructor ()
      ensures Valid() && fresh(entries) && ops == [] && count == 0
    {
      entries := new Entry[SIZE](i => EMPTY);
      count := 0;
      ops := [];
      new;
      assert entries[..] == seq(SIZE, i => EMPTY);
    }

    method InsertSeq(seqNo: nat, connId: nat, now: nat)
      requires Valid()
      modifies this, entries
      ensures Valid() && ops == old(ops) + [Insert(seqNo, connId, now)]
      ensures (entries[..], count) == Apply(old(entries[..]), old(count), Insert(seqNo, connId, now))
    {
      var idx := seqNo % SIZE;
      if entries[idx].connId == 0 {
        count := count + 1;
      }
      entries[idx] := Entry(connId, now, seqNo);
      ops := ops + [Insert(seqNo, connId, now)];
      assert ops[..|ops| - 1] == old(ops);
      assert entries[..] == old(entries[..])[idx := Entry(connId, now, seqNo)];
    }

    method Get(seqNo: nat, now: nat) returns (owner: Option<nat>)
      requires Valid()
      ensures owner == Lookup(ops, seqNo, now)
    {
      var e := entries[seqNo % SIZE];
      TableIsWhatIsHeld(ops, seqNo % SIZE);
      if e.connId != 0 && e.seqNo == seqNo && !(SatSub(now, e.at) > MAX_AGE_MS) {
        return Some(e.connId);
      }
      return None;
    }

    method RemoveConnection(connId: nat)
      requires Valid()
      modifies this, entries
      ensures Valid() && ops == old(ops) + [Remove(connId)]
      ensures (entries[..], count) == Apply(old(entries[..]), old(count), Remove(connId))
    {
      ClearOwned(connId);
      ops := ops + [Remove(connId)];
      assert ops[..|ops| - 1] == old(ops);
    }

    /** The sweep over the whole table. */
    method ClearOwned(connId: nat)
      requires entries.Length == SIZE
      modifies entries, this`count
      ensures entries[..] == Removed(old(entries[..]), connId)
      ensures count == SatSub(old(count), Matches(old(entries[..]), connId))
    {
      ghost var was := entries[..];
      var i := 0;
      while i < SIZE
        invariant 0 <= i <= SIZE
        invariant entries[i..] == was[i..]
        invariant forall j | 0 <= j < i :: entries[j] == if was[j].connId == connId then EMPTY else was[j]
        invariant SatSub(count, Matches(was[i..], connId)) == SatSub(old(count), Matches(was, connId))
      {
        assert was[i..][1..] == was[i + 1..] && was[i..][0] == was[i] == entries[i..][0];
        if entries[i].connId == connId {
          entries[i] := EMPTY;
          count := SatSub(count, 1);
        }
        i := i + 1;
      }
      forall j | 0 <= j < SIZE
        ensures entries[j] == Removed(was, connId)[j]
      {
        RemovedAt(was, connId, j);
      }
    }
  }
}
