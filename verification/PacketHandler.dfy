/**
 ACK, SRTLA ACK and NAK processing over the slice of connections, and the flush
 whose failure puts a link into recovery.
 */
module PacketHandler {
  import opened Prelude
  import opened Connection
  import opened Links
  import Fl = Flow
  import Tr = SequenceTracker
  import Bk = Books
  import Sd = Scheduler
  import Serial

  ghost function Accounts(conns: seq<SrtlaConnection>): (acc: seq<Fl.Account>)
    reads conns
    ensures |acc| == |conns| && forall i | 0 <= i < |conns| :: acc[i] == conns[i].account
  {
    seq(|conns|, i requires 0 <= i < |conns| reads conns => conns[i].account)
  }

  ghost function Ids(conns: seq<SrtlaConnection>): (ids: seq<nat>)
    ensures |ids| == |conns| && forall i | 0 <= i < |conns| :: ids[i] == conns[i].id
  {
    seq(|conns|, i requires 0 <= i < |conns| => conns[i].id)
  }

  ghost function Heard(conns: seq<SrtlaConnection>): (heard: seq<bool>)
    reads conns
    ensures |heard| == |conns|
    ensures forall i | 0 <= i < |conns| :: heard[i] == (conns[i].life.connected && conns[i].life.lastReceived.Some?)
  {
    seq(|conns|, i requires 0 <= i < |conns| reads conns => conns[i].life.connected && conns[i].life.lastReceived.Some?)
  }

  method FindById(conns: seq<SrtlaConnection>, id: nat) returns (p: Option<nat>)
    ensures p == Bk.Position(Ids(conns), id, 0)
  {
    var i := 0;
    while i < |conns|
      invariant 0 <= i <= |conns|
      invariant Bk.Position(Ids(conns), id, 0) == Bk.Position(Ids(conns), id, i)
    {
      if conns[i].id == id {
        return Some(i);
      }
      i := i + 1;
    }
    return None;
  }

  /** Offer the NAK to every link in order until one still logs the number. */
  method ScanForNak(conns: seq<SrtlaConnection>, nak: nat, now: nat) returns (k: Option<nat>)
    requires Sd.Distinct(conns)
    modifies conns`account
    ensures k == Bk.FirstHolder(old(Accounts(conns)), nak, 0)
    ensures Accounts(conns) == Bk.Charged(old(Accounts(conns)), k, nak, now)
  {
    var i := 0;
    ghost var acc := Accounts(conns);
    while i < |conns|
      invariant 0 <= i <= |conns|
      invariant forall j | 0 <= j < |conns| :: conns[j].account == acc[j]
      invariant Bk.FirstHolder(acc, nak, 0) == Bk.FirstHolder(acc, nak, i)
    {
      var found := conns[i].HandleNak(nak, now);
      if found {
        return Some(i);
      }
      i := i + 1;
    }
    return None;
  }

  /** Charge a NAK to the link that sent the lost packet. */
  method AttributeNak(conns: seq<SrtlaConnection>, tracker: Tr.Tracker, nak: nat, now: nat) returns (k: Option<nat>)
    requires Sd.Distinct(conns) && tracker.Valid()
    modifies conns`account
    ensures k == Bk.Culprit(old(Accounts(conns)), Ids(conns), tracker.ops, nak, now)
    ensures Accounts(conns) == Bk.Charged(old(Accounts(conns)), k, nak, now)
  {
    var owner := tracker.Get(nak, now);
    var pos := None;
    if owner.Some? {
      pos := FindById(conns, owner.value);
    }
    if pos.Some? {
      var found := conns[pos.value].HandleNak(nak, now);
      k := if found then pos else None;
    } else {
      k := ScanForNak(conns, nak, now);
    }
  }

  /** A cumulative ACK prunes every link's log; only the recorded owner may take a round trip from it. */
  method ApplyCumulativeAck(conns: seq<SrtlaConnection>, tracker: Tr.Tracker, field: int, now: nat)
    requires Sd.Distinct(conns) && tracker.Valid()
    modifies conns`account
    ensures Accounts(conns) == Bk.Acked(old(Accounts(conns)), Ids(conns), tracker.ops, field, now)
  {
    var last := Serial.LastAcked(field);
    var owner := tracker.Get(last, now);
    var i := 0;
    ghost var acc := Accounts(conns);
    while i < |conns|
      invariant 0 <= i <= |conns|
      invariant forall j | 0 <= j < i :: conns[j].account == Fl.SrtAck(acc[j], last, now, owner == Some(conns[j].id))
      invariant forall j | i <= j < |conns| :: conns[j].account == acc[j]
    {
      conns[i].HandleSrtAck(last, now, owner == Some(conns[i].id));
      i := i + 1;
    }
  }

  /** Offer an SRTLA ACK to every link but `skip`, in order, until one has the number. */
  method ScanForMatch(conns: seq<SrtlaConnection>, skip: nat, seqNo: nat, classic: bool, now: nat)
      returns (ghost k: Option<nat>)
    requires Sd.Distinct(conns)
    modifies conns`account
    ensures k == Bk.FirstMatch(old(Accounts(conns)), seqNo, skip, 0)
    ensures Accounts(conns)
            == if k.Some? then
                 old(Accounts(conns))[k.value := Fl.SrtlaAck(old(Accounts(conns))[k.value], seqNo, classic, now)]
               else old(Accounts(conns))
  {
    var i := 0;
    ghost var acc := Accounts(conns);
    while i < |conns|
      invariant 0 <= i <= |conns|
      invariant forall j | 0 <= j < |conns| :: conns[j].account == acc[j]
      invariant Bk.FirstMatch(acc, seqNo, skip, 0) == Bk.FirstMatch(acc, seqNo, skip, i)
    {
      if i != skip {
        var found := conns[i].HandleSrtlaAckSpecific(seqNo, classic, now);
        if found {
          return Some(i);
        }
      }
      i := i + 1;
    }
    return None;
  }

  /** Credit an SRTLA ACK to the arrival link first, then to the first other link that has the number. */
  method MatchSrtlaAck(conns: seq<SrtlaConnection>, arrival: nat, seqNo: nat, classic: bool, now: nat)
    requires Sd.Distinct(conns) && arrival < |conns|
    modifies conns`account
    ensures Accounts(conns) == Bk.Credited(old(Accounts(conns)), arrival, seqNo, classic, now)
  {
    var found := conns[arrival].HandleSrtlaAckSpecific(seqNo, classic, now);
    if !found {
      assert Accounts(conns) == old(Accounts(conns));
      ghost var k := ScanForMatch(conns, arrival, seqNo, classic, now);
    }
  }

  method LiftAt(conns: seq<SrtlaConnection>, i: nat)
    requires Sd.Distinct(conns) && i < |conns|
    modifies conns`account
    ensures Accounts(conns) == old(Accounts(conns))[i := Fl.GlobalAck(old(Accounts(conns))[i], old(Heard(conns))[i])]
    ensures Heard(conns) == old(Heard(conns))
  {
    conns[i].HandleSrtlaAckGlobal();
  }

  /** Every SRTLA ACK lifts the window of every link that is up and has been heard from. */
  method LiftWindows(conns: seq<SrtlaConnection>)
    requires Sd.Distinct(conns)
    modifies conns`account
    ensures Accounts(conns) == Bk.Lifted(old(Accounts(conns)), old(Heard(conns)))
  {
    ghost var acc, heard := Accounts(conns), Heard(conns);
    ghost var lifted := Bk.Lifted(acc, heard);
    var i := 0;
    FrontierDone(acc, lifted);
    while i < |conns|
      invariant 0 <= i <= |conns| && Heard(conns) == heard
      invariant Accounts(conns) == lifted[..i] + acc[i..]
    {
      Frontier(acc, lifted, i);
      LiftAt(conns, i);
      i := i + 1;
    }
  }

  method ApplySrtlaAck(conns: seq<SrtlaConnection>, arrival: nat, seqNo: nat, classic: bool, now: nat)
    requires Sd.Distinct(conns) && arrival < |conns|
    modifies conns`account
    ensures Accounts(conns)
            == Bk.Lifted(Bk.Credited(old(Accounts(conns)), arrival, seqNo, classic, now), old(Heard(conns)))
  {
    MatchSrtlaAck(conns, arrival, seqNo, classic, now);
    assert Heard(conns) == old(Heard(conns));
    LiftWindows(conns);
  }

  /** What a flush leaves of a link. */
  function Flushed(l: Link, sent: bool): Link {
    var f := l.(account := Fl.TakeBatch(l.account));
    if sent then f else Links.MarkForRecovery(f)
  }

  /** Flush one link; a refused batch puts the link into recovery and strips its sequence ownership. */
  method FlushConnection(c: SrtlaConnection, tracker: Tr.Tracker, sent: bool)
    requires tracker.Valid()
    modifies c, tracker, tracker.entries
    ensures tracker.Valid() && tracker.ops == old(tracker.ops) + if sent then [] else [Tr.Remove(c.id)]
    ensures c.View() == Flushed(old(c.View()), sent)
  {
    var batch := c.TakeBatch();
    if !sent {
      RecoverConnection(c, tracker);
    }
  }

  method RecoverConnection(c: SrtlaConnection, tracker: Tr.Tracker)
    requires tracker.Valid()
    modifies c, tracker, tracker.entries
    ensures tracker.Valid() && tracker.ops == old(tracker.ops) + [Tr.Remove(c.id)]
    ensures c.View() == Links.MarkForRecovery(old(c.View()))
  {
    c.MarkForRecovery();
    tracker.RemoveConnection(c.id);
  }

  // ----- sending -----

  function PayloadOf(seqNo: Option<nat>, at: nat): Fl.Queued {
    if seqNo.Some? then Fl.Tracked(seqNo.value, at) else Fl.Untracked(at)
  }

  /** Queue a payload and record its owner at once, before it is flushed. */
  method QueueOn(c: SrtlaConnection, tracker: Tr.Tracker, seqNo: Option<nat>, at: nat)
    requires tracker.Valid()
    modifies c, tracker, tracker.entries
    ensures tracker.Valid()
    ensures tracker.ops == old(tracker.ops) + if seqNo.Some? then [Tr.Insert(seqNo.value, c.id, at)] else []
    ensures c.View() == old(c.View()).(account := Fl.Enqueue(old(c.account), PayloadOf(seqNo, at)))
  {
    c.QueueDataPacket(PayloadOf(seqNo, at));
    if seqNo.Some? {
      tracker.InsertSeq(seqNo.value, c.id, at);
    }
  }

  /** Route a payload to the chosen link, and flush a full batch. */
  method ForwardViaConnection(c: SrtlaConnection, tracker: Tr.Tracker, seqNo: Option<nat>, at: nat, full: bool,
                              sent: bool)
    requires tracker.Valid()
    modifies c, tracker, tracker.entries
    ensures tracker.Valid()
    ensures var queued := old(c.View()).(account := Fl.Enqueue(old(c.account), PayloadOf(seqNo, at)));
            c.View() == if full then Flushed(queued, sent) else queued
    ensures var known := old(tracker.ops) + if seqNo.Some? then [Tr.Insert(seqNo.value, c.id, at)] else [];
            tracker.ops == if full && !sent then known + [Tr.Remove(c.id)] else known
  {
    QueueOn(c, tracker, seqNo, at);
    if full {
      FlushConnection(c, tracker, sent);
    }
  }

  /**
   What the outside decides about one link's duplicate: whether it is its turn, whether its
   batch is full, whether that goes out.
   */
  datatype Copy = Copy(due: bool, full: bool, sent: bool)

  /** Held out of the rotation, by the stall gate or the quality exclusion, but connected. */
  predicate TakesCopies(l: Link) {
    (l.guard.gated || l.excluded) && l.life.connected
  }

  function Copied(l: Link, seqNo: nat, at: nat, x: Copy): Link {
    if !TakesCopies(l) || !x.due then l else
    var q := l.(account := Fl.QueueProbe(l.account, seqNo, at));
    if x.full then Flushed(q, x.sent) else q
  }

  method CopyTo(c: SrtlaConnection, tracker: Tr.Tracker, seqNo: nat, at: nat, x: Copy)
    requires tracker.Valid()
    modifies c, tracker, tracker.entries
    ensures tracker.Valid() && c.View() == Copied(old(c.View()), seqNo, at, x)
    ensures OnlyRemovals(old(tracker.ops), tracker.ops)
  {
    if !(c.guard.gated || c.excluded) || !c.life.connected || !x.due {
      return;
    }
    c.QueueProbePacket(seqNo, at);
    if x.full {
      FlushConnection(c, tracker, x.sent);
    }
  }

  /** From `was` on, the ring has only dropped owners. */
  predicate OnlyRemovals(was: seq<Tr.Op>, ops: seq<Tr.Op>) {
    was <= ops && forall k | |was| <= k < |ops| :: ops[k].Remove?
  }

  /** Every link but the chosen one, offered its copy. */
  function CopiedAll(ls: seq<Link>, chosen: nat, seqNo: nat, at: nat, xs: seq<Copy>): (ms: seq<Link>)
    requires |xs| == |ls|
    ensures |ms| == |ls|
  {
    seq(|ls|, i requires 0 <= i < |ls| => if i == chosen then ls[i] else Copied(ls[i], seqNo, at, xs[i]))
  }

  method CopyAt(conns: seq<SrtlaConnection>, i: nat, chosen: nat, tracker: Tr.Tracker, seqNo: nat, at: nat, x: Copy)
    requires Sd.Distinct(conns) && i < |conns| && tracker.Valid()
    modifies conns[i], tracker, tracker.entries
    ensures tracker.Valid() && OnlyRemovals(old(tracker.ops), tracker.ops)
    ensures var l := old(Sd.Views(conns))[i];
            Sd.Views(conns) == old(Sd.Views(conns))[i := if i == chosen then l else Copied(l, seqNo, at, x)]
  {
    if i != chosen {
      CopyTo(conns[i], tracker, seqNo, at, x);
    }
  }

  /**
   Duplicate a routed packet onto every other connected link that is held out and whose
   turn it is.  The ring never learns of a copy, so the packet stays charged to the link
   that carries it.
   */
  method SendStallProbes(conns: seq<SrtlaConnection>, chosen: nat, tracker: Tr.Tracker, seqNo: nat, at: nat,
                         xs: seq<Copy>)
    requires Sd.Distinct(conns) && |xs| == |conns| && tracker.Valid()
    modifies conns, tracker, tracker.entries
    ensures tracker.Valid() && OnlyRemovals(old(tracker.ops), tracker.ops)
    ensures Sd.Views(conns) == CopiedAll(old(Sd.Views(conns)), chosen, seqNo, at, xs)
  {
    ghost var ls, ops := Sd.Views(conns), tracker.ops;
    ghost var after := CopiedAll(ls, chosen, seqNo, at, xs);
    FrontierDone(ls, after);
    var i := 0;
    while i < |conns|
      invariant 0 <= i <= |conns| && tracker.Valid() && OnlyRemovals(ops, tracker.ops)
      invariant Sd.Views(conns) == after[..i] + ls[i..]
    {
      Frontier(ls, after, i);
      CopyAt(conns, i, chosen, tracker, seqNo, at, xs[i]);
      i := i + 1;
    }
  }
}
