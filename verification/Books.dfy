/**
 Bond-wide accounting: every link's packet and probe log together with the
 sequence ring, under forwards, probes, flushes, ACKs, NAKs and resets.  Two
 history counters, what was ever registered and what was ever charged, make the
 conservation law statable.
 */
module Books {
  import opened Prelude
  import Fl = Flow
  import Tr = SequenceTracker
  import Serial

  datatype Ledger = Ledger(
    accounts: seq<Fl.Account>,
    ids: seq<nat>,
    ops: seq<Tr.Op>,
    registered: multiset<int>,
    charged: multiset<int>)

  datatype Entry =
    | Forward(link: nat, payload: Option<nat>, at: nat)
    | Probe(link: nat, seqNo: nat, at: nat)
    | Flush(link: nat, sent: bool)
    | CumulativeAck(field: int, now: nat)
    | SrtlaAck(link: nat, seqNo: nat, classic: bool, now: nat, heard: seq<bool>)
    | Nak(seqNo: nat, now: nat)
    | KeepaliveSent(link: nat, now: nat)
    | KeepaliveEcho(link: nat, stamp: Option<nat>, now: nat)
    | Recovery(link: nat)
    | Reconnect(link: nat)
    | Registered(link: nat)

  // ----- who answers for a sequence -----

  /** First link from `from` on carrying `id`. */
  function Position(ids: seq<nat>, id: nat, from: nat): (p: Option<nat>)
    requires from <= |ids|
    ensures p.Some? ==> from <= p.value < |ids| && ids[p.value] == id
    decreases |ids| - from
  {
    if from == |ids| then None else if ids[from] == id then Some(from) else Position(ids, id, from + 1)
  }

  /** First link from `from` on that still logs `s`. */
  function FirstHolder(acc: seq<Fl.Account>, s: int, from: nat): (p: Option<nat>)
    requires from <= |acc|
    ensures p.Some? ==> from <= p.value < |acc| && s in acc[p.value].packets
    decreases |acc| - from
  {
    if from == |acc| then None else if s in acc[from].packets then Some(from) else FirstHolder(acc, s, from + 1)
  }

  /** First link from `from` on, other than `skip`, that matches an SRTLA ACK for `s`. */
  function FirstMatch(acc: seq<Fl.Account>, s: int, skip: nat, from: nat): (p: Option<nat>)
    requires from <= |acc|
    ensures p.Some? ==> from <= p.value < |acc| && p.value != skip && Fl.Matches(acc[p.value], s)
    decreases |acc| - from
  {
    if from == |acc| then None
    else if from != skip && Fl.Matches(acc[from], s) then Some(from)
    else FirstMatch(acc, s, skip, from + 1)
  }

  /** The link a NAK is charged to, if any: the tracked owner or nobody, and a log scan only for untracked numbers. */
  function Culprit(acc: seq<Fl.Account>, ids: seq<nat>, ops: seq<Tr.Op>, s: nat, now: nat): (p: Option<nat>)
    requires |ids| == |acc|
    ensures p.Some? ==> p.value < |acc| && s in acc[p.value].packets
  {
    var owner := Tr.Lookup(ops, s, now);
    var pos := if owner.Some? then Position(ids, owner.value, 0) else None;
    if pos.Some? then (if s in acc[pos.value].packets then pos else None) else FirstHolder(acc, s, 0)
  }

  /** The accounts after a NAK. */
  function Charged(acc: seq<Fl.Account>, k: Option<nat>, s: nat, now: nat): seq<Fl.Account>
    requires k.Some? ==> k.value < |acc|
  {
    if k.Some? then acc[k.value := Fl.Nak(acc[k.value], s, now)] else acc
  }

  /** The link an SRTLA ACK that arrived on `arrival` is matched on. */
  function Matched(acc: seq<Fl.Account>, arrival: nat, s: int): (p: Option<nat>)
    requires arrival < |acc|
    ensures p.Some? ==> p.value < |acc| && Fl.Matches(acc[p.value], s)
  {
    if Fl.Matches(acc[arrival], s) then Some(arrival) else FirstMatch(acc, s, arrival, 0)
  }

  // ----- steps -----

  function TrackedNumbers(q: seq<Fl.Queued>): multiset<int> {
    if q == [] then multiset{}
    else TrackedNumbers(q[..|q| - 1]) + if q[|q| - 1].Tracked? then multiset{q[|q| - 1].seqNo} else multiset{}
  }

  function Acked(acc: seq<Fl.Account>, ids: seq<nat>, ops: seq<Tr.Op>, field: int, now: nat): seq<Fl.Account>
    requires |ids| == |acc|
  {
    var ack := Serial.LastAcked(field);
    seq(|acc|, i requires 0 <= i < |acc| => Fl.SrtAck(acc[i], ack, now, Tr.Lookup(ops, ack, now) == Some(ids[i])))
  }

  function Credited(acc: seq<Fl.Account>, arrival: nat, s: int, classic: bool, now: nat): seq<Fl.Account>
    requires arrival < |acc|
  {
    var k := Matched(acc, arrival, s);
    if k.Some? then acc[k.value := Fl.SrtlaAck(acc[k.value], s, classic, now)] else acc
  }

  function Lifted(acc: seq<Fl.Account>, heard: seq<bool>): seq<Fl.Account>
    requires |heard| == |acc|
  {
    seq(|acc|, i requires 0 <= i < |acc| => Fl.GlobalAck(acc[i], heard[i]))
  }

  /** Link `i` is wiped and the ring stops naming it. */
  function Wiped(l: Ledger, i: nat, a: Fl.Account): Ledger
    requires i < |l.accounts| == |l.ids|
  {
    l.(accounts := l.accounts[i := a], ops := l.ops + [Tr.Remove(l.ids[i])])
  }

  predicate WellFormed(l: Ledger, e: Entry) {
    && |l.ids| == |l.accounts|
    && match e
       case Forward(i, s, _) => i < |l.accounts| && (s.Some? ==> s.value < Serial.SPACE)
       case Probe(i, s, _) => i < |l.accounts| && s < Serial.SPACE
       case Flush(i, _) => i < |l.accounts|
       case CumulativeAck(_, _) => true
       case SrtlaAck(i, _, _, _, heard) => i < |l.accounts| && |heard| == |l.accounts|
       case Nak(_, _) => true
       case KeepaliveSent(i, _) => i < |l.accounts|
       case KeepaliveEcho(i, _, _) => i < |l.accounts|
       case Recovery(i) => i < |l.accounts|
       case Reconnect(i) => i < |l.accounts|
       case Registered(i) => i < |l.accounts|
  }

  function Post(l: Ledger, e: Entry): Ledger
    requires WellFormed(l, e)
  {
    match e
    case Forward(i, s, t) =>
      var q := if s.Some? then Fl.Tracked(s.value, t) else Fl.Untracked(t);
      l.(accounts := l.accounts[i := Fl.Enqueue(l.accounts[i], q)],
         ops := if s.Some? then l.ops + [Tr.Insert(s.value, l.ids[i], t)] else l.ops)
    case Probe(i, s, t) => l.(accounts := l.accounts[i := Fl.QueueProbe(l.accounts[i], s, t)])
    case Flush(i, sent) =>
      var a := Fl.TakeBatch(l.accounts[i]);
      var r := l.(registered := l.registered + TrackedNumbers(l.accounts[i].queue));
      if sent then r.(accounts := l.accounts[i := a]) else Wiped(r, i, Fl.ResetCore(a))
    case CumulativeAck(f, now) => l.(accounts := Acked(l.accounts, l.ids, l.ops, f, now))
    case SrtlaAck(i, s, c, now, heard) => l.(accounts := Lifted(Credited(l.accounts, i, s, c, now), heard))
    case Nak(s, now) =>
      var k := Culprit(l.accounts, l.ids, l.ops, s, now);
      l.(accounts := Charged(l.accounts, k, s, now), charged := if k.Some? then l.charged + multiset{s} else l.charged)
    case KeepaliveSent(i, now) => l.(accounts := l.accounts[i := Fl.KeepaliveSent(l.accounts[i], now)])
    case KeepaliveEcho(i, t, now) => l.(accounts := l.accounts[i := Fl.KeepaliveEcho(l.accounts[i], t, now)])
    case Recovery(i) => Wiped(l, i, Fl.ResetCore(l.accounts[i]))
    case Reconnect(i) => Wiped(l, i, Fl.ResetForReconnect(l.accounts[i]))
    case Registered(i) => l.(accounts := l.accounts[i := Fl.ClearPreRegistration(l.accounts[i])])
  }

  // ----- counting holders -----

  /** How many links log `s`. */
  function Holders(acc: seq<Fl.Account>, s: int): nat {
    if acc == [] then 0 else Holders(acc[..|acc| - 1], s) + if s in acc[|acc| - 1].packets then 1 else 0
  }

  lemma {:induction false} HoldersShrink(acc: seq<Fl.Account>, bs: seq<Fl.Account>, s: int)
    requires |acc| == |bs| && forall i | 0 <= i < |acc| :: s in bs[i].packets ==> s in acc[i].packets
    ensures Holders(bs, s) <= Holders(acc, s)
  {
    if acc != [] {
      HoldersShrink(acc[..|acc| - 1], bs[..|bs| - 1], s);
    }
  }

  lemma {:induction false} HoldersUpdate(acc: seq<Fl.Account>, i: nat, a: Fl.Account, s: int)
    requires i < |acc|
    ensures Holders(acc[i := a], s)
            == Holders(acc, s) - (if s in acc[i].packets then 1 else 0) + if s in a.packets then 1 else 0
  {
    var n := |acc| - 1;
    if i == n {
      assert acc[i := a][..n] == acc[..n];
    } else {
      HoldersUpdate(acc[..n], i, a, s);
      assert acc[i := a][..n] == acc[..n][i := a];
    }
  }

  lemma {:induction false} TrackedAreNumbered(q: seq<Fl.Queued>, s: int)
    ensures (exists x | x in q :: x.Tracked? && x.seqNo == s) <==> s in TrackedNumbers(q)
  {
    if q != [] {
      var p := q[..|q| - 1];
      assert q == p + [q[|q| - 1]];
      TrackedAreNumbered(p, s);
    }
  }

  // ----- the invariant -----

  /** Every account is sound, and nothing is charged or logged that was not registered. */
  ghost predicate Balanced(l: Ledger) {
    && |l.ids| == |l.accounts|
    && (forall i | 0 <= i < |l.accounts| :: Fl.Sound(l.accounts[i]))
    && (forall s: int :: l.charged[s] + Holders(l.accounts, s) <= l.registered[s])
  }

  lemma {:induction false} FirstMatchIsComplete(acc: seq<Fl.Account>, s: int, skip: nat, from: nat)
    requires from <= |acc|
    ensures FirstMatch(acc, s, skip, from).None? ==> forall i | from <= i < |acc| && i != skip :: !Fl.Matches(acc[i], s)
    decreases |acc| - from
  {
    if from < |acc| {
      FirstMatchIsComplete(acc, s, skip, from + 1);
    }
  }

  /** A link whose log only loses numbers keeps the books balanced. */
  lemma ShrinkKeepsBalance(l: Ledger, m: Ledger)
    requires Balanced(l) && m.ids == l.ids && m.registered == l.registered && m.charged == l.charged
    requires |m.accounts| == |l.accounts|
    requires forall i | 0 <= i < |l.accounts| ::
               Fl.Sound(m.accounts[i]) && m.accounts[i].packets.Keys <= l.accounts[i].packets.Keys
    ensures Balanced(m)
  {
    forall s: int
      ensures m.charged[s] + Holders(m.accounts, s) <= m.registered[s]
    {
      forall i | 0 <= i < |l.accounts|
        ensures s in m.accounts[i].packets ==> s in l.accounts[i].packets
      {
        assert m.accounts[i].packets.Keys <= l.accounts[i].packets.Keys;
      }
      HoldersShrink(l.accounts, m.accounts, s);
    }
  }

  lemma FlushKeepsBalance(l: Ledger, i: nat, sent: bool)
    requires Balanced(l) && i < |l.accounts|
    ensures Balanced(Post(l, Flush(i, sent)))
  {
    var a := l.accounts[i];
    var b := Fl.TakeBatch(a);
    Fl.RegisterAllSound(a.(queue := []), a.queue);
    Fl.RegisterAllKeys(a.(queue := []), a.queue);
    Fl.RegisterAllFrame(a.(queue := []), a.queue);
    var m := Post(l, Flush(i, sent));
    forall s: int
      ensures m.charged[s] + Holders(m.accounts, s) <= m.registered[s]
    {
      HoldersUpdate(l.accounts, i, m.accounts[i], s);
      TrackedAreNumbered(a.queue, s);
    }
  }

  lemma NakKeepsBalance(l: Ledger, s: nat, now: nat)
    requires Balanced(l)
    ensures Balanced(Post(l, Nak(s, now)))
  {
    var k := Culprit(l.accounts, l.ids, l.ops, s, now);
    if k.Some? {
      var a := Fl.Nak(l.accounts[k.value], s, now);
      var m := Post(l, Nak(s, now));
      forall x: int
        ensures m.charged[x] + Holders(m.accounts, x) <= m.registered[x]
      {
        HoldersUpdate(l.accounts, k.value, a, x);
      }
    }
  }

  /** What an SRTLA ACK leaves of link `i`: a sound account with no new numbers in its log. */
  lemma CreditedAccount(acc: seq<Fl.Account>, arrival: nat, s: int, classic: bool, now: nat, heard: bool, i: nat)
    requires arrival < |acc| && i < |acc| && Fl.Sound(acc[i])
    ensures |Credited(acc, arrival, s, classic, now)| == |acc|
    ensures var b := Fl.GlobalAck(Credited(acc, arrival, s, classic, now)[i], heard);
            Fl.Sound(b) && b.packets.Keys <= acc[i].packets.Keys && b.queue == acc[i].queue
  {
    Fl.SrtlaAckSound(acc[i], s, classic, now);
  }

  lemma SrtlaAckKeepsBalance(l: Ledger, e: Entry)
    requires Balanced(l) && WellFormed(l, e) && e.SrtlaAck?
    ensures Balanced(Post(l, e))
  {
    var m := Post(l, e);
    forall i | 0 <= i < |l.accounts|
      ensures Fl.Sound(m.accounts[i]) && m.accounts[i].packets.Keys <= l.accounts[i].packets.Keys
    {
      CreditedAccount(l.accounts, e.link, e.seqNo, e.classic, e.now, e.heard[i], i);
    }
    ShrinkKeepsBalance(l, m);
  }

  lemma AckKeepsBalance(l: Ledger, e: Entry)
    requires Balanced(l) && WellFormed(l, e) && e.CumulativeAck?
    ensures Balanced(Post(l, e))
  {
    var m := Post(l, e);
    var ack := Serial.LastAcked(e.field);
    forall i | 0 <= i < |l.accounts|
      ensures Fl.Sound(m.accounts[i]) && m.accounts[i].packets.Keys <= l.accounts[i].packets.Keys
    {
      Fl.SrtAckSound(l.accounts[i], ack, e.now, Tr.Lookup(l.ops, ack, e.now) == Some(l.ids[i]));
    }
    ShrinkKeepsBalance(l, m);
  }

  lemma ForwardKeepsBalance(l: Ledger, e: Entry)
    requires Balanced(l) && WellFormed(l, e) && e.Forward?
    ensures Balanced(Post(l, e))
  {
    ShrinkKeepsBalance(l, Post(l, e));
  }

  lemma ProbeKeepsBalance(l: Ledger, e: Entry)
    requires Balanced(l) && WellFormed(l, e) && e.Probe?
    ensures Balanced(Post(l, e))
  {
    Fl.RecordProbeBounded(l.accounts[e.link].probes, e.seqNo, e.at);
    ShrinkKeepsBalance(l, Post(l, e));
  }

  lemma KeepaliveKeepsBalance(l: Ledger, e: Entry)
    requires Balanced(l) && WellFormed(l, e) && (e.KeepaliveSent? || e.KeepaliveEcho?)
    ensures Balanced(Post(l, e))
  {
    ShrinkKeepsBalance(l, Post(l, e));
  }

  /** Recovery, reconnect and registration empty a log. */
  lemma ResetKeepsBalance(l: Ledger, e: Entry)
    requires Balanced(l) && WellFormed(l, e) && (e.Recovery? || e.Reconnect? || e.Registered?)
    ensures Balanced(Post(l, e))
  {
    ShrinkKeepsBalance(l, Post(l, e));
  }

  /** Every posting keeps the books balanced. */
  lemma PostKeepsBalance(l: Ledger, e: Entry)
    requires Balanced(l) && WellFormed(l, e)
    ensures Balanced(Post(l, e))
  {
    match e {
      case Forward(_, _, _) => ForwardKeepsBalance(l, e);
      case Probe(_, _, _) => ProbeKeepsBalance(l, e);
      case Flush(i, sent) => FlushKeepsBalance(l, i, sent);
      case CumulativeAck(_, _) => AckKeepsBalance(l, e);
      case SrtlaAck(_, _, _, _, _) => SrtlaAckKeepsBalance(l, e);
      case Nak(s, now) => NakKeepsBalance(l, s, now);
      case KeepaliveSent(_, _) => KeepaliveKeepsBalance(l, e);
      case KeepaliveEcho(_, _, _) => KeepaliveKeepsBalance(l, e);
      case _ => ResetKeepsBalance(l, e);
    }
  }

  // ----- runs -----

  ghost predicate Open(l: Ledger) {
    && |l.ids| == |l.accounts| && l.ops == [] && l.registered == multiset{} && l.charged == multiset{}
    && forall i | 0 <= i < |l.accounts| :: l.accounts[i] == Fl.COLD
  }

  ghost predicate Run(ls: seq<Ledger>, es: seq<Entry>) {
    && |ls| == |es| + 1 && Open(ls[0])
    && forall n | 0 <= n < |es| :: WellFormed(ls[n], es[n]) && ls[n + 1] == Post(ls[n], es[n])
  }

  lemma {:induction false} NobodyHoldsCold(acc: seq<Fl.Account>, s: int)
    requires forall i | 0 <= i < |acc| :: acc[i] == Fl.COLD
    ensures Holders(acc, s) == 0
  {
    if acc != [] {
      NobodyHoldsCold(acc[..|acc| - 1], s);
    }
  }

  /**
   Over any run: on every link the in-flight count equals the size of its packet log
   and the probe log holds at most 128 entries, and the NAKs charged for a number,
   plus the links still logging it, never exceed its registrations.
   */
  lemma {:induction false} BooksAlwaysBalance(ls: seq<Ledger>, es: seq<Entry>, n: nat)
    requires Run(ls, es) && n <= |es|
    ensures Balanced(ls[n])
  {
    if n == 0 {
      forall s: int
        ensures Holders(ls[0].accounts, s) == 0
      {
        NobodyHoldsCold(ls[0].accounts, s);
      }
    } else {
      BooksAlwaysBalance(ls, es, n - 1);
      PostKeepsBalance(ls[n - 1], es[n - 1]);
    }
  }

  /** The conservation law on its own: no number is ever charged more often than it was registered. */
  lemma NaksNeverExceedRegistrations(ls: seq<Ledger>, es: seq<Entry>, n: nat, s: int)
    requires Run(ls, es) && n <= |es|
    ensures ls[n].charged[s] <= ls[n].registered[s]
  {
    BooksAlwaysBalance(ls, es, n);
    assert ls[n].charged[s] + Holders(ls[n].accounts, s) <= ls[n].registered[s];
  }

  // ----- attribution -----

  /**
   A NAK changes at most one link, by exactly one logged number, and if the ring knows a
   link of the bond it is that one or nobody.
   */
  lemma NakBlamesOne(l: Ledger, s: nat, now: nat)
    requires |l.ids| == |l.accounts|
    ensures var m := Post(l, Nak(s, now)); var k := Culprit(l.accounts, l.ids, l.ops, s, now);
            |m.accounts| == |l.accounts|
            && (forall i | 0 <= i < |l.accounts| && k != Some(i) :: m.accounts[i] == l.accounts[i])
            && (k.Some? ==> k.value < |l.accounts| && s in l.accounts[k.value].packets
                            && m.accounts[k.value].packets == l.accounts[k.value].packets - {s})
            && (k.Some? && Tr.Lookup(l.ops, s, now).Some? && Tr.Lookup(l.ops, s, now).value in l.ids ==>
                  l.ids[k.value] == Tr.Lookup(l.ops, s, now).value)
  {
    if Tr.Lookup(l.ops, s, now).Some? {
      PositionFinds(l.ids, Tr.Lookup(l.ops, s, now).value, 0);
    }
  }

  lemma {:induction false} PositionFinds(ids: seq<nat>, id: nat, from: nat)
    requires from <= |ids|
    ensures Position(ids, id, from).None? <==> id !in ids[from..]
    decreases |ids| - from
  {
    if from < |ids| {
      PositionFinds(ids, id, from + 1);
      assert ids[from..] == [ids[from]] + ids[from + 1..];
    }
  }

  /** The logs of a link, which is what an ACK or NAK may consume. */
  function Logs(a: Fl.Account): (Fl.Log, Fl.Log) {
    (a.packets, a.probes)
  }

  lemma MatchedIsComplete(acc: seq<Fl.Account>, arrival: nat, s: int)
    requires arrival < |acc|
    ensures Matched(acc, arrival, s).None? <==> forall i | 0 <= i < |acc| :: !Fl.Matches(acc[i], s)
  {
    FirstMatchIsComplete(acc, s, arrival, 0);
  }

  /** An SRTLA ACK consumes an entry on at most one link, the arrival link whenever that link has the number. */
  lemma SrtlaAckMatchesOne(l: Ledger, e: Entry)
    requires WellFormed(l, e) && e.SrtlaAck?
    ensures var m := Post(l, e); var k := Matched(l.accounts, e.link, e.seqNo);
            |m.accounts| == |l.accounts|
            && (Fl.Matches(l.accounts[e.link], e.seqNo) ==> k == Some(e.link))
            && (forall i | 0 <= i < |l.accounts| && k != Some(i) :: Logs(m.accounts[i]) == Logs(l.accounts[i]))
            && (k.Some? ==> m.accounts[k.value].lastProofMs == e.now
                            && Logs(m.accounts[k.value]) != Logs(l.accounts[k.value]))
  {
    var k := Matched(l.accounts, e.link, e.seqNo);
    if k.Some? {
      var a, b := l.accounts[k.value], Post(l, e).accounts[k.value];
      assert e.seqNo in a.probes ==> e.seqNo !in b.probes;
      assert e.seqNo !in a.probes ==> e.seqNo in a.packets && e.seqNo !in b.packets;
    }
  }

  // ----- probes stay out of the packet log -----

  /** Numbers a link has been handed as payload. */
  predicate Forwarded(es: seq<Entry>, n: nat, i: nat, s: int)
    requires n <= |es|
  {
    exists k | 0 <= k < n :: es[k].Forward? && es[k].link == i && es[k].payload == Some(s)
  }

  /** Everything logged or queued as tracked on link `i` was forwarded to it. */
  predicate OnlyPayload(a: Fl.Account, es: seq<Entry>, n: nat, i: nat)
    requires n <= |es|
  {
    && (forall s | s in a.packets :: Forwarded(es, n, i, s))
    && (forall q | q in a.queue && q.Tracked? :: Forwarded(es, n, i, q.seqNo))
  }

  /** Where the numbers of account `b` come from, one step after account `a`. */
  predicate Origins(a: Fl.Account, b: Fl.Account, e: Entry, i: nat) {
    && (forall s | s in b.packets :: s in a.packets || exists q | q in a.queue :: q.Tracked? && q.seqNo == s)
    && (forall q | q in b.queue && q.Tracked? ::
          q in a.queue || (e.Forward? && e.link == i && e.payload == Some(q.seqNo)))
  }

  lemma FlushOrigins(a: Fl.Account, e: Entry, i: nat)
    requires Fl.Sound(a)
    ensures Origins(a, Fl.TakeBatch(a), e, i) && Origins(a, Fl.ResetCore(Fl.TakeBatch(a)), e, i)
  {
    Fl.RegisterAllSound(a.(queue := []), a.queue);
    Fl.RegisterAllKeys(a.(queue := []), a.queue);
    Fl.RegisterAllFrame(a.(queue := []), a.queue);
  }

  lemma ShrinkOrigins(a: Fl.Account, b: Fl.Account, e: Entry, i: nat)
    requires b.packets.Keys <= a.packets.Keys && (b.queue == a.queue || b.queue == [])
    ensures Origins(a, b, e, i)
  {
  }

  lemma AccountOrigins(l: Ledger, e: Entry, i: nat)
    requires Balanced(l) && WellFormed(l, e) && i < |l.accounts|
    ensures |Post(l, e).accounts| == |l.accounts| && Origins(l.accounts[i], Post(l, e).accounts[i], e, i)
  {
    var a, b := l.accounts[i], Post(l, e).accounts[i];
    match e {
      case Flush(_, _) => FlushOrigins(a, e, i);
      case SrtlaAck(k, s, c, now, heard) =>
        CreditedAccount(l.accounts, k, s, c, now, heard[i], i);
        ShrinkOrigins(a, b, e, i);
      case Forward(_, _, _) =>
      case Probe(_, _, _) =>
      case _ => ShrinkOrigins(a, b, e, i);
    }
  }

  lemma ForwardedGrows(es: seq<Entry>, n: nat, i: nat, s: int)
    requires n < |es| && Forwarded(es, n, i, s)
    ensures Forwarded(es, n + 1, i, s)
  {
  }

  /**
   On any run, a link's packet log holds only numbers that were forwarded to it as payload:
   probe copies never enter it.
   */
  lemma {:induction false} ProbesStayOut(ls: seq<Ledger>, es: seq<Entry>, n: nat, i: nat)
    requires Run(ls, es) && n <= |es| && i < |ls[n].accounts|
    ensures OnlyPayload(ls[n].accounts[i], es, n, i)
  {
    if n > 0 {
      BooksAlwaysBalance(ls, es, n - 1);
      var l, e := ls[n - 1], es[n - 1];
      assert |Post(l, e).accounts| == |l.accounts|;
      ProbesStayOut(ls, es, n - 1, i);
      AccountOrigins(l, e, i);
      var a, b := l.accounts[i], ls[n].accounts[i];
      forall q | q in b.queue && q.Tracked?
        ensures Forwarded(es, n, i, q.seqNo)
      {
        if q in a.queue {
          ForwardedGrows(es, n - 1, i, q.seqNo);
        } else {
          assert es[n - 1].Forward?;
        }
      }
      forall s | s in b.packets
        ensures Forwarded(es, n, i, s)
      {
        if s !in a.packets {
          var q :| q in a.queue && q.Tracked? && q.seqNo == s;
          assert Forwarded(es, n - 1, i, q.seqNo);
        }
        ForwardedGrows(es, n - 1, i, s);
      }
    }
  }

  // ----- probes over a run -----

  /**
   Recording a probe at `at` drops an outstanding one sent at `sentMs`: the log is full,
   and it is old or all are young.
   */
  predicate Evicts(probes: Fl.Log, at: nat, sentMs: nat) {
    var cutoff := SatSub(at, Fl.PROBE_LOG_MAX_AGE_MS);
    |probes| >= Fl.PROBE_LOG_SOFT_CAP && (sentMs < cutoff || |Fl.Expired(probes, cutoff)| >= Fl.PROBE_LOG_SOFT_CAP)
  }

  /**
   The entries that take probe `s`, sent at `sentMs`, from link `i`: its own ACK, a newer
   probe that overwrites its stamp or evicts it from a full log, and a reset of the link.
   */
  predicate TakesProbe(l: Ledger, e: Entry, i: nat, s: int, sentMs: nat)
    requires WellFormed(l, e) && i < |l.accounts|
  {
    match e
    case SrtlaAck(arrival, t, _, _, _) => t == s && Matched(l.accounts, arrival, t) == Some(i)
    case Probe(k, t, at) => k == i && if t == s then at != sentMs else Evicts(l.accounts[i].probes, at, sentMs)
    case Flush(k, sent) => k == i && !sent
    case Recovery(k) => k == i
    case Reconnect(k) => k == i
    case Registered(k) => k == i
    case _ => false
  }

  /** Link `i` still holds probe `s` with the stamp it was sent with. */
  predicate Answerable(l: Ledger, i: nat, s: int, sentMs: nat) {
    i < |l.accounts| && s in l.accounts[i].probes && l.accounts[i].probes[s] == sentMs
  }

  lemma ProbeRecordKeeps(log: Fl.Log, t: int, at: nat, s: int)
    requires s in log
    ensures var kept := Fl.RecordProbe(log, t, at);
            s in kept && kept[s] == log[s] <==> !(if t == s then at != log[s] else Evicts(log, at, log[s]))
  {
  }

  /** Link `i` after an SRTLA ACK. */
  lemma CreditedAt(acc: seq<Fl.Account>, arrival: nat, s: int, classic: bool, now: nat, i: nat)
    requires arrival < |acc| && i < |acc|
    ensures var c := Credited(acc, arrival, s, classic, now);
            |c| == |acc|
            && c[i] == if Matched(acc, arrival, s) == Some(i) then Fl.SrtlaAck(acc[i], s, classic, now) else acc[i]
  {
  }

  /** The parts of an account an ACK's lift leaves alone. */
  lemma LiftSpares(a: Fl.Account, heard: bool)
    ensures Fl.GlobalAck(a, heard).probes == a.probes && Fl.GlobalAck(a, heard).rtt == a.rtt
  {
  }

  lemma SrtlaAckSparesProbeIff(l: Ledger, e: Entry, i: nat, s: int, sentMs: nat)
    requires WellFormed(l, e) && Answerable(l, i, s, sentMs) && e.SrtlaAck?
    ensures |Post(l, e).accounts| == |l.accounts|
    ensures Answerable(Post(l, e), i, s, sentMs) <==> !TakesProbe(l, e, i, s, sentMs)
  {
    CreditedAt(l.accounts, e.link, e.seqNo, e.classic, e.now, i);
    Fl.SrtlaAckSamples(l.accounts[i], e.seqNo, e.classic, e.now);
    LiftSpares(Credited(l.accounts, e.link, e.seqNo, e.classic, e.now)[i], e.heard[i]);
  }

  lemma OtherSparesProbeIff(l: Ledger, e: Entry, i: nat, s: int, sentMs: nat)
    requires WellFormed(l, e) && Answerable(l, i, s, sentMs) && !e.SrtlaAck? && !e.Probe?
    ensures |Post(l, e).accounts| == |l.accounts|
    ensures Answerable(Post(l, e), i, s, sentMs) <==> !TakesProbe(l, e, i, s, sentMs)
  {
    match e {
      case Flush(k, _) => Fl.RegisterAllFrame(l.accounts[k].(queue := []), l.accounts[k].queue);
      case CumulativeAck(field, now) =>
        var ack := Serial.LastAcked(field);
        Fl.HighestAckAdvances(l.accounts[i], ack, now, Tr.Lookup(l.ops, ack, now) == Some(l.ids[i]));
      case _ =>
    }
  }

  lemma StepSparesProbeIff(l: Ledger, e: Entry, i: nat, s: int, sentMs: nat)
    requires WellFormed(l, e) && Answerable(l, i, s, sentMs)
    ensures |Post(l, e).accounts| == |l.accounts|
    ensures Answerable(Post(l, e), i, s, sentMs) <==> !TakesProbe(l, e, i, s, sentMs)
  {
    if e.SrtlaAck? {
      SrtlaAckSparesProbeIff(l, e, i, s, sentMs);
    } else if e.Probe? {
      ProbeRecordKeeps(l.accounts[i].probes, e.seqNo, e.at, s);
    } else {
      OtherSparesProbeIff(l, e, i, s, sentMs);
    }
  }

  /** Entry `k` of the run takes the probe. */
  predicate Taken(ls: seq<Ledger>, es: seq<Entry>, k: nat, i: nat, s: int, sentMs: nat) {
    k < |es| && k < |ls| && WellFormed(ls[k], es[k]) && i < |ls[k].accounts| && TakesProbe(ls[k], es[k], i, s, sentMs)
  }

  /**
   Over any run, a probe stays answerable with its own send time throughout if and only
   if no entry takes it: cumulative ACKs, NAKs, keepalives, ACKs for other numbers and
   newer probes in a log that is not full never do.
   */
  lemma ProbesSurviveIff(ls: seq<Ledger>, es: seq<Entry>, m: nat, n: nat, i: nat, s: int, sentMs: nat)
    requires Run(ls, es) && m <= n <= |es| && Answerable(ls[m], i, s, sentMs)
    ensures (forall k | m <= k <= n :: Answerable(ls[k], i, s, sentMs)) <==>
              (forall k | m <= k < n :: !Taken(ls, es, k, i, s, sentMs))
  {
    var holds := (k: nat) => k < |ls| && Answerable(ls[k], i, s, sentMs);
    var breaks := (k: nat) => Taken(ls, es, k, i, s, sentMs);
    forall k: nat | m <= k < n
      ensures holds(k) ==> (holds(k + 1) <==> !breaks(k))
    {
      if holds(k) {
        StepSparesProbeIff(ls[k], es[k], i, s, sentMs);
      }
    }
    UnbrokenIff(holds, breaks, m, n);
    assert forall k | m <= k <= n :: holds(k) == Answerable(ls[k], i, s, sentMs);
    assert forall k | m <= k < n :: breaks(k) == Taken(ls, es, k, i, s, sentMs);
  }

  lemma PostKeepsSize(l: Ledger, e: Entry)
    requires WellFormed(l, e)
    ensures |Post(l, e).accounts| == |l.accounts|
  {
  }

  // ----- round trips over a run -----

  /**
   Exactly when an entry gives link `i` a round trip: an SRTLA ACK matched on it, an
   accepted cumulative ACK for a logged number the ring credits to it, or the echo of a
   keepalive when one is due; each with a plausible round trip.
   */
  predicate Credits(l: Ledger, e: Entry, i: nat)
    requires WellFormed(l, e) && i < |l.accounts|
  {
    var a := l.accounts[i];
    match e
    case SrtlaAck(arrival, s, _, now, _) =>
      Matched(l.accounts, arrival, s) == Some(i) && Fl.Plausible(Fl.SentAt(a, s), now)
    case CumulativeAck(field, now) =>
      var ack := Serial.LastAcked(field);
      && Tr.Lookup(l.ops, ack, now) == Some(l.ids[i])
      && Fl.Accepted(a.highestAcked, ack) && ack in a.packets && Fl.Plausible(a.packets[ack], now)
    case KeepaliveEcho(k, stamp, now) => k == i && a.rtt.echoDue && stamp.Some? && Fl.Plausible(stamp.value, now)
    case _ => false
  }

  function Trips(l: Ledger, i: nat): seq<Fl.RoundTrip>
    requires i < |l.accounts|
  {
    l.accounts[i].rtt.trips
  }

  /** One more round trip at the end, or none. */
  predicate Grew(before: seq<Fl.RoundTrip>, after: seq<Fl.RoundTrip>, credited: bool) {
    if credited then |after| == |before| + 1 && before <= after else after == before
  }

  lemma SrtlaAckSamples(l: Ledger, e: Entry, i: nat)
    requires WellFormed(l, e) && i < |l.accounts| && e.SrtlaAck?
    ensures |Post(l, e).accounts| == |l.accounts| && Grew(Trips(l, i), Trips(Post(l, e), i), Credits(l, e, i))
  {
    CreditedAt(l.accounts, e.link, e.seqNo, e.classic, e.now, i);
    Fl.SrtlaAckSamples(l.accounts[i], e.seqNo, e.classic, e.now);
    LiftSpares(Credited(l.accounts, e.link, e.seqNo, e.classic, e.now)[i], e.heard[i]);
  }

  lemma CumulativeAckSamples(l: Ledger, e: Entry, i: nat)
    requires WellFormed(l, e) && i < |l.accounts| && e.CumulativeAck?
    ensures |Post(l, e).accounts| == |l.accounts| && Grew(Trips(l, i), Trips(Post(l, e), i), Credits(l, e, i))
  {
    assert Serial.Normalize(Serial.LastAcked(e.field)) == Serial.LastAcked(e.field);
  }

  lemma StepSamples(l: Ledger, e: Entry, i: nat)
    requires WellFormed(l, e) && i < |l.accounts|
    ensures |Post(l, e).accounts| == |l.accounts| && Grew(Trips(l, i), Trips(Post(l, e), i), Credits(l, e, i))
  {
    match e {
      case Flush(k, _) => Fl.RegisterAllFrame(l.accounts[k].(queue := []), l.accounts[k].queue);
      case SrtlaAck(_, _, _, _, _) => SrtlaAckSamples(l, e, i);
      case CumulativeAck(_, _) => CumulativeAckSamples(l, e, i);
      case _ =>
    }
  }

  /** Entry `k` of the run gives link `i` a round trip. */
  predicate GivesTrip(ls: seq<Ledger>, es: seq<Entry>, k: nat, i: nat) {
    k < |es| && k < |ls| && WellFormed(ls[k], es[k]) && i < |ls[k].accounts| && Credits(ls[k], es[k], i)
  }

  /** How many of the entries from `m` up to `n` give link `i` a round trip. */
  function Earned(ls: seq<Ledger>, es: seq<Entry>, m: nat, n: nat, i: nat): nat
    requires m <= n
  {
    if m == n then 0 else Earned(ls, es, m, n - 1, i) + if GivesTrip(ls, es, n - 1, i) then 1 else 0
  }

  lemma {:induction false} SizeNeverChanges(ls: seq<Ledger>, es: seq<Entry>, n: nat)
    requires Run(ls, es) && n <= |es|
    ensures |ls[n].accounts| == |ls[0].accounts|
  {
    if n > 0 {
      SizeNeverChanges(ls, es, n - 1);
      PostKeepsSize(ls[n - 1], es[n - 1]);
    }
  }

  /**
   A link's estimator hears of exactly the round trips the link earned, in order: what it
   has heard grows by one per credited entry and at no other time.
   */
  lemma RoundTripsAreEarned(ls: seq<Ledger>, es: seq<Entry>, m: nat, n: nat, i: nat)
    requires Run(ls, es) && m <= n <= |es| && i < |ls[m].accounts|
    ensures i < |ls[n].accounts|
    ensures Trips(ls[m], i) <= Trips(ls[n], i) && |Trips(ls[n], i)| == |Trips(ls[m], i)| + Earned(ls, es, m, n, i)
  {
    SizeNeverChanges(ls, es, m);
    forall k | 0 <= k < |ls|
      ensures i < |ls[k].accounts|
    {
      SizeNeverChanges(ls, es, k);
    }
    forall k | 0 <= k < |es|
      ensures Grew(Trips(ls[k], i), Trips(ls[k + 1], i), GivesTrip(ls, es, k, i))
    {
      StepSamples(ls[k], es[k], i);
    }
    TripsAddUp(ls, es, m, n, i);
  }

  lemma {:induction false} TripsAddUp(ls: seq<Ledger>, es: seq<Entry>, m: nat, n: nat, i: nat)
    requires |ls| == |es| + 1 && m <= n <= |es|
    requires forall k | 0 <= k < |ls| :: i < |ls[k].accounts|
    requires forall k | 0 <= k < |es| :: Grew(Trips(ls[k], i), Trips(ls[k + 1], i), GivesTrip(ls, es, k, i))
    ensures Trips(ls[m], i) <= Trips(ls[n], i) && |Trips(ls[n], i)| == |Trips(ls[m], i)| + Earned(ls, es, m, n, i)
    decreases n
  {
    if m < n {
      TripsAddUp(ls, es, m, n - 1, i);
      assert Grew(Trips(ls[n - 1], i), Trips(ls[n - 1 + 1], i), GivesTrip(ls, es, n - 1, i));
    }
  }
}
