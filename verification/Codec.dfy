/**
 Wire formats: the NAK loss list, the SRTLA ACK, the extended keepalive and the
 SRT handshake extension blocks.
 */
module Codec {
  import opened Prelude

  type Byte = b: int | 0 <= b < 256
  type Bytes = seq<Byte>

  const SRT_TYPE_NAK := 0x8003
  const SRTLA_TYPE_KEEPALIVE := 0x9000
  const SRTLA_TYPE_ACK := 0x9100
  const SRT_CONTROL_HEADER_LEN := 16
  const RANGE_FLAG := 0x8000_0000
  const NAK_MAX_LOSS_IDS := 1000
  const KEEPALIVE_MAGIC := 0xC01F
  const KEEPALIVE_EXT_VERSION := 0x0001
  const KEEPALIVE_EXT_LEN := 38
  const U32 := 0x1_0000_0000
  const U64 := 0x1_0000_0000_0000_0000

  // ----- big-endian integers -----

  function Be(b: Bytes): nat {
    if b == [] then 0 else Be(b[..|b| - 1]) * 256 + b[|b| - 1]
  }

  function Put(v: nat, n: nat): (b: Bytes)
    ensures |b| == n
  {
    if n == 0 then [] else Put(v / 256, n - 1) + [v % 256]
  }

  function Space(n: nat): nat {
    if n == 0 then 1 else 256 * Space(n - 1)
  }

  /** Writing a number and reading it back is the identity on numbers that fit. */
  lemma {:induction false} BeInvertsPut(v: nat, n: nat)
    requires v < Space(n)
    ensures Be(Put(v, n)) == v
  {
    if n > 0 {
      assert v / 256 < Space(n - 1);
      BeInvertsPut(v / 256, n - 1);
      assert Put(v, n)[..n - 1] == Put(v / 256, n - 1);
    }
  }

  /** Reading and writing back gives the same bytes, so no two numbers share an encoding. */
  lemma {:induction false} PutInvertsBe(b: Bytes)
    ensures Put(Be(b), |b|) == b && Be(b) < Space(|b|)
  {
    if b != [] {
      PutInvertsBe(b[..|b| - 1]);
    }
  }

  lemma Widths()
    ensures Space(2) == 0x1_0000 && Space(4) == U32 && Space(8) == U64
  {
    assert Space(3) == 0x100_0000;
    assert Space(4) == U32;
    assert Space(6) == 0x1_0000_0000_0000;
  }

  function Type(buf: Bytes): Option<nat> {
    if |buf| < 2 then None else Some(Be(buf[..2]))
  }

  function Field(buf: Bytes, from: nat, to: nat): nat
    requires from <= to <= |buf|
  {
    Be(buf[from..to])
  }

  // ----- lists of words -----

  /** Whole 32-bit words from the front; a ragged tail is ignored. */
  function Words(b: Bytes): seq<nat> {
    if |b| < 4 then [] else [Be(b[..4])] + Words(b[4..])
  }

  function Spread(ws: seq<nat>): (b: Bytes)
    ensures |b| == 4 * |ws|
  {
    if ws == [] then [] else Put(ws[0], 4) + Spread(ws[1..])
  }

  predicate AllWords(ws: seq<nat>) {
    forall i | 0 <= i < |ws| :: ws[i] < U32
  }

  lemma {:induction false} WordsInvertSpread(ws: seq<nat>)
    requires AllWords(ws)
    ensures Words(Spread(ws)) == ws
  {
    if ws != [] {
      var b := Spread(ws);
      Widths();
      BeInvertsPut(ws[0], 4);
      assert b[..4] == Put(ws[0], 4) && b[4..] == Spread(ws[1..]);
      WordsInvertSpread(ws[1..]);
    }
  }

  lemma DropTwice(b: Bytes, m: nat, n: nat)
    requires m + n <= |b|
    ensures b[m..][n..] == b[m + n..]
  {
  }

  lemma {:induction false} WordsDrop(b: Bytes, k: nat, off: nat)
    requires off == 4 * k <= |b|
    ensures k <= |Words(b)| && Words(b)[k..] == Words(b[off..])
  {
    if k == 0 {
      assert b[0..] == b;
    } else {
      var rest := Words(b[4..]);
      WordsDrop(b[4..], k - 1, off - 4);
      DropTwice(b, 4, off - 4);
      assert Words(b) == [Be(b[..4])] + rest;
      assert ([Be(b[..4])] + rest)[k..] == rest[k - 1..];
    }
  }

  /** Reading word `k` at its offset agrees with the list. */
  lemma WordAt(b: Bytes, k: nat)
    requires 4 * k + 4 <= |b|
    ensures k < |Words(b)| && Words(b)[k] == Field(b, 4 * k, 4 * k + 4)
  {
    var off := 4 * k;
    WordsDrop(b, k, off);
    var rest := b[off..];
    assert rest[..4] == b[off..off + 4];
    assert Words(rest)[0] == Be(rest[..4]);
    assert Words(b)[k] == Words(b)[k..][0];
  }

  // ----- SRTLA ACK -----

  function ParseAck(buf: Bytes): seq<nat> {
    if |buf| < 8 || Type(buf) != Some(SRTLA_TYPE_ACK) then [] else Words(buf[4..])
  }

  function BuildAck(acks: seq<nat>): Bytes {
    Put(SRTLA_TYPE_ACK, 2) + [0, 0] + Spread(acks)
  }

  lemma TypeOf(v: nat, rest: Bytes)
    requires v < 0x1_0000
    ensures Type(Put(v, 2) + rest) == Some(v)
  {
    Widths();
    BeInvertsPut(v, 2);
    assert (Put(v, 2) + rest)[..2] == Put(v, 2);
  }

  lemma AckRoundTrip(acks: seq<nat>)
    requires AllWords(acks)
    ensures ParseAck(BuildAck(acks)) == acks
  {
    var buf := BuildAck(acks);
    assert buf == Put(SRTLA_TYPE_ACK, 2) + ([0, 0] + Spread(acks));
    TypeOf(SRTLA_TYPE_ACK, [0, 0] + Spread(acks));
    assert buf[4..] == Spread(acks);
    WordsInvertSpread(acks);
  }

  // ----- extended keepalive -----

  datatype Info = Info(connId: nat, window: int, inFlight: int, rttMs: nat, nakCount: nat, bitrate: nat)

  predicate Representable(i: Info) {
    && i.connId < U32 && i.rttMs < U32 && i.nakCount < U32 && i.bitrate < U32
    && -RANGE_FLAG <= i.window < RANGE_FLAG && -RANGE_FLAG <= i.inFlight < RANGE_FLAG
  }

  /** 32-bit two's complement. */
  function Unsigned(v: int): nat
    requires -RANGE_FLAG <= v < RANGE_FLAG
  {
    if v < 0 then v + U32 else v
  }

  function Signed(w: nat): int {
    if w >= RANGE_FLAG then w - U32 else w
  }

  function KeepaliveHeader(now: nat): (b: Bytes)
    ensures |b| == 14
  {
    Put(SRTLA_TYPE_KEEPALIVE, 2) + Put(now, 8) + Put(KEEPALIVE_MAGIC, 2) + Put(KEEPALIVE_EXT_VERSION, 2)
  }

  function InfoWords(i: Info): seq<nat>
    requires Representable(i)
  {
    [i.connId, Unsigned(i.window), Unsigned(i.inFlight), i.rttMs, i.nakCount, i.bitrate]
  }

  function BuildKeepalive(i: Info, now: nat): (b: Bytes)
    requires Representable(i)
    ensures |b| == KEEPALIVE_EXT_LEN
  {
    KeepaliveHeader(now) + Spread(InfoWords(i))
  }

  function ParseTimestamp(buf: Bytes): Option<nat> {
    if |buf| < 10 || Type(buf) != Some(SRTLA_TYPE_KEEPALIVE) then None else Some(Field(buf, 2, 10))
  }

  function ParseInfo(buf: Bytes): Option<Info> {
    if |buf| < KEEPALIVE_EXT_LEN || Type(buf) != Some(SRTLA_TYPE_KEEPALIVE)
       || Field(buf, 10, 12) != KEEPALIVE_MAGIC || Field(buf, 12, 14) != KEEPALIVE_EXT_VERSION then None
    else
      Some(Info(Field(buf, 14, 18), Signed(Field(buf, 18, 22)), Signed(Field(buf, 22, 26)),
                Field(buf, 26, 30), Field(buf, 30, 34), Field(buf, 34, 38)))
  }

  lemma FieldAt(buf: Bytes, from: nat, v: nat, n: nat)
    requires v < Space(n) && from + n <= |buf| && buf[from..from + n] == Put(v, n)
    ensures Field(buf, from, from + n) == v
  {
    BeInvertsPut(v, n);
  }

  lemma HeaderReadsBack(now: nat)
    requires now < U64
    ensures var h := KeepaliveHeader(now);
            Field(h, 0, 2) == SRTLA_TYPE_KEEPALIVE && Field(h, 2, 10) == now
            && Field(h, 10, 12) == KEEPALIVE_MAGIC && Field(h, 12, 14) == KEEPALIVE_EXT_VERSION
  {
    var h := KeepaliveHeader(now);
    Widths();
    FieldAt(h, 0, SRTLA_TYPE_KEEPALIVE, 2);
    FieldAt(h, 2, now, 8);
    FieldAt(h, 10, KEEPALIVE_MAGIC, 2);
    var front := Put(SRTLA_TYPE_KEEPALIVE, 2) + Put(now, 8) + Put(KEEPALIVE_MAGIC, 2);
    assert h == front + Put(KEEPALIVE_EXT_VERSION, 2);
    FieldAt(h, 12, KEEPALIVE_EXT_VERSION, 2);
  }

  /** A field is the same field of any longer packet, and of the part of the packet it lies in. */
  lemma FieldWithin(pre: Bytes, b: Bytes, post: Bytes, from: nat, to: nat)
    requires from <= to <= |b|
    ensures Field(pre + b + post, |pre| + from, |pre| + to) == Field(b, from, to)
  {
    assert (pre + b + post)[|pre| + from..|pre| + to] == b[from..to];
  }

  lemma InfoFieldReadsBack(i: Info, now: nat, tail: Bytes, k: nat)
    requires Representable(i) && k < 6
    ensures Field(BuildKeepalive(i, now) + tail, 14 + 4 * k, 18 + 4 * k) == InfoWords(i)[k]
  {
    var h, ws := KeepaliveHeader(now), InfoWords(i);
    WordsInvertSpread(ws);
    WordAt(Spread(ws), k);
    FieldWithin(h, Spread(ws), tail, 4 * k, 4 * k + 4);
  }

  lemma HeaderFieldsReadBack(i: Info, now: nat, tail: Bytes)
    requires Representable(i) && now < U64
    ensures var b := BuildKeepalive(i, now) + tail;
            Type(b) == Some(SRTLA_TYPE_KEEPALIVE) && Field(b, 2, 10) == now
            && Field(b, 10, 12) == KEEPALIVE_MAGIC && Field(b, 12, 14) == KEEPALIVE_EXT_VERSION
  {
    var b, h, rest := BuildKeepalive(i, now) + tail, KeepaliveHeader(now), Spread(InfoWords(i)) + tail;
    HeaderReadsBack(now);
    assert b == [] + h + rest;
    FieldWithin([], h, rest, 0, 2);
    FieldWithin([], h, rest, 2, 10);
    FieldWithin([], h, rest, 10, 12);
    FieldWithin([], h, rest, 12, 14);
    assert b[0..2] == b[..2];
  }

  /** The two readers recover everything the builder wrote, and ignore whatever follows it. */
  lemma KeepaliveRoundTrip(i: Info, now: nat, tail: Bytes)
    requires Representable(i) && now < U64
    ensures ParseTimestamp(BuildKeepalive(i, now) + tail) == Some(now)
    ensures ParseInfo(BuildKeepalive(i, now) + tail) == Some(i)
  {
    HeaderFieldsReadBack(i, now, tail);
    InfoFieldReadsBack(i, now, tail, 0);
    InfoFieldReadsBack(i, now, tail, 1);
    InfoFieldReadsBack(i, now, tail, 2);
    InfoFieldReadsBack(i, now, tail, 3);
    InfoFieldReadsBack(i, now, tail, 4);
    InfoFieldReadsBack(i, now, tail, 5);
  }

  // ----- NAK loss list -----

  function Ids(first: nat, last: nat): (s: seq<nat>)
    requires first <= last
    ensures |s| == last - first + 1
  {
    seq(last - first + 1, k requires 0 <= k => first + k)
  }

  /** As much of a range as fits under the cap. */
  function Admitted(held: nat, first: nat, last: nat): (s: seq<nat>)
    requires first <= last
    ensures |s| == Min(SatSub(NAK_MAX_LOSS_IDS, held), last - first + 1)
  {
    Ids(first, last)[..Min(SatSub(NAK_MAX_LOSS_IDS, held), last - first + 1)]
  }

  predicate ValidRange(open: nat, last: nat) {
    RANGE_FLAG <= open && last < RANGE_FLAG && open - RANGE_FLAG <= last
  }

  /** The loss list read from `ws` on top of the ids already in `out`. */
  function Expand(ws: seq<nat>, out: seq<nat>): seq<nat> {
    if ws == [] then out
    else if ws[0] < RANGE_FLAG then Expand(ws[1..], out + [ws[0]])
    else if |ws| == 1 then out
    else if !ValidRange(ws[0], ws[1]) then Expand(ws[2..], out)
    else Expand(ws[2..], out + Admitted(|out|, ws[0] - RANGE_FLAG, ws[1]))
  }

  function ParseNak(buf: Bytes): seq<nat> {
    if |buf| < SRT_CONTROL_HEADER_LEN + 4 || Type(buf) != Some(SRT_TYPE_NAK) then []
    else Expand(Words(buf[SRT_CONTROL_HEADER_LEN..]), [])
  }

  /** Words the reader takes as single ids. */
  function Singles(ws: seq<nat>): nat {
    if ws == [] then 0
    else if ws[0] < RANGE_FLAG then 1 + Singles(ws[1..])
    else if |ws| == 1 then 0
    else Singles(ws[2..])
  }

  lemma {:induction false} ExpansionIsBounded(ws: seq<nat>, out: seq<nat>)
    requires forall id | id in out :: id < RANGE_FLAG
    ensures var r := Expand(ws, out);
            (forall id | id in r :: id < RANGE_FLAG) && |r| <= Max(|out|, NAK_MAX_LOSS_IDS) + Singles(ws)
  {
    if ws != [] {
      if ws[0] < RANGE_FLAG {
        ExpansionIsBounded(ws[1..], out + [ws[0]]);
      } else if |ws| > 1 {
        if ValidRange(ws[0], ws[1]) {
          ExpansionIsBounded(ws[2..], out + Admitted(|out|, ws[0] - RANGE_FLAG, ws[1]));
        } else {
          ExpansionIsBounded(ws[2..], out);
        }
      }
    }
  }

  /** Whatever the bytes, every reported id is a sequence number and only single entries exceed the cap. */
  lemma NakIsBounded(buf: Bytes)
    ensures forall id | id in ParseNak(buf) :: id < RANGE_FLAG
    ensures |buf| >= SRT_CONTROL_HEADER_LEN ==>
              |ParseNak(buf)| <= NAK_MAX_LOSS_IDS + Singles(Words(buf[SRT_CONTROL_HEADER_LEN..]))
  {
    if |buf| >= SRT_CONTROL_HEADER_LEN {
      ExpansionIsBounded(Words(buf[SRT_CONTROL_HEADER_LEN..]), []);
    }
  }

  /** What a sender of NAKs means by one entry. */
  datatype Loss = One(id: nat) | Range(first: nat, last: nat)

  predicate Valid(l: Loss) {
    match l
    case One(id) => id < RANGE_FLAG
    case Range(first, last) => first <= last < RANGE_FLAG
  }

  predicate AllValid(ls: seq<Loss>) {
    forall l | l in ls :: Valid(l)
  }

  function Meaning(l: Loss): seq<nat>
    requires Valid(l)
  {
    match l
    case One(id) => [id]
    case Range(first, last) => Ids(first, last)
  }

  function Meanings(ls: seq<Loss>): seq<nat>
    requires AllValid(ls)
  {
    if ls == [] then [] else Meanings(ls[..|ls| - 1]) + Meaning(ls[|ls| - 1])
  }

  function Encode(l: Loss): seq<nat> {
    match l
    case One(id) => [id]
    case Range(first, last) => [first + RANGE_FLAG, last]
  }

  function EncodeAll(ls: seq<Loss>): seq<nat> {
    if ls == [] then [] else Encode(ls[0]) + EncodeAll(ls[1..])
  }

  /** A NAK packet: any control header of that type, then the loss list. */
  function BuildNak(header: Bytes, ls: seq<Loss>): Bytes {
    header + Spread(EncodeAll(ls))
  }

  /** Reading one entry on top of what is held. */
  function Extended(out: seq<nat>, l: Loss): seq<nat>
    requires Valid(l)
  {
    match l
    case One(id) => out + [id]
    case Range(first, last) => out + Admitted(|out|, first, last)
  }

  function Read(ls: seq<Loss>, out: seq<nat>): seq<nat>
    requires AllValid(ls)
  {
    if ls == [] then out else Extended(Read(ls[..|ls| - 1], out), ls[|ls| - 1])
  }

  lemma {:induction false} ReadFromFront(ls: seq<Loss>, out: seq<nat>)
    requires AllValid(ls) && ls != []
    ensures Read(ls, out) == Read(ls[1..], Extended(out, ls[0]))
  {
    var k := |ls| - 1;
    if k > 0 {
      ReadFromFront(ls[..k], out);
      assert ls[..k][1..] == ls[1..][..k - 1] && ls[1..][k - 1] == ls[k];
    }
  }

  /** The entries of arbitrary words: an invalid range says nothing, and neither does one cut off by the end. */
  function Entries(ws: seq<nat>): (ls: seq<Loss>)
    ensures AllValid(ls)
  {
    if ws == [] then []
    else if ws[0] < RANGE_FLAG then [One(ws[0])] + Entries(ws[1..])
    else if |ws| == 1 then []
    else if !ValidRange(ws[0], ws[1]) then Entries(ws[2..])
    else [Range(ws[0] - RANGE_FLAG, ws[1])] + Entries(ws[2..])
  }

  /** Whatever the words, expanding them is reading their entries one after the other. */
  lemma {:induction false} ExpandReadsEntries(ws: seq<nat>, out: seq<nat>)
    ensures Expand(ws, out) == Read(Entries(ws), out)
  {
    var ls := Entries(ws);
    if ls != [] {
      ReadFromFront(ls, out);
    }
    if ws != [] {
      if ws[0] < RANGE_FLAG {
        assert ls[1..] == Entries(ws[1..]);
        ExpandReadsEntries(ws[1..], Extended(out, ls[0]));
      } else if |ws| > 1 {
        if ValidRange(ws[0], ws[1]) {
          assert ls[1..] == Entries(ws[2..]);
          ExpandReadsEntries(ws[2..], Extended(out, ls[0]));
        } else {
          ExpandReadsEntries(ws[2..], out);
        }
      }
    }
  }

  /** Decoding inverts encoding. */
  lemma {:induction false} EntriesInvertEncoding(ls: seq<Loss>)
    requires AllValid(ls)
    ensures Entries(EncodeAll(ls)) == ls
  {
    if ls != [] {
      var ws := EncodeAll(ls);
      assert ls[0] in ls;
      EntriesInvertEncoding(ls[1..]);
      if ls[0].One? {
        assert ws[1..] == EncodeAll(ls[1..]);
      } else {
        assert ws[2..] == EncodeAll(ls[1..]);
      }
    }
  }

  /** What any packet says is lost. */
  function NakEntries(buf: Bytes): (ls: seq<Loss>)
    ensures AllValid(ls)
  {
    if |buf| < SRT_CONTROL_HEADER_LEN + 4 || Type(buf) != Some(SRT_TYPE_NAK) then []
    else Entries(Words(buf[SRT_CONTROL_HEADER_LEN..]))
  }

  lemma ParseReadsEntries(buf: Bytes)
    ensures ParseNak(buf) == Read(NakEntries(buf), [])
  {
    if |buf| >= SRT_CONTROL_HEADER_LEN {
      ExpandReadsEntries(Words(buf[SRT_CONTROL_HEADER_LEN..]), []);
    }
  }

  /** A packet that was built says what it was built from. */
  lemma NakEntriesInvertBuild(header: Bytes, ls: seq<Loss>)
    requires AllValid(ls) && |header| == SRT_CONTROL_HEADER_LEN && Type(header) == Some(SRT_TYPE_NAK)
    ensures NakEntries(BuildNak(header, ls)) == ls
  {
    var buf, ws := BuildNak(header, ls), EncodeAll(ls);
    EncodesWords(ls);
    WordsInvertSpread(ws);
    assert buf[SRT_CONTROL_HEADER_LEN..] == Spread(ws) && buf[..2] == header[..2];
    EntriesInvertEncoding(ls);
    if ls == [] {
      assert buf == header;
    } else {
      assert |ws| >= 1;
    }
  }

  lemma {:induction false} EncodesWords(ls: seq<Loss>)
    requires AllValid(ls)
    ensures AllWords(EncodeAll(ls)) && (ls != [] ==> EncodeAll(ls) != [])
  {
    if ls != [] {
      assert ls[0] in ls;
      EncodesWords(ls[1..]);
    }
  }

  /** No range reaches past the cap. */
  predicate Uncapped(ls: seq<Loss>)
    requires AllValid(ls)
  {
    ls == []
    || (Uncapped(ls[..|ls| - 1]) && (ls[|ls| - 1].Range? ==> |Meanings(ls)| <= NAK_MAX_LOSS_IDS))
  }

  /** Reading one more entry adds all of its meaning, or part of it. */
  lemma ExtensionIsPartial(out: seq<nat>, l: Loss)
    requires Valid(l)
    ensures |Extended(out, l)| <= |out| + |Meaning(l)|
    ensures l.One? || |out| + |Meaning(l)| <= NAK_MAX_LOSS_IDS ==> Extended(out, l) == out + Meaning(l)
    ensures l.Range? && |out| + |Meaning(l)| > NAK_MAX_LOSS_IDS ==> |Extended(out, l)| < |out| + |Meaning(l)|
  {
    if l.Range? && |out| + |Meaning(l)| <= NAK_MAX_LOSS_IDS {
      assert Admitted(|out|, l.first, l.last) == Ids(l.first, l.last);
    }
  }

  /** Entries are read in full until a range crosses the cap; from then on ids are missing for good. */
  lemma {:induction false} ReadIsMeaningIff(ls: seq<Loss>)
    requires AllValid(ls)
    ensures if Uncapped(ls) then Read(ls, []) == Meanings(ls) else |Read(ls, [])| < |Meanings(ls)|
  {
    if ls != [] {
      var front, l := ls[..|ls| - 1], ls[|ls| - 1];
      ReadIsMeaningIff(front);
      ExtensionIsPartial(Read(front, []), l);
    }
  }

  /**
   Whatever the bytes, the ids reported are exactly those the packet says are lost if and
   only if no range in it reaches past the thousandth id; single entries are never cut.
   */
  lemma NakIsReadWholeIff(buf: Bytes)
    ensures ParseNak(buf) == Meanings(NakEntries(buf)) <==> Uncapped(NakEntries(buf))
  {
    ParseReadsEntries(buf);
    ReadIsMeaningIff(NakEntries(buf));
  }

  /** So a NAK that was built parses back to exactly what it was built from under the same condition. */
  lemma NakRoundTripIff(header: Bytes, ls: seq<Loss>)
    requires AllValid(ls) && |header| == SRT_CONTROL_HEADER_LEN && Type(header) == Some(SRT_TYPE_NAK)
    ensures ParseNak(BuildNak(header, ls)) == Meanings(ls) <==> Uncapped(ls)
  {
    NakEntriesInvertBuild(header, ls);
    NakIsReadWholeIff(BuildNak(header, ls));
  }

  /** In particular, a loss list of at most a thousand ids comes back whole. */
  lemma ShortNakRoundTrips(header: Bytes, ls: seq<Loss>)
    requires AllValid(ls) && |header| == SRT_CONTROL_HEADER_LEN && Type(header) == Some(SRT_TYPE_NAK)
    requires |Meanings(ls)| <= NAK_MAX_LOSS_IDS
    ensures ParseNak(BuildNak(header, ls)) == Meanings(ls)
  {
    ShortIsUncapped(ls);
    NakRoundTripIff(header, ls);
  }

  lemma {:induction false} ShortIsUncapped(ls: seq<Loss>)
    requires AllValid(ls) && |Meanings(ls)| <= NAK_MAX_LOSS_IDS
    ensures Uncapped(ls)
  {
    if ls != [] {
      ShortIsUncapped(ls[..|ls| - 1]);
    }
  }

  // ----- the cap as a ceiling on the packet -----

  /** Every single entry comes while fewer than a thousand ids precede it. */
  predicate SinglesFit(ls: seq<Loss>)
    requires AllValid(ls)
  {
    forall k | 0 <= k < |ls| && ls[k].One? :: |Meanings(ls[..k])| < NAK_MAX_LOSS_IDS
  }

  lemma SinglesFitFront(ls: seq<Loss>)
    requires AllValid(ls) && ls != []
    ensures var front, l := ls[..|ls| - 1], ls[|ls| - 1];
            SinglesFit(ls) <==> SinglesFit(front) && (l.One? ==> |Meanings(front)| < NAK_MAX_LOSS_IDS)
  {
    var n := |ls| - 1;
    var front := ls[..n];
    forall k | 0 <= k < n
      ensures front[k] == ls[k] && front[..k] == ls[..k]
    {
    }
    if SinglesFit(front) && (ls[n].One? ==> |Meanings(front)| < NAK_MAX_LOSS_IDS) {
      forall k | 0 <= k < |ls| && ls[k].One?
        ensures |Meanings(ls[..k])| < NAK_MAX_LOSS_IDS
      {
        if k < n {
          assert front[k].One? && front[..k] == ls[..k];
        }
      }
    }
    if SinglesFit(ls) {
      forall k | 0 <= k < n && front[k].One?
        ensures |Meanings(front[..k])| < NAK_MAX_LOSS_IDS
      {
        assert ls[k].One? && front[..k] == ls[..k];
      }
    }
  }

  /** Below the cap nothing is lost; from the cap on at least a thousand ids are held. */
  lemma {:induction false} ReadReachesCap(ls: seq<Loss>)
    requires AllValid(ls)
    ensures if |Meanings(ls)| < NAK_MAX_LOSS_IDS then |Read(ls, [])| == |Meanings(ls)|
            else |Read(ls, [])| >= NAK_MAX_LOSS_IDS
  {
    if ls != [] {
      ReadReachesCap(ls[..|ls| - 1]);
    }
  }

  lemma {:induction false} ReadStaysUnderCapIff(ls: seq<Loss>)
    requires AllValid(ls)
    ensures |Read(ls, [])| <= NAK_MAX_LOSS_IDS <==> SinglesFit(ls)
  {
    if ls != [] {
      var front := ls[..|ls| - 1];
      ReadStaysUnderCapIff(front);
      ReadReachesCap(front);
      SinglesFitFront(ls);
    }
  }

  /**
   Whatever the bytes, the cap is a ceiling on the whole packet if and only if no single
   entry comes after the thousandth id.
   */
  lemma NakCeilingIff(buf: Bytes)
    ensures |ParseNak(buf)| <= NAK_MAX_LOSS_IDS <==> SinglesFit(NakEntries(buf))
  {
    ParseReadsEntries(buf);
    ReadStaysUnderCapIff(NakEntries(buf));
  }

  predicate AllSingles(ls: seq<Loss>) {
    forall i | 0 <= i < |ls| :: ls[i].One? && Valid(ls[i])
  }

  lemma {:induction false} SinglesMeanThemselves(ls: seq<Loss>)
    requires AllSingles(ls)
    ensures AllValid(ls) && |Meanings(ls)| == |ls| && Uncapped(ls)
  {
    if ls != [] {
      SinglesMeanThemselves(ls[..|ls| - 1]);
    }
  }

  /** A packet over the ceiling: 1001 single entries are 1001 ids. */
  lemma SinglesPassTheCeiling(header: Bytes)
    requires |header| == SRT_CONTROL_HEADER_LEN && Type(header) == Some(SRT_TYPE_NAK)
    ensures |ParseNak(BuildNak(header, seq(1001, i requires 0 <= i => One(i))))| == 1001
  {
    var ls := seq(1001, i requires 0 <= i => One(i));
    SinglesMeanThemselves(ls);
    NakRoundTripIff(header, ls);
  }

  /** A packet that is cut: of one range of 1001 ids, the last is missing. */
  lemma LongRangeIsCut(header: Bytes)
    requires |header| == SRT_CONTROL_HEADER_LEN && Type(header) == Some(SRT_TYPE_NAK)
    ensures ParseNak(BuildNak(header, [Range(0, 1000)])) == Ids(0, 999)
    ensures ParseNak(BuildNak(header, [Range(0, 1000)])) != Meanings([Range(0, 1000)])
  {
    var ls := [Range(0, 1000)];
    NakEntriesInvertBuild(header, ls);
    ParseReadsEntries(BuildNak(header, ls));
    assert ls[..0] == [] && Read(ls, []) == Extended(Read([], []), ls[0]);
    assert Ids(0, 1000)[..1000] == Ids(0, 999);
    assert Meanings(ls) == Meanings([]) + Ids(0, 1000);
  }

  // ----- the readers and builders -----

  /** Fold eight bytes into the timestamp. */
  method ExtractKeepaliveTimestamp(buf: Bytes) returns (ts: Option<nat>)
    ensures ts == ParseTimestamp(buf)
  {
    if |buf| < 10 || Type(buf) != Some(SRTLA_TYPE_KEEPALIVE) {
      return None;
    }
    var v: nat := 0;
    var i := 0;
    while i < 8
      invariant 0 <= i <= 8
      invariant v == Field(buf, 2, 2 + i)
    {
      assert buf[2..2 + i + 1][..i] == buf[2..2 + i];
      v := v * 256 + buf[2 + i];
      i := i + 1;
    }
    return Some(v);
  }

  method ParseSrtlaAck(buf: Bytes) returns (acks: seq<nat>)
    ensures acks == ParseAck(buf)
  {
    acks := [];
    if |buf| < 8 || Type(buf) != Some(SRTLA_TYPE_ACK) {
      return;
    }
    var i := 4;
    while i + 3 < |buf|
      invariant 4 <= i <= |buf|
      invariant Words(buf[4..]) == acks + Words(buf[i..])
    {
      ghost var rest := buf[i..];
      assert rest[..4] == buf[i..i + 4] && rest[4..] == buf[i + 4..];
      acks := acks + [Field(buf, i, i + 4)];
      i := i + 4;
    }
  }

  /** Push a range one id at a time until its end or the cap. */
  method PushRange(held: seq<nat>, first: nat, last: nat) returns (out: seq<nat>)
    requires first <= last
    ensures out == held + Admitted(|held|, first, last)
  {
    out := held;
    ghost var ids := Ids(first, last);
    ghost var room := Min(SatSub(NAK_MAX_LOSS_IDS, |held|), |ids|);
    var s := first;
    while true
      invariant first <= s <= last && s - first <= room
      invariant out == held + ids[..s - first]
      decreases last - s
    {
      if |out| >= NAK_MAX_LOSS_IDS {
        break;
      }
      out := out + [s];
      if s == last {
        break;
      }
      s := s + 1;
    }
  }

  method ParseSrtNak(buf: Bytes) returns (out: seq<nat>)
    ensures out == ParseNak(buf)
  {
    out := [];
    if |buf| < SRT_CONTROL_HEADER_LEN + 4 || Type(buf) != Some(SRT_TYPE_NAK) {
      return;
    }
    var i := SRT_CONTROL_HEADER_LEN;
    while i + 3 < |buf|
      invariant SRT_CONTROL_HEADER_LEN <= i <= |buf|
      invariant Expand(Words(buf[SRT_CONTROL_HEADER_LEN..]), []) == Expand(Words(buf[i..]), out)
      decreases |buf| - i
    {
      var id := Field(buf, i, i + 4);
      NextWord(buf, i);
      i := i + 4;
      if id < RANGE_FLAG {
        out := out + [id];
      } else if i + 3 >= |buf| {
        return;
      } else {
        var last := Field(buf, i, i + 4);
        NextWord(buf, i);
        i := i + 4;
        if last < RANGE_FLAG && id - RANGE_FLAG <= last {
          out := PushRange(out, id - RANGE_FLAG, last);
        }
      }
    }
  }

  lemma NextWord(buf: Bytes, i: nat)
    requires i + 4 <= |buf|
    ensures var ws := Words(buf[i..]);
            ws != [] && ws[0] == Field(buf, i, i + 4) && ws[1..] == Words(buf[i + 4..])
            && (|buf| < i + 8 ==> |ws| == 1)
            && (|buf| >= i + 8 ==> |ws| >= 2 && ws[1] == Field(buf, i + 4, i + 8) && ws[2..] == Words(buf[i + 8..]))
  {
    var rest := buf[i..];
    assert rest[..4] == buf[i..i + 4] && rest[4..] == buf[i + 4..];
    if |buf| >= i + 8 {
      var more := buf[i + 4..];
      assert more[..4] == buf[i + 4..i + 8] && more[4..] == buf[i + 8..];
    }
  }

  /** Overwrite part of a packet with a number. */
  method Store(pkt: array<Byte>, off: nat, v: nat, n: nat)
    requires off + n <= pkt.Length
    modifies pkt
    ensures pkt[..] == old(pkt[..off]) + Put(v, n) + old(pkt[off + n..])
  {
    var b := Put(v, n);
    var i := 0;
    while i < n
      invariant 0 <= i <= n
      invariant pkt[..off] == old(pkt[..off]) && pkt[off..off + i] == b[..i] && pkt[off + n..] == old(pkt[off + n..])
    {
      pkt[off + i] := b[i];
      i := i + 1;
    }
    assert pkt[..] == pkt[..off] + pkt[off..off + n] + pkt[off + n..];
  }

  lemma {:induction false} SpreadAppends(ws: seq<nat>, w: nat)
    ensures Spread(ws + [w]) == Spread(ws) + Put(w, 4)
  {
    if ws == [] {
      assert ws + [w] == [w];
    } else {
      assert (ws + [w])[1..] == ws[1..] + [w];
      SpreadAppends(ws[1..], w);
    }
  }

  lemma SpreadMore(ws: seq<nat>, i: nat)
    requires i < |ws|
    ensures Spread(ws[..i + 1]) == Spread(ws[..i]) + Put(ws[i], 4)
  {
    assert ws[..i + 1] == ws[..i] + [ws[i]];
    SpreadAppends(ws[..i], ws[i]);
  }

  method StoreWords(pkt: array<Byte>, off: nat, ws: seq<nat>)
    requires off + 4 * |ws| == pkt.Length
    modifies pkt
    ensures pkt[..] == old(pkt[..off]) + Spread(ws)
  {
    var i := 0;
    while i < |ws|
      invariant 0 <= i <= |ws|
      invariant pkt[..off + 4 * i] == old(pkt[..off]) + Spread(ws[..i])
    {
      ghost var done := pkt[..off + 4 * i];
      Store(pkt, off + 4 * i, ws[i], 4);
      assert pkt[..off + 4 * (i + 1)] == done + Put(ws[i], 4);
      SpreadMore(ws, i);
      i := i + 1;
    }
    assert ws[..|ws|] == ws && pkt[..off + 4 * |ws|] == pkt[..];
  }

  method CreateAckPacket(acks: seq<nat>) returns (pkt: array<Byte>)
    ensures fresh(pkt) && pkt[..] == BuildAck(acks)
  {
    pkt := new Byte[4 + 4 * |acks|](k => 0);
    Store(pkt, 0, SRTLA_TYPE_ACK, 2);
    pkt[2] := 0;
    pkt[3] := 0;
    assert pkt[..4] == Put(SRTLA_TYPE_ACK, 2) + [0, 0];
    StoreWords(pkt, 4, acks);
  }

  method CreateKeepalivePacketExt(info: Info, now: nat) returns (pkt: array<Byte>)
    requires Representable(info)
    ensures fresh(pkt) && pkt[..] == BuildKeepalive(info, now)
  {
    pkt := new Byte[KEEPALIVE_EXT_LEN](k => 0);
    Store(pkt, 0, SRTLA_TYPE_KEEPALIVE, 2);
    Store(pkt, 2, now, 8);
    Store(pkt, 10, KEEPALIVE_MAGIC, 2);
    Store(pkt, 12, KEEPALIVE_EXT_VERSION, 2);
    assert pkt[..14] == KeepaliveHeader(now);
    StoreWords(pkt, 14, InfoWords(info));
  }
}
