/** The latency an SRT conclusion handshake declares, found by walking its extension blocks. */
module Handshake {
  import opened Prelude
  import opened Codec

  const SRT_TYPE_HANDSHAKE := 0x8000
  const CIF_LEN := 48
  const VERSION_5 := 5
  const CMD_HSREQ := 1
  const CMD_HSRSP := 2
  const HSREQ_WORDS := 3
  const WORD_CONCLUSION := 0xFFFF_FFFF

  datatype Latency = Latency(isResponse: bool, rcvMs: Option<nat>, sndMs: Option<nat>)

  /** One extension block: a command and a body of whole words. */
  datatype Block = Block(cmd: nat, body: Bytes)

  predicate WellFormed(b: Block) {
    b.cmd < 0x1_0000 && |b.body| % 4 == 0 && |b.body| / 4 < 0x1_0000
  }

  predicate IsHs(b: Block) {
    b.cmd == CMD_HSREQ || b.cmd == CMD_HSRSP
  }

  function Encode(b: Block): Bytes {
    Put(b.cmd * 0x1_0000 + |b.body| / 4, 4) + b.body
  }

  function EncodeAll(bs: seq<Block>): Bytes {
    if bs == [] then [] else Encode(bs[0]) + EncodeAll(bs[1..])
  }

  /** What an HSREQ or HSRSP block says; nothing if it is too short. */
  function Declared(b: Block): Option<Latency> {
    if |b.body| < HSREQ_WORDS * 4 then None else
    var flags, latency := Field(b.body, 4, 8), Field(b.body, 8, 12);
    Some(Latency(b.cmd == CMD_HSRSP,
                 if flags / 2 % 2 == 1 then Some(latency / 0x1_0000) else None,
                 if flags % 2 == 1 then Some(latency % 0x1_0000) else None))
  }

  /** The block at the front of `rest`, if all of it is there. */
  function Front(rest: Bytes): (b: Option<Block>)
    ensures b.Some? ==> |rest| >= 4 + |b.value.body|
  {
    if |rest| < 4 then None else
    var spec := Be(rest[..4]);
    var len := spec % 0x1_0000 * 4;
    if |rest| < 4 + len then None else Some(Block(spec / 0x1_0000, rest[4..4 + len]))
  }

  function Walk(rest: Bytes): Option<Latency>
    decreases |rest|
  {
    var f := Front(rest);
    if f.None? then None
    else if IsHs(f.value) then Declared(f.value)
    else Walk(rest[4 + |f.value.body|..])
  }

  /** A version 5 conclusion that announces an HSREQ or HSRSP block. */
  predicate IsConclusion(body: Bytes) {
    && |body| >= CIF_LEN
    && Field(body, 0, 4) == VERSION_5
    && Field(body, 20, 24) == WORD_CONCLUSION
    && Field(body, 4, 8) % 2 == 1
  }

  function ParseLatency(buf: Bytes): Option<Latency> {
    if Type(buf) != Some(SRT_TYPE_HANDSHAKE) || |buf| < SRT_CONTROL_HEADER_LEN then None else
    var body := buf[SRT_CONTROL_HEADER_LEN..];
    if IsConclusion(body) then Walk(body[CIF_LEN..]) else None
  }

  // ----- the walk against the blocks -----

  lemma FrontReadsBlock(b: Block, tail: Bytes)
    requires WellFormed(b)
    ensures Front(Encode(b) + tail) == Some(b)
    ensures (Encode(b) + tail)[4 + |b.body|..] == tail
  {
    var rest := Encode(b) + tail;
    var spec := b.cmd * 0x1_0000 + |b.body| / 4;
    Halves(b.cmd, |b.body| / 4);
    Widths();
    BeInvertsPut(spec, 4);
    assert rest[..4] == Put(spec, 4);
    assert rest[4..4 + |b.body|] == b.body && rest[4 + |b.body|..] == tail;
  }

  lemma Halves(high: nat, low: nat)
    requires high < 0x1_0000 && low < 0x1_0000
    ensures var w := high * 0x1_0000 + low;
            w < U32 && w / 0x1_0000 == high && w % 0x1_0000 == low
  {
  }

  lemma FrontIsABlock(rest: Bytes)
    requires Front(rest).Some?
    ensures var b := Front(rest).value;
            WellFormed(b) && rest == Encode(b) + rest[4 + |b.body|..]
  {
    var spec := Be(rest[..4]);
    Widths();
    PutInvertsBe(rest[..4]);
    var b := Front(rest).value;
    assert b.cmd * 0x1_0000 + |b.body| / 4 == spec;
  }

  predicate AllSkipped(bs: seq<Block>) {
    forall i | 0 <= i < |bs| :: WellFormed(bs[i]) && !IsHs(bs[i])
  }

  /** Blocks of other kinds are stepped over. */
  lemma {:induction false} WalkSkips(bs: seq<Block>, tail: Bytes)
    requires AllSkipped(bs)
    ensures Walk(EncodeAll(bs) + tail) == Walk(tail)
  {
    if bs == [] {
      assert EncodeAll(bs) + tail == tail;
    } else {
      var rest := EncodeAll(bs[1..]) + tail;
      assert EncodeAll(bs) + tail == Encode(bs[0]) + rest;
      FrontReadsBlock(bs[0], rest);
      WalkSkips(bs[1..], tail);
    }
  }

  /** Whatever follows it, the first HSREQ or HSRSP block decides. */
  lemma FirstBlockDecides(bs: seq<Block>, b: Block, tail: Bytes)
    requires AllSkipped(bs) && WellFormed(b) && IsHs(b)
    ensures Walk(EncodeAll(bs) + (Encode(b) + tail)) == Declared(b)
  {
    WalkSkips(bs, Encode(b) + tail);
    FrontReadsBlock(b, tail);
  }

  /** Conversely, on any bytes, a latency is only ever reported from the first such block. */
  lemma {:induction false} LatencyComesFromFirstBlock(rest: Bytes) returns (bs: seq<Block>, b: Block, tail: Bytes)
    requires Walk(rest).Some?
    ensures AllSkipped(bs) && WellFormed(b) && IsHs(b) && |b.body| >= HSREQ_WORDS * 4
    ensures rest == EncodeAll(bs) + (Encode(b) + tail) && Walk(rest) == Declared(b)
    decreases |rest|
  {
    var f := Front(rest).value;
    var after := rest[4 + |f.body|..];
    FrontIsABlock(rest);
    if IsHs(f) {
      bs, b, tail := [], f, after;
      assert EncodeAll([]) + (Encode(b) + tail) == rest;
    } else {
      bs, b, tail := LatencyComesFromFirstBlock(after);
      var inner := bs;
      bs := [f] + bs;
      assert bs[1..] == inner;
      assert rest == Encode(f) + (EncodeAll(inner) + (Encode(b) + tail));
    }
  }

  /** A list of other blocks that runs out, or is cut short, declares nothing. */
  lemma TruncationDeclaresNothing(bs: seq<Block>, tail: Bytes)
    requires AllSkipped(bs) && Front(tail).None?
    ensures Walk(EncodeAll(bs) + tail) == None
  {
    WalkSkips(bs, tail);
  }

  /** A whole packet: any handshake header, a conclusion body, then blocks. */
  lemma ConclusionDeclaresFirstBlock(header: Bytes, cif: Bytes, bs: seq<Block>, b: Block, tail: Bytes)
    requires |header| == SRT_CONTROL_HEADER_LEN && Type(header) == Some(SRT_TYPE_HANDSHAKE)
    requires |cif| == CIF_LEN && IsConclusion(cif)
    requires AllSkipped(bs) && WellFormed(b) && IsHs(b)
    ensures ParseLatency(header + cif + (EncodeAll(bs) + (Encode(b) + tail))) == Declared(b)
  {
    var blocks := EncodeAll(bs) + (Encode(b) + tail);
    var buf := header + cif + blocks;
    var body := buf[SRT_CONTROL_HEADER_LEN..];
    assert buf[..2] == header[..2] && body == cif + blocks;
    assert body[0..4] == cif[0..4] && body[20..24] == cif[20..24] && body[4..8] == cif[4..8];
    assert body[CIF_LEN..] == blocks;
    FirstBlockDecides(bs, b, tail);
  }

  method ParseSrtHandshakeLatency(buf: Bytes) returns (r: Option<Latency>)
    ensures r == ParseLatency(buf)
  {
    if Type(buf) != Some(SRT_TYPE_HANDSHAKE) || |buf| < SRT_CONTROL_HEADER_LEN {
      return None;
    }
    var body := buf[SRT_CONTROL_HEADER_LEN..];
    if |body| < CIF_LEN || Field(body, 0, 4) != VERSION_5 || Field(body, 20, 24) != WORD_CONCLUSION {
      return None;
    }
    if Field(body, 4, 8) % 2 == 0 {
      return None;
    }
    var rest := body[CIF_LEN..];
    while |rest| >= 4
      invariant Walk(rest) == Walk(body[CIF_LEN..])
      decreases |rest|
    {
      var spec := Be(rest[..4]);
      var cmd := spec / 0x1_0000;
      var len := spec % 0x1_0000 * 4;
      if |rest| < 4 + len {
        return None;
      }
      var block := rest[4..4 + len];
      if cmd == CMD_HSREQ || cmd == CMD_HSRSP {
        if |block| < HSREQ_WORDS * 4 {
          return None;
        }
        var flags := Field(block, 4, 8);
        var latency := Field(block, 8, 12);
        var rcv := if flags / 2 % 2 == 1 then Some(latency / 0x1_0000) else None;
        var snd := if flags % 2 == 1 then Some(latency % 0x1_0000) else None;
        return Some(Latency(cmd == CMD_HSRSP, rcv, snd));
      }
      rest := rest[4 + len..];
    }
    return None;
  }
}
