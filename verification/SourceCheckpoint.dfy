/** The byte codec of the source checkpoint stored in every cursor
    (crates/hypersync/src/normalize.rs, `encode_source_checkpoint`,
    `decode_source_checkpoint` and the rollback-guard pair). */
module SourceCheckpoint {
  import opened Protocol
  import opened Canonical

  type i64 = x: int | -0x8000_0000_0000_0000 <= x <= 0x7FFF_FFFF_FFFF_FFFF
  type Hash32 = b: Bytes | |b| == 32 witness seq(32, _ => 0)

  datatype RollbackGuard = RollbackGuard(
    blockNumber: u64,
    timestamp: i64,
    hash: Hash32,
    firstBlockNumber: u64,
    firstParentHash: Hash32)

  datatype Decoded = Decoded(guard: Option<RollbackGuard>, activationBlock: Option<u64>, blocks: seq<BlockRef>)

  datatype CodecError =
    | HistoryTooLarge
    | InvalidHashWidth
    | UnknownEncoding
    | TruncatedGuard
    | InvalidGuardTag
    | Truncated
    | LengthMismatch

  /** "EFCHSCP2" */
  const MAGIC: Bytes := [0x45, 0x46, 0x43, 0x48, 0x53, 0x43, 0x50, 0x32]
  const GUARD_LEN := 88
  const BLOCK_LEN := 80

  // ----- Fixed-width integers -----

  function FromBe(bs: Bytes): nat {
    if bs == [] then 0 else FromBe(bs[..|bs| - 1]) * 256 + bs[|bs| - 1]
  }

  function Pow256(n: nat): nat {
    if n == 0 then 1 else 256 * Pow256(n - 1)
  }

  lemma {:induction false} BeRoundTrip(x: nat, width: nat)
    requires x < Pow256(width)
    ensures FromBe(BeBytes(x, width)) == x
  {
    if width > 0 {
      BeRoundTrip(x / 256, width - 1);
      assert BeBytes(x, width)[..width - 1] == BeBytes(x / 256, width - 1);
    }
  }

  lemma {:induction false} BeOfFromBe(bs: Bytes)
    ensures BeBytes(FromBe(bs), |bs|) == bs && FromBe(bs) < Pow256(|bs|)
  {
    if bs != [] {
      BeOfFromBe(bs[..|bs| - 1]);
    }
  }

  lemma Widths()
    ensures Pow256(4) == 0x1_0000_0000 && Pow256(8) == U64_MAX + 1
  {
    assert Pow256(2) == 256 * Pow256(1) && Pow256(1) == 256;
    assert Pow256(4) == 256 * Pow256(3) && Pow256(3) == 256 * Pow256(2);
    assert Pow256(6) == 256 * Pow256(5) && Pow256(5) == 256 * Pow256(4);
    assert Pow256(8) == 256 * Pow256(7) && Pow256(7) == 256 * Pow256(6);
  }

  function U64Of(bs: Bytes): u64
    requires |bs| == 8
  {
    BeOfFromBe(bs);
    Widths();
    FromBe(bs)
  }

  /** Two's-complement reading of a signed timestamp. */
  function SignedBits(x: i64): u64 {
    if x >= 0 then x else x + U64_MAX + 1
  }

  function SignedOf(x: u64): i64 {
    if x <= I64_MAX then x else x - U64_MAX - 1
  }

  lemma U64RoundTrip(x: u64)
    ensures U64Of(BeBytes(x, 8)) == x
  {
    Widths();
    BeRoundTrip(x, 8);
  }

  // ----- Rollback guards and block references -----

  function EncodeGuard(g: RollbackGuard): (bs: Bytes)
    ensures |bs| == GUARD_LEN
  {
    BeBytes(g.blockNumber, 8) + g.hash + BeBytes(SignedBits(g.timestamp), 8) + BeBytes(g.firstBlockNumber, 8) + g.firstParentHash
  }

  function DecodeGuard(bs: Bytes): RollbackGuard
    requires |bs| == GUARD_LEN
  {
    RollbackGuard(U64Of(bs[..8]), SignedOf(U64Of(bs[40..48])), bs[8..40], U64Of(bs[48..56]), bs[56..88])
  }

  function EncodeBlock(b: BlockRef): (bs: Bytes)
    requires BlockRefOk(b)
    ensures |bs| == BLOCK_LEN
  {
    BeBytes(b.number, 8) + b.hash + b.parentHash + BeBytes(b.timestamp, 8)
  }

  function DecodeBlock(bs: Bytes): (b: BlockRef)
    requires |bs| == BLOCK_LEN
    ensures BlockRefOk(b)
  {
    BlockRef(U64Of(bs[..8]), bs[8..40], bs[40..72], U64Of(bs[72..80]))
  }

  lemma GuardRoundTrip(g: RollbackGuard)
    ensures DecodeGuard(EncodeGuard(g)) == g
  {
    hide BeBytes, FromBe;
    var bs := EncodeGuard(g);
    assert bs[..8] == BeBytes(g.blockNumber, 8);
    assert bs[8..40] == g.hash;
    assert bs[40..48] == BeBytes(SignedBits(g.timestamp), 8);
    assert bs[48..56] == BeBytes(g.firstBlockNumber, 8);
    assert bs[56..88] == g.firstParentHash;
    U64RoundTrip(g.blockNumber);
    U64RoundTrip(SignedBits(g.timestamp));
    U64RoundTrip(g.firstBlockNumber);
  }

  lemma GuardBytesRoundTrip(bs: Bytes)
    requires |bs| == GUARD_LEN
    ensures EncodeGuard(DecodeGuard(bs)) == bs
  {
    hide BeBytes, FromBe;
    BeOfFromBe(bs[..8]);
    BeOfFromBe(bs[40..48]);
    BeOfFromBe(bs[48..56]);
    assert bs == bs[..8] + bs[8..40] + bs[40..48] + bs[48..56] + bs[56..88];
  }

  lemma BlockRoundTrip(b: BlockRef)
    requires BlockRefOk(b)
    ensures DecodeBlock(EncodeBlock(b)) == b
  {
    hide BeBytes, FromBe;
    var bs := EncodeBlock(b);
    assert bs[..8] == BeBytes(b.number, 8);
    assert bs[8..40] == b.hash;
    assert bs[40..72] == b.parentHash;
    assert bs[72..80] == BeBytes(b.timestamp, 8);
    U64RoundTrip(b.number);
    U64RoundTrip(b.timestamp);
  }

  lemma BlockBytesRoundTrip(bs: Bytes)
    requires |bs| == BLOCK_LEN
    ensures EncodeBlock(DecodeBlock(bs)) == bs
  {
    hide BeBytes, FromBe;
    BeOfFromBe(bs[..8]);
    BeOfFromBe(bs[72..80]);
    assert bs == bs[..8] + bs[8..40] + bs[40..72] + bs[72..80];
  }

  // ----- Histories -----

  function EncodeBlocks(blocks: seq<BlockRef>): (bs: Bytes)
    requires AllOk(blocks)
    ensures |bs| == BLOCK_LEN * |blocks|
  {
    if blocks == [] then [] else EncodeBlocks(blocks[..|blocks| - 1]) + EncodeBlock(blocks[|blocks| - 1])
  }

  function DecodeBlocks(bs: Bytes): (blocks: seq<BlockRef>)
    requires |bs| % BLOCK_LEN == 0
    ensures |blocks| * BLOCK_LEN == |bs|
    ensures AllOk(blocks)
  {
    if bs == [] then []
    else DecodeBlocks(bs[..|bs| - BLOCK_LEN]) + [DecodeBlock(bs[|bs| - BLOCK_LEN..])]
  }

  lemma {:induction false} BlocksRoundTrip(blocks: seq<BlockRef>)
    requires AllOk(blocks)
    ensures DecodeBlocks(EncodeBlocks(blocks)) == blocks
  {
    if blocks != [] {
      var front, last := blocks[..|blocks| - 1], blocks[|blocks| - 1];
      var bs := EncodeBlocks(blocks);
      BlocksRoundTrip(front);
      BlockRoundTrip(last);
      assert bs[..|bs| - BLOCK_LEN] == EncodeBlocks(front);
      assert bs[|bs| - BLOCK_LEN..] == EncodeBlock(last);
    }
  }

  lemma {:induction false} BlockListBytesRoundTrip(bs: Bytes)
    requires |bs| % BLOCK_LEN == 0
    ensures EncodeBlocks(DecodeBlocks(bs)) == bs
  {
    if bs != [] {
      BlockListBytesRoundTrip(bs[..|bs| - BLOCK_LEN]);
      BlockBytesRoundTrip(bs[|bs| - BLOCK_LEN..]);
      var blocks := DecodeBlocks(bs);
      assert blocks[..|blocks| - 1] == DecodeBlocks(bs[..|bs| - BLOCK_LEN]);
      assert bs == bs[..|bs| - BLOCK_LEN] + bs[|bs| - BLOCK_LEN..];
    }
  }

  // ----- The tagged format -----

  function EncodeHead(guard: Option<RollbackGuard>): (bs: Bytes)
    ensures |bs| == if guard.Some? then 97 else 9
  {
    MAGIC + (if guard.Some? then [1] + EncodeGuard(guard.value) else [0])
  }

  function EncodeBody(activation: u64, blocks: seq<BlockRef>): (bs: Bytes)
    requires AllOk(blocks)
    ensures |bs| == 12 + BLOCK_LEN * |blocks|
  {
    BeBytes(activation, 8) + BeBytes(|blocks|, 4) + EncodeBlocks(blocks)
  }

  function Encode(guard: Option<RollbackGuard>, activation: u64, blocks: seq<BlockRef>): Result<Bytes, CodecError> {
    if |blocks| >= 0x1_0000_0000 then Err(HistoryTooLarge)
    else if !AllOk(blocks) then Err(CodecError.InvalidHashWidth)
    else Ok(EncodeHead(guard) + EncodeBody(activation, blocks))
  }

  function DecodeBody(guard: Option<RollbackGuard>, body: Bytes): Result<Decoded, CodecError> {
    if |body| < 12 then Err(Truncated)
    else if |body| != 12 + FromBe(body[8..12]) * BLOCK_LEN then Err(LengthMismatch)
    else Ok(Decoded(guard, Some(U64Of(body[..8])), DecodeBlocks(body[12..])))
  }

  function Decode(bs: Bytes): Result<Decoded, CodecError> {
    if bs == [] then Ok(Decoded(None, None, []))
    else if |bs| == GUARD_LEN then Ok(Decoded(Some(DecodeGuard(bs)), None, []))
    else if |bs| < 13 || bs[..8] != MAGIC then Err(UnknownEncoding)
    else if bs[8] == 0 then DecodeBody(None, bs[9..])
    else if bs[8] == 1 then
      if |bs| < 97 then Err(TruncatedGuard) else DecodeBody(Some(DecodeGuard(bs[9..97])), bs[97..])
    else Err(InvalidGuardTag)
  }

  /** Encodings of the tagged format, which the empty and the bare 88-byte
      legacy forms never collide with. */
  predicate IsTagged(bs: Bytes) {
    bs != [] && |bs| != GUARD_LEN
  }

  lemma EncodingIsTagged(guard: Option<RollbackGuard>, activation: u64, blocks: seq<BlockRef>)
    requires Encode(guard, activation, blocks).Ok?
    ensures IsTagged(Encode(guard, activation, blocks).value)
  {
    assert |Encode(guard, activation, blocks).value| % BLOCK_LEN != GUARD_LEN % BLOCK_LEN;
  }

  lemma BodyRoundTrip(guard: Option<RollbackGuard>, activation: u64, blocks: seq<BlockRef>)
    requires |blocks| < 0x1_0000_0000
    requires AllOk(blocks)
    ensures DecodeBody(guard, EncodeBody(activation, blocks)) == Ok(Decoded(guard, Some(activation), blocks))
  {
    hide BeBytes, FromBe, EncodeBlocks, DecodeBlocks;
    var body := EncodeBody(activation, blocks);
    assert body[..8] == BeBytes(activation, 8);
    assert body[8..12] == BeBytes(|blocks|, 4);
    assert body[12..] == EncodeBlocks(blocks);
    Widths();
    BeRoundTrip(|blocks|, 4);
    U64RoundTrip(activation);
    BlocksRoundTrip(blocks);
  }

  /** Decoding an encoded checkpoint gives back the guard, the activation block
      and the whole history. */
  lemma DecodeEncode(guard: Option<RollbackGuard>, activation: u64, blocks: seq<BlockRef>)
    requires |blocks| < 0x1_0000_0000
    requires AllOk(blocks)
    ensures var r := Encode(guard, activation, blocks);
            r.Ok? && Decode(r.value) == Ok(Decoded(guard, Some(activation), blocks))
  {
    hide DecodeBody, DecodeGuard, EncodeGuard;
    var head, body := EncodeHead(guard), EncodeBody(activation, blocks);
    var bs := head + body;
    EncodingIsTagged(guard, activation, blocks);
    BodyRoundTrip(guard, activation, blocks);
    assert bs[..8] == MAGIC;
    if guard.Some? {
      GuardRoundTrip(guard.value);
      assert bs[9..97] == EncodeGuard(guard.value);
      assert bs[97..] == body;
    } else {
      assert bs[9..] == body;
    }
  }

  lemma BodyBytesRoundTrip(guard: Option<RollbackGuard>, body: Bytes)
    requires DecodeBody(guard, body).Ok?
    ensures var d := DecodeBody(guard, body).value;
            |d.blocks| < 0x1_0000_0000 && EncodeBody(d.activationBlock.value, d.blocks) == body
  {
    hide BeBytes, FromBe, EncodeBlocks, DecodeBlocks;
    BeOfFromBe(body[..8]);
    BeOfFromBe(body[8..12]);
    Widths();
    BlockListBytesRoundTrip(body[12..]);
    assert body == body[..8] + body[8..12] + body[12..];
  }

  /** Re-encoding what a tagged input decodes to gives back the same bytes. */
  lemma EncodeDecode(bs: Bytes)
    requires IsTagged(bs) && Decode(bs).Ok?
    ensures var d := Decode(bs).value;
            d.activationBlock.Some? && Encode(d.guard, d.activationBlock.value, d.blocks) == Ok(bs)
  {
    hide DecodeGuard, EncodeGuard, BeBytes, FromBe, EncodeBlocks, DecodeBlocks;
    if bs[8] == 0 {
      BodyBytesRoundTrip(None, bs[9..]);
      assert bs == EncodeHead(None) + bs[9..];
    } else {
      var guard := Some(DecodeGuard(bs[9..97]));
      BodyBytesRoundTrip(guard, bs[97..]);
      GuardBytesRoundTrip(bs[9..97]);
      assert EncodeHead(guard) == bs[..97];
      assert bs == EncodeHead(guard) + bs[97..];
    }
  }

  // ----- The codec as it runs -----

  method AppendBlocks(prefix: Bytes, blocks: seq<BlockRef>) returns (r: Result<Bytes, CodecError>)
    ensures r == if AllOk(blocks) then Ok(prefix + EncodeBlocks(blocks)) else Err(CodecError.InvalidHashWidth)
  {
    var encoded := prefix;
    var i := 0;
    while i < |blocks|
      invariant 0 <= i <= |blocks|
      invariant AllOk(blocks[..i])
      invariant encoded == prefix + EncodeBlocks(blocks[..i])
    {
      if !BlockRefOk(blocks[i]) { return Err(CodecError.InvalidHashWidth); }
      assert blocks[..i + 1][..i] == blocks[..i];
      encoded := encoded + BeBytes(blocks[i].number, 8);
      encoded := encoded + blocks[i].hash;
      encoded := encoded + blocks[i].parentHash;
      encoded := encoded + BeBytes(blocks[i].timestamp, 8);
      i := i + 1;
    }
    assert blocks[..|blocks|] == blocks;
    r := Ok(encoded);
  }

  /** Appends the fields one after the other. */
  method EncodeSourceCheckpoint(guard: Option<RollbackGuard>, activation: u64, blocks: seq<BlockRef>) returns (r: Result<Bytes, CodecError>)
    ensures r == Encode(guard, activation, blocks)
  {
    if |blocks| >= 0x1_0000_0000 { return Err(HistoryTooLarge); }
    var encoded := MAGIC;
    encoded := encoded + [if guard.Some? then 1 else 0];
    if guard.Some? {
      encoded := encoded + EncodeGuard(guard.value);
    }
    assert encoded == EncodeHead(guard);
    encoded := encoded + BeBytes(activation, 8);
    encoded := encoded + BeBytes(|blocks|, 4);
    r := AppendBlocks(encoded, blocks);
    assert r.Ok? ==> r.value == EncodeHead(guard) + EncodeBody(activation, blocks);
  }

  method ReadBlocks(bs: Bytes, start: nat, count: nat) returns (blocks: seq<BlockRef>)
    requires |bs| == start + count * BLOCK_LEN
    ensures blocks == DecodeBlocks(bs[start..])
  {
    ghost var tail := bs[start..];
    var offset := start;
    blocks := [];
    for i := 0 to count
      invariant offset == start + i * BLOCK_LEN
      invariant blocks == DecodeBlocks(tail[..i * BLOCK_LEN])
    {
      ghost var next := tail[..(i + 1) * BLOCK_LEN];
      assert next[..i * BLOCK_LEN] == tail[..i * BLOCK_LEN];
      assert next[i * BLOCK_LEN..] == bs[offset..offset + BLOCK_LEN];
      blocks := blocks + [DecodeBlock(bs[offset..offset + BLOCK_LEN])];
      offset := offset + BLOCK_LEN;
    }
    assert tail[..count * BLOCK_LEN] == tail;
  }

  /** Reads the body that starts at `start`, field by field at a moving offset. */
  method ReadBody(guard: Option<RollbackGuard>, bs: Bytes, start: nat) returns (r: Result<Decoded, CodecError>)
    requires start <= |bs|
    ensures r == DecodeBody(guard, bs[start..])
  {
    var offset := start;
    ghost var body := bs[start..];
    if |bs| < offset + 8 { return Err(Truncated); }
    var activation := U64Of(bs[offset..offset + 8]);
    assert body[..8] == bs[offset..offset + 8];
    offset := offset + 8;
    if |bs| < offset + 4 { return Err(Truncated); }
    var count := FromBe(bs[offset..offset + 4]);
    assert body[8..12] == bs[offset..offset + 4];
    offset := offset + 4;
    if |bs| != offset + count * BLOCK_LEN { return Err(LengthMismatch); }
    var blocks := ReadBlocks(bs, offset, count);
    assert body[12..] == bs[offset..];
    r := Ok(Decoded(guard, Some(activation), blocks));
  }

  method DecodeSourceCheckpoint(bs: Bytes) returns (r: Result<Decoded, CodecError>)
    ensures r == Decode(bs)
  {
    if bs == [] { return Ok(Decoded(None, None, [])); }
    if |bs| == GUARD_LEN { return Ok(Decoded(Some(DecodeGuard(bs)), None, [])); }
    if |bs| < 13 || bs[..8] != MAGIC { return Err(UnknownEncoding); }
    var offset := 8;
    var guard: Option<RollbackGuard> := None;
    if bs[offset] == 0 {
      offset := offset + 1;
    } else if bs[offset] == 1 {
      offset := offset + 1;
      if |bs| < offset + GUARD_LEN { return Err(TruncatedGuard); }
      guard := Some(DecodeGuard(bs[offset..offset + GUARD_LEN]));
      offset := offset + GUARD_LEN;
    } else {
      return Err(InvalidGuardTag);
    }
    r := ReadBody(guard, bs, offset);
  }
}
