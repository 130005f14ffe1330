/** The bytes and strings other processes read: delivery tokens, barrier names and
    the source checkpoint. */
module WireFormats {
  import opened Protocol
  import opened Canonical
  import opened SourceCheckpoint

  /** A token is its sequence in eight big-endian bytes. */
  lemma TokenIsSequence(sequence: u64)
    ensures |Token(sequence)| == 8 && FromBe(Token(sequence)) == sequence
  {
    Widths();
    BeRoundTrip(sequence, 8);
  }

  // ----- Barrier names -----

  predicate IsDigit(c: char) { '0' <= c <= '9' }

  predicate Digits(s: string) { forall i :: 0 <= i < |s| ==> IsDigit(s[i]) }

  function DigitValue(c: char): nat {
    if IsDigit(c) then c as nat - '0' as nat else 0
  }

  function ValueOf(s: string): nat {
    if s == [] then 0 else ValueOf(s[..|s| - 1]) * 10 + DigitValue(s[|s| - 1])
  }

  lemma OneDigit(n: nat)
    requires n < 10
    ensures IsDigit("0123456789"[n]) && DigitValue("0123456789"[n]) == n
  {
  }

  /** A decimal is digits only and reads back as its number. */
  lemma {:induction false} DecimalReads(n: nat)
    ensures Digits(Decimal(n)) && ValueOf(Decimal(n)) == n
  {
    OneDigit(n % 10);
    if n < 10 {
      assert Decimal(n)[..0] == [];
    } else {
      DecimalReads(n / 10);
      assert Decimal(n)[..|Decimal(n)| - 1] == Decimal(n / 10);
    }
  }

  lemma NoColon(s: string)
    requires Digits(s)
    ensures ':' !in s
  {
  }

  lemma ColonNoLater(a: string, b: string, c: string, d: string)
    requires ':' !in a && a + ":" + b == c + ":" + d
    ensures |a| <= |c|
  {
    assert (c + ":" + d)[|c|] == ':';
    assert forall i :: 0 <= i < |a| ==> (a + ":" + b)[i] == a[i];
  }

  lemma SplitAtColon(a: string, b: string, c: string, d: string)
    requires ':' !in a && ':' !in c && a + ":" + b == c + ":" + d
    ensures a == c && b == d
  {
    ColonNoLater(a, b, c, d);
    ColonNoLater(c, d, a, b);
    var left, right := a + ":" + b, c + ":" + d;
    assert left[..|a|] == a && right[..|c|] == c;
    assert left[|a| + 1..] == b && right[|c| + 1..] == d;
  }

  lemma SamePrefix(prefix: string, a: string, b: string)
    requires prefix + a == prefix + b
    ensures a == b
  {
    assert (prefix + a)[|prefix|..] == a && (prefix + b)[|prefix|..] == b;
  }

  /** Activation names tell revisions apart. */
  lemma ActivationNamesRevision(a: u64, b: u64)
    requires ActivationId(a) == ActivationId(b)
    ensures a == b
  {
    DecimalReads(a);
    DecimalReads(b);
    SamePrefix("desired-state:", Decimal(a), Decimal(b));
  }

  lemma ProgressSpelled(r: u64, n: u64)
    ensures ProgressId(r, n) == "source-progress:" + (Decimal(r) + ":" + Decimal(n)) && ':' !in Decimal(r)
    ensures ValueOf(Decimal(r)) == r && ValueOf(Decimal(n)) == n
  {
    DecimalReads(r);
    DecimalReads(n);
    NoColon(Decimal(r));
  }

  /** Progress names tell revisions and cursors apart. */
  lemma ProgressNamesCursor(r: u64, n: u64, s: u64, m: u64)
    requires ProgressId(r, n) == ProgressId(s, m)
    ensures r == s && n == m
  {
    ProgressSpelled(r, n);
    ProgressSpelled(s, m);
    hide *;
    SamePrefix("source-progress:", Decimal(r) + ":" + Decimal(n), Decimal(s) + ":" + Decimal(m));
    SplitAtColon(Decimal(r), Decimal(n), Decimal(s), Decimal(m));
  }

  /** No name is both, and both are spelled as the other processes spell them. */
  lemma NamesAreSpelled(a: u64, r: u64, n: u64)
    ensures ActivationId(a) != ProgressId(r, n)
    ensures ActivationId(12) == "desired-state:12" && ProgressId(3, 45) == "source-progress:3:45"
  {
    assert ActivationId(a)[0] == 'd' && ProgressId(r, n)[0] == 's';
    assert Decimal(12) == "12" && Decimal(3) == "3" && Decimal(45) == "45";
  }

  // ----- The source checkpoint -----

  /** Bytes spelling a string of ASCII characters. */
  ghost predicate SpellsAscii(bs: Bytes, s: string) {
    |bs| == |s| && forall i :: 0 <= i < |s| ==> bs[i] == s[i] as int
  }

  /** Eight bytes of signed time, most significant first, negative times from the top. */
  predicate IsTime(bs: Bytes, t: i64) {
    FromBe(bs) == if t >= 0 then t else 0x1_0000_0000_0000_0000 + t
  }

  ghost predicate GuardLaidOut(bs: Bytes, g: RollbackGuard) {
    && |bs| == 88
    && FromBe(bs[..8]) == g.blockNumber && bs[8..40] == g.hash && IsTime(bs[40..48], g.timestamp)
    && FromBe(bs[48..56]) == g.firstBlockNumber && bs[56..88] == g.firstParentHash
  }

  ghost predicate BlockLaidOut(bs: Bytes, b: BlockRef) {
    && |bs| == 80
    && FromBe(bs[..8]) == b.number && bs[8..40] == b.hash && bs[40..72] == b.parentHash && FromBe(bs[72..80]) == b.timestamp
  }

  lemma ReadsBack(x: nat)
    requires x <= U64_MAX
    ensures FromBe(BeBytes(x, 8)) == x
  {
    Widths();
    BeRoundTrip(x, 8);
  }

  lemma GuardLayout(g: RollbackGuard)
    ensures GuardLaidOut(EncodeGuard(g), g)
  {
    ReadsBack(g.blockNumber);
    ReadsBack(SignedBits(g.timestamp));
    ReadsBack(g.firstBlockNumber);
    hide BeBytes, FromBe;
    var bs := EncodeGuard(g);
    assert bs[..8] == BeBytes(g.blockNumber, 8) && bs[8..40] == g.hash;
    assert bs[40..48] == BeBytes(SignedBits(g.timestamp), 8) && bs[48..56] == BeBytes(g.firstBlockNumber, 8);
    assert bs[56..88] == g.firstParentHash;
  }

  lemma BlockLayout(b: BlockRef)
    requires BlockRefOk(b)
    ensures BlockLaidOut(EncodeBlock(b), b)
  {
    ReadsBack(b.number);
    ReadsBack(b.timestamp);
    hide BeBytes, FromBe;
    var bs := EncodeBlock(b);
    assert bs[..8] == BeBytes(b.number, 8) && bs[8..40] == b.hash && bs[40..72] == b.parentHash && bs[72..80] == BeBytes(b.timestamp, 8);
  }

  lemma {:induction false} BlocksLayout(blocks: seq<BlockRef>, i: nat)
    requires AllOk(blocks) && i < |blocks|
    ensures BlockLaidOut(EncodeBlocks(blocks)[80 * i..80 * i + 80], blocks[i])
  {
    var front, last := blocks[..|blocks| - 1], blocks[|blocks| - 1];
    var bs := EncodeBlocks(blocks);
    assert bs == EncodeBlocks(front) + EncodeBlock(last);
    hide EncodeBlocks, EncodeBlock, BlockLaidOut;
    if i == |front| {
      BlockLayout(last);
      assert bs[80 * i..80 * i + 80] == EncodeBlock(last);
    } else {
      BlocksLayout(front, i);
      assert bs[80 * i..80 * i + 80] == EncodeBlocks(front)[80 * i..80 * i + 80];
    }
  }

  /** The checkpoint, byte by byte: the magic, the guard tag and guard, the activation
      block, the number of blocks, and each block in turn. */
  ghost predicate LaidOut(bs: Bytes, guard: Option<RollbackGuard>, activation: u64, blocks: seq<BlockRef>) {
    var o := if guard.Some? then 97 else 9;
    && |bs| == o + 12 + 80 * |blocks|
    && SpellsAscii(bs[..8], "EFCHSCP2")
    && (if guard.Some? then bs[8] == 1 && GuardLaidOut(bs[9..97], guard.value) else bs[8] == 0)
    && FromBe(bs[o..o + 8]) == activation && FromBe(bs[o + 8..o + 12]) == |blocks|
    && forall i :: 0 <= i < |blocks| ==> BlockAt(bs, o + 12, i, blocks[i])
  }

  ghost predicate BlockAt(bs: Bytes, start: nat, i: nat, b: BlockRef) {
    start + 80 * i + 80 <= |bs| && BlockLaidOut(bs[start + 80 * i..start + 80 * i + 80], b)
  }

  lemma HeadLayout(guard: Option<RollbackGuard>)
    ensures var bs := EncodeHead(guard);
            && |bs| == (if guard.Some? then 97 else 9) && SpellsAscii(bs[..8], "EFCHSCP2")
            && (if guard.Some? then bs[8] == 1 && GuardLaidOut(bs[9..97], guard.value) else bs[8] == 0)
  {
    var bs := EncodeHead(guard);
    assert bs[..8] == MAGIC;
    if guard.Some? {
      GuardLayout(guard.value);
      assert bs[9..97] == EncodeGuard(guard.value);
    }
    hide GuardLaidOut, EncodeGuard;
  }

  lemma BodyLayout(activation: u64, blocks: seq<BlockRef>)
    requires AllOk(blocks) && |blocks| < 0x1_0000_0000
    ensures var bs := EncodeBody(activation, blocks);
            && FromBe(bs[..8]) == activation && FromBe(bs[8..12]) == |blocks|
            && forall i :: 0 <= i < |blocks| ==> BlockAt(bs, 12, i, blocks[i])
  {
    var bs := EncodeBody(activation, blocks);
    ReadsBack(activation);
    Widths();
    BeRoundTrip(|blocks|, 4);
    hide BeBytes, FromBe, EncodeBlocks, BlockLaidOut;
    assert bs[..8] == BeBytes(activation, 8) && bs[8..12] == BeBytes(|blocks|, 4) && bs[12..] == EncodeBlocks(blocks);
    forall i | 0 <= i < |blocks| ensures BlockAt(bs, 12, i, blocks[i]) {
      BlocksLayout(blocks, i);
      assert bs[12 + 80 * i..12 + 80 * i + 80] == EncodeBlocks(blocks)[80 * i..80 * i + 80];
    }
  }

  lemma JoinedLayout(head: Bytes, body: Bytes, guard: Option<RollbackGuard>, activation: u64, blocks: seq<BlockRef>)
    requires |head| == (if guard.Some? then 97 else 9) && SpellsAscii(head[..8], "EFCHSCP2")
    requires if guard.Some? then head[8] == 1 && GuardLaidOut(head[9..97], guard.value) else head[8] == 0
    requires |body| == 12 + 80 * |blocks| && FromBe(body[..8]) == activation && FromBe(body[8..12]) == |blocks|
    requires forall i :: 0 <= i < |blocks| ==> BlockAt(body, 12, i, blocks[i])
    ensures LaidOut(head + body, guard, activation, blocks)
  {
    hide GuardLaidOut, FromBe, SpellsAscii, BlockLaidOut;
    var bs, o := head + body, |head|;
    assert bs[..8] == head[..8] && bs[8] == head[8];
    assert guard.Some? ==> bs[9..97] == head[9..97];
    assert bs[o..o + 8] == body[..8] && bs[o + 8..o + 12] == body[8..12];
    forall i | 0 <= i < |blocks| ensures BlockAt(bs, o + 12, i, blocks[i]) { BlockShifts(head, body, i, blocks[i]); }
    hide BlockAt;
  }

  lemma BlockShifts(head: Bytes, body: Bytes, i: nat, b: BlockRef)
    requires BlockAt(body, 12, i, b)
    ensures BlockAt(head + body, |head| + 12, i, b)
  {
    hide BlockLaidOut;
    var o := |head| + 12 + 80 * i;
    assert (head + body)[o..o + 80] == body[12 + 80 * i..12 + 80 * i + 80];
  }

  /** What a checkpoint encodes to. */
  lemma CheckpointLayout(guard: Option<RollbackGuard>, activation: u64, blocks: seq<BlockRef>)
    requires Encode(guard, activation, blocks).Ok?
    ensures LaidOut(Encode(guard, activation, blocks).value, guard, activation, blocks)
  {
    HeadLayout(guard);
    BodyLayout(activation, blocks);
    hide EncodeHead, EncodeBody, GuardLaidOut, FromBe, SpellsAscii, BlockAt, LaidOut;
    JoinedLayout(EncodeHead(guard), EncodeBody(activation, blocks), guard, activation, blocks);
  }
}
