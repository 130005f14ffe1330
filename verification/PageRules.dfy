/** Validation of one provider page against the query that produced it
    (crates/hypersync/src/page_validation.rs). */
module PageRules {
  import opened Protocol
  import opened Canonical
  import opened SourceCheckpoint

  /** A provider block row. Quantities are minimal big-endian bytes; the
      reconstructed consensus header is an opaque optional field. */
  datatype RawBlock = RawBlock(
    number: Option<u64>,
    hash: Option<Bytes>,
    parentHash: Option<Bytes>,
    timestamp: Option<Bytes>,
    headerRlp: Option<Bytes>,
    totalDifficulty: Bytes,
    size: Bytes)

  datatype RawLog = RawLog(
    address: Option<Bytes>,
    topics: seq<Option<Bytes>>,
    data: Option<Bytes>,
    blockNumber: Option<u64>,
    blockHash: Option<Bytes>,
    transactionHash: Option<Bytes>,
    transactionIndex: Option<u64>,
    logIndex: Option<u64>,
    removed: Option<bool>)

  datatype Page = Page(
    archiveHeight: Option<u64>,
    nextBlock: u64,
    blocks: seq<RawBlock>,
    logs: seq<RawLog>,
    guard: Option<RollbackGuard>)

  predicate HasWidth(field: Option<Bytes>, width: nat) {
    field.Some? && |field.value| == width
  }

  lemma {:induction false} PowGrows(m: nat, n: nat)
    requires m <= n
    ensures Pow256(m) <= Pow256(n)
  {
    if m < n { PowGrows(m, n - 1); }
  }

  function Quantity(bs: Bytes): u64
    requires |bs| <= 8
  {
    BeOfFromBe(bs);
    PowGrows(|bs|, 8);
    Widths();
    FromBe(bs)
  }

  predicate BlockFieldsOk(b: RawBlock) {
    && b.number.Some? && HasWidth(b.hash, 32) && HasWidth(b.parentHash, 32)
    && b.timestamp.Some? && |b.timestamp.value| <= 8
  }

  function RefOf(b: RawBlock): (r: BlockRef)
    requires BlockFieldsOk(b)
    ensures BlockRefOk(r)
  {
    BlockRef(b.number.value, b.hash.value, b.parentHash.value, Quantity(b.timestamp.value))
  }

  predicate AllFieldsOk(blocks: seq<RawBlock>) {
    forall i :: 0 <= i < |blocks| ==> BlockFieldsOk(blocks[i])
  }

  function Refs(blocks: seq<RawBlock>): (rs: seq<BlockRef>)
    requires AllFieldsOk(blocks)
    ensures |rs| == |blocks|
    ensures forall i :: 0 <= i < |blocks| ==> rs[i] == RefOf(blocks[i])
  {
    seq(|blocks|, i requires 0 <= i < |blocks| => RefOf(blocks[i]))
  }

  /** Linked blocks at the heights from `from` on. */
  ghost predicate BlocksOk(blocks: seq<RawBlock>, from: u64) {
    && AllFieldsOk(blocks)
    && Linked(Refs(blocks))
    && (blocks != [] ==> Refs(blocks)[0].number == from)
    && from + |blocks| <= U64_MAX
  }

  /** The guard describes the first and last row of the page. */
  predicate GuardOk(g: RollbackGuard, refs: seq<BlockRef>) {
    && refs != []
    && var first, last := refs[0], refs[|refs| - 1];
    && g.firstBlockNumber == first.number && g.firstParentHash == first.parentHash
    && g.blockNumber == last.number && g.hash == last.hash
    && last.timestamp <= I64_MAX && g.timestamp == last.timestamp
  }

  /** Topics fill leading positions only. */
  predicate TopicsDense(topics: seq<Option<Bytes>>) {
    && (forall i :: 0 <= i < |topics| && topics[i].Some? ==> |topics[i].value| == 32)
    && (forall i, j :: 0 <= i < j < |topics| && topics[j].Some? ==> topics[i].Some?)
  }

  predicate TopicsOk(topics: seq<Option<Bytes>>) {
    |topics| <= 4 && TopicsDense(topics)
  }

  predicate LogFieldsOk(log: RawLog) {
    && log.blockNumber.Some? && HasWidth(log.blockHash, 32) && log.removed == Some(false)
    && HasWidth(log.address, 20) && HasWidth(log.transactionHash, 32) && log.data.Some?
    && TopicsOk(log.topics)
    && log.transactionIndex.Some? && log.logIndex.Some?
  }

  /** A complete log of one of the page's blocks. */
  predicate LogOk(log: RawLog, from: u64, refs: seq<BlockRef>) {
    && LogFieldsOk(log)
    && from <= log.blockNumber.value < from + |refs|
    && log.blockHash.value == refs[log.blockNumber.value - from].hash
  }

  /** Different logs of consistently numbered transactions. */
  predicate RawLogsAgree(a: RawLog, b: RawLog) {
    a.blockHash == b.blockHash ==>
      && a.logIndex != b.logIndex
      && (a.transactionHash == b.transactionHash <==> a.transactionIndex == b.transactionIndex)
  }

  ghost predicate LogsOk(logs: seq<RawLog>, from: u64, refs: seq<BlockRef>) {
    && (forall i :: 0 <= i < |logs| ==> LogOk(logs[i], from, refs))
    && PairwiseAgree(logs)
  }

  ghost predicate PageOk(page: Page, from: u64, to: u64) {
    && page.nextBlock <= to
    && (page.archiveHeight.Some? ==> page.archiveHeight.value >= page.nextBlock)
    && BlocksOk(page.blocks, from)
    && from + |page.blocks| == page.nextBlock
    && (page.guard.Some? ==> GuardOk(page.guard.value, Refs(page.blocks)))
    && LogsOk(page.logs, from, Refs(page.blocks))
  }

  // ----- The validator as it runs -----

  lemma BlocksGrow(blocks: seq<RawBlock>, b: RawBlock, from: u64)
    requires BlocksOk(blocks, from)
    ensures BlocksOk(blocks + [b], from) <==>
            && BlockFieldsOk(b) && b.number.value == from + |blocks| && from + |blocks| < U64_MAX
            && (blocks != [] ==> b.parentHash.value == blocks[|blocks| - 1].hash.value)
  {
    var all := blocks + [b];
    assert all[|blocks|] == b && forall i :: 0 <= i < |blocks| ==> all[i] == blocks[i];
    LinkedContiguous(Refs(blocks));
    if blocks != [] { assert Refs(blocks)[|blocks| - 1].number == from + |blocks| - 1; }
    if BlockFieldsOk(b) {
      var before, refs := Refs(blocks), Refs(all);
      assert forall i :: 0 <= i < |blocks| ==> refs[i] == before[i];
      LinkedGrows(before, RefOf(b));
      assert refs == before + [RefOf(b)];
    }
  }

  lemma LinkedGrows(s: seq<BlockRef>, b: BlockRef)
    ensures Linked(s + [b]) <==> Linked(s) && (s != [] ==> Follows(s[|s| - 1], b))
  {
    var t := s + [b];
    assert forall i :: 0 <= i < |s| ==> t[i] == s[i];
    if Linked(t) && s != [] { assert Follows(t[|s| - 1], t[|s|]); }
    if Linked(t) {
      forall i | 0 <= i < |s| - 1 ensures Follows(s[i], s[i + 1]) { assert Follows(t[i], t[i + 1]); }
    }
  }

  lemma BlocksPrefix(blocks: seq<RawBlock>, from: u64, n: nat)
    requires BlocksOk(blocks, from) && n <= |blocks|
    ensures BlocksOk(blocks[..n], from)
  {
    var refs, front := Refs(blocks), Refs(blocks[..n]);
    assert forall i :: 0 <= i < n ==> front[i] == refs[i];
    forall i | 0 <= i < n - 1 ensures Follows(front[i], front[i + 1]) { assert Follows(refs[i], refs[i + 1]); }
  }

  /** Walks the rows with an expected height and the previous hash. */
  method ValidateBlocks(blocks: seq<RawBlock>, from: u64) returns (ok: bool, expected: u64)
    ensures ok <==> BlocksOk(blocks, from)
    ensures ok ==> expected == from + |blocks|
  {
    hide BlocksOk;
    expected := from;
    var previousHash: Option<Bytes> := None;
    var i := 0;
    NoBlocks(from);
    while i < |blocks|
      invariant 0 <= i <= |blocks| && expected == from + i
      invariant BlocksOk(blocks[..i], from)
      invariant if i == 0 then previousHash.None? else previousHash.Some? && previousHash == blocks[i - 1].hash
    {
      var block := blocks[i];
      BlocksGrow(blocks[..i], block, from);
      assert blocks[..i] + [block] == blocks[..i + 1];
      if !BlockFieldsOk(block) || block.number.value != expected ||
        (previousHash.Some? && block.parentHash.value != previousHash.value) || expected == U64_MAX
      {
        if BlocksOk(blocks, from) { BlocksPrefix(blocks, from, i + 1); }
        return false, expected;
      }
      previousHash := block.hash;
      expected := expected + 1;
      i := i + 1;
    }
    assert blocks[..|blocks|] == blocks;
    ok := true;
  }

  lemma NoBlocks(from: u64)
    ensures BlocksOk([], from)
  {
  }

  // Lookup keys: a block's hash with an index or a transaction hash.
  datatype Slot = Slot(blockHash: Bytes, index: u64)
  datatype Transaction = Transaction(blockHash: Bytes, hash: Bytes)

  function LogSlot(log: RawLog): Slot
    requires LogFieldsOk(log)
  {
    Slot(log.blockHash.value, log.logIndex.value)
  }

  function TransactionSlot(log: RawLog): Slot
    requires LogFieldsOk(log)
  {
    Slot(log.blockHash.value, log.transactionIndex.value)
  }

  function TransactionOf(log: RawLog): Transaction
    requires LogFieldsOk(log)
  {
    Transaction(log.blockHash.value, log.transactionHash.value)
  }

  /** The identity set and the two transaction tables. */
  datatype Seen = Seen(logs: set<Slot>, indexes: map<Transaction, u64>, hashes: map<Slot, Bytes>)

  predicate Clashes(seen: Seen, log: RawLog)
    requires LogFieldsOk(log)
  {
    || LogSlot(log) in seen.logs
    || (TransactionOf(log) in seen.indexes && seen.indexes[TransactionOf(log)] != log.transactionIndex.value)
    || (TransactionSlot(log) in seen.hashes && seen.hashes[TransactionSlot(log)] != log.transactionHash.value)
  }

  predicate AllLogFieldsOk(logs: seq<RawLog>) {
    forall i :: 0 <= i < |logs| ==> LogFieldsOk(logs[i])
  }

  function Remember(seen: Seen, log: RawLog): Seen
    requires LogFieldsOk(log)
  {
    Seen(seen.logs + {LogSlot(log)},
         seen.indexes[TransactionOf(log) := log.transactionIndex.value],
         seen.hashes[TransactionSlot(log) := log.transactionHash.value])
  }

  /** The tables after a run of logs. */
  function SeenAfter(logs: seq<RawLog>): Seen
    requires AllLogFieldsOk(logs)
  {
    if logs == [] then Seen({}, map[], map[]) else Remember(SeenAfter(logs[..|logs| - 1]), logs[|logs| - 1])
  }

  ghost predicate AgreesWithAll(logs: seq<RawLog>, log: RawLog) {
    forall i :: 0 <= i < |logs| ==> RawLogsAgree(logs[i], log)
  }

  ghost predicate PairwiseAgree(logs: seq<RawLog>) {
    forall i, j :: 0 <= i < j < |logs| ==> RawLogsAgree(logs[i], logs[j])
  }

  /** One more remembered log adds exactly its own objections. */
  lemma ClashStep(seen: Seen, known: RawLog, log: RawLog)
    requires LogFieldsOk(known) && LogFieldsOk(log) && !Clashes(seen, known)
    ensures Clashes(Remember(seen, known), log) <==> Clashes(seen, log) || !RawLogsAgree(known, log)
  {
  }

  lemma AgreeStep(logs: seq<RawLog>, log: RawLog)
    requires logs != []
    ensures AgreesWithAll(logs, log) <==> AgreesWithAll(logs[..|logs| - 1], log) && RawLogsAgree(logs[|logs| - 1], log)
    ensures PairwiseAgree(logs) ==> PairwiseAgree(logs[..|logs| - 1]) && AgreesWithAll(logs[..|logs| - 1], logs[|logs| - 1])
  {
    var front := logs[..|logs| - 1];
    assert forall i :: 0 <= i < |front| ==> front[i] == logs[i];
  }

  /** The table lookups object exactly when some earlier log disagrees. */
  lemma {:induction false} ClashIffDisagreement(logs: seq<RawLog>, log: RawLog)
    requires AllLogFieldsOk(logs) && PairwiseAgree(logs) && LogFieldsOk(log)
    ensures Clashes(SeenAfter(logs), log) <==> !AgreesWithAll(logs, log)
    decreases |logs|
  {
    if logs != [] {
      var front, last := logs[..|logs| - 1], logs[|logs| - 1];
      AgreeStep(logs, log);
      hide LogFieldsOk, Clashes, RawLogsAgree, PairwiseAgree, AgreesWithAll, Remember;
      ClashIffDisagreement(front, last);
      ClashIffDisagreement(front, log);
      ClashStep(SeenAfter(front), last, log);
    }
  }

  lemma LogsGrow(logs: seq<RawLog>, log: RawLog, from: u64, refs: seq<BlockRef>)
    requires LogsOk(logs, from, refs)
    ensures PairwiseAgree(logs)
    ensures LogsOk(logs + [log], from, refs) <==> LogOk(log, from, refs) && AgreesWithAll(logs, log)
  {
    var all := logs + [log];
    assert all[|logs|] == log && forall i :: 0 <= i < |logs| ==> all[i] == logs[i];
    if LogsOk(all, from, refs) {
      forall i | 0 <= i < |logs| ensures RawLogsAgree(logs[i], log) { assert RawLogsAgree(all[i], all[|logs|]); }
    }
  }

  lemma LogsPrefix(logs: seq<RawLog>, from: u64, refs: seq<BlockRef>, n: nat)
    requires LogsOk(logs, from, refs) && n <= |logs|
    ensures LogsOk(logs[..n], from, refs)
  {
  }

  method ValidateTopics(topics: seq<Option<Bytes>>) returns (ok: bool)
    ensures ok <==> TopicsOk(topics)
  {
    if |topics| > 4 { return false; }
    var sawMissing := false;
    var i := 0;
    while i < |topics|
      invariant 0 <= i <= |topics| && TopicsOk(topics[..i])
      invariant sawMissing <==> exists k :: 0 <= k < i && topics[k].None?
    {
      if topics[i].Some? && (sawMissing || |topics[i].value| != 32) { return false; }
      if topics[i].None? { sawMissing := true; }
      i := i + 1;
    }
    assert topics[..|topics|] == topics;
    ok := true;
  }

  method ValidateLog(log: RawLog, from: u64, refs: seq<BlockRef>) returns (ok: bool)
    ensures ok <==> LogOk(log, from, refs)
  {
    if log.blockNumber.None? || log.blockNumber.value < from || log.blockNumber.value >= from + |refs| { return false; }
    if !HasWidth(log.blockHash, 32) || log.blockHash.value != refs[log.blockNumber.value - from].hash { return false; }
    if log.removed != Some(false) { return false; }
    if !HasWidth(log.address, 20) || !HasWidth(log.transactionHash, 32) || log.data.None? { return false; }
    var topicsOk := ValidateTopics(log.topics);
    ok := topicsOk && log.transactionIndex.Some? && log.logIndex.Some?;
  }

  method ValidateLogs(logs: seq<RawLog>, from: u64, refs: seq<BlockRef>) returns (ok: bool)
    ensures ok <==> LogsOk(logs, from, refs)
  {
    hide LogsOk, Clashes, AgreesWithAll, PairwiseAgree, Remember, LogFieldsOk, LogOk;
    var seen := Seen({}, map[], map[]);
    var i := 0;
    NoLogs(from, refs);
    while i < |logs|
      invariant 0 <= i <= |logs|
      invariant LogsOk(logs[..i], from, refs)
      invariant AllLogFieldsOk(logs[..i]) && seen == SeenAfter(logs[..i])
    {
      var log := logs[i];
      assert logs[..i + 1] == logs[..i] + [log] && logs[..i + 1][..i] == logs[..i];
      LogsGrow(logs[..i], log, from, refs);
      var valid := ValidateLog(log, from, refs);
      if valid { AcceptedLogReadable(log, from, refs); ClashIffDisagreement(logs[..i], log); }
      if !valid || Clashes(seen, log) {
        if LogsOk(logs, from, refs) { LogsPrefix(logs, from, refs, i + 1); }
        return false;
      }
      seen := Remember(seen, log);
      i := i + 1;
    }
    assert logs[..|logs|] == logs;
    ok := true;
  }

  lemma AcceptedLogReadable(log: RawLog, from: u64, refs: seq<BlockRef>)
    requires LogOk(log, from, refs)
    ensures LogFieldsOk(log)
  {
  }

  lemma NoLogs(from: u64, refs: seq<BlockRef>)
    ensures LogsOk([], from, refs)
  {
  }

  /** Accepts exactly the complete, linked and conflict-free pages of the range. */
  method ValidateSourcePage(page: Page, from: u64, to: u64) returns (ok: bool)
    ensures ok <==> PageOk(page, from, to)
  {
    hide BlocksOk, LogsOk, GuardOk;
    if page.nextBlock > to { return false; }
    if page.archiveHeight.Some? && page.archiveHeight.value < page.nextBlock { return false; }
    var blocksOk, expected := ValidateBlocks(page.blocks, from);
    if !blocksOk || expected != page.nextBlock { return false; }
    assert AllFieldsOk(page.blocks) by { BlocksReadable(page.blocks, from); }
    var refs := Refs(page.blocks);
    if page.guard.Some? && !GuardOk(page.guard.value, refs) { return false; }
    ok := ValidateLogs(page.logs, from, refs);
  }

  lemma BlocksReadable(blocks: seq<RawBlock>, from: u64)
    requires BlocksOk(blocks, from)
    ensures AllFieldsOk(blocks)
  {
  }
}
