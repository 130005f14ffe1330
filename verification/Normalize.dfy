/** Normalization of an admitted provider page into one ordered delivery
    (crates/hypersync/src/normalize.rs). */
module Normalize {
  import opened Protocol
  import opened Ordering
  import opened PageRules
  import opened PayloadRules
  import QueryPlan
  import SourceCheckpoint

  datatype NormalizeError = MalformedBlock | MalformedHeader | MalformedLog | LogWithoutBlock

  /** An event with its delivery scope, before its audience is known. */
  datatype Tagged = Tagged(event: ChainEvent, scope: int)

  // ----- Routing -----

  predicate CanonicalBackfill(owner: OwnerInterests, number: u64) {
    owner.canonical && BackfillContains(owner.backfill, number)
  }

  predicate GlobalBackfill(ds: DesiredState, number: u64) {
    exists i :: 0 <= i < |ds.owners| && CanonicalBackfill(ds.owners[i], number)
  }

  /** Heights every audience sees: at or past activation, or backfilled globally. */
  predicate CanonicalAt(ds: DesiredState, number: u64, activation: u64) {
    number >= activation || GlobalBackfill(ds, number)
  }

  function ScopeAt(ds: DesiredState, number: u64, activation: u64): int {
    if CanonicalAt(ds, number, activation) then SCOPE_CANONICAL_PROGRESS else SCOPE_OWNER_CATCHUP
  }

  predicate Active(ds: DesiredState, owner: OwnerInterests, number: u64, activation: u64) {
    CanonicalAt(ds, number, activation) || BackfillContains(owner.backfill, number)
  }

  predicate WantsBlocks(owner: OwnerInterests) {
    exists k :: 0 <= k < |owner.interests| && owner.interests[k].BlockInterest?
  }

  predicate WantsHeaderAt(ds: DesiredState, owner: OwnerInterests, number: u64, activation: u64) {
    Active(ds, owner, number, activation) && WantsBlocks(owner)
  }

  predicate HasActiveBlockInterest(ds: DesiredState, number: u64, activation: u64) {
    exists i :: 0 <= i < |ds.owners| && WantsHeaderAt(ds, ds.owners[i], number, activation)
  }

  /** The owner is active at the event's height and asks for the event. */
  predicate Hears(ds: DesiredState, owner: OwnerInterests, event: ChainEvent, activation: u64) {
    && Active(ds, owner, EventNumber(event), activation)
    && (exists k :: 0 <= k < |owner.interests| && QueryPlan.InterestMatches(owner.interests[k], event))
  }

  /** Interest that makes the event canonical rather than owner-scoped. */
  predicate HearsAsEveryone(ds: DesiredState, owner: OwnerInterests, event: ChainEvent, activation: u64) {
    && Hears(ds, owner, event, activation)
    && (GlobalBackfill(ds, EventNumber(event)) || (owner.canonical && EventNumber(event) >= activation))
  }

  predicate Broadcast(ds: DesiredState, event: ChainEvent, activation: u64) {
    exists i :: 0 <= i < |ds.owners| && HearsAsEveryone(ds, ds.owners[i], event, activation)
  }

  predicate HearsAlone(ds: DesiredState, owner: OwnerInterests, event: ChainEvent, activation: u64) {
    Hears(ds, owner, event, activation) && !HearsAsEveryone(ds, owner, event, activation)
  }

  /** Identifiers of the owners that hear the event for themselves. */
  function Listeners(ds: DesiredState, owners: seq<OwnerInterests>, event: ChainEvent, activation: u64): seq<string> {
    if owners == [] then []
    else
      var front, last := Listeners(ds, owners[..|owners| - 1], event, activation), owners[|owners| - 1];
      if HearsAlone(ds, last, event, activation) then front + [last.ownerId] else front
  }

  datatype Audience = Audience(canonical: bool, ownerIds: seq<string>)

  function AudienceOf(ds: DesiredState, event: ChainEvent, activation: u64): Audience {
    if event.BlockProgress? && CanonicalAt(ds, EventNumber(event), activation) then Audience(true, [])
    else if Broadcast(ds, event, activation) then Audience(true, [])
    else Audience(false, SortDedup(Lex(CharLess), Listeners(ds, ds.owners, event, activation)))
  }

  /** The record of an event, unless nobody hears it. */
  function RecordOf(ds: DesiredState, t: Tagged, activation: u64): Option<EventRecord> {
    var a := AudienceOf(ds, t.event, activation);
    if a.canonical || a.ownerIds != [] then Some(EventRecord(Some(t.event), a.canonical, a.ownerIds, t.scope)) else None
  }

  function RecordsOf(ds: DesiredState, events: seq<Tagged>, activation: u64): seq<EventRecord> {
    if events == [] then []
    else
      var front, last := RecordsOf(ds, events[..|events| - 1], activation), RecordOf(ds, events[|events| - 1], activation);
      if last.Some? then front + [last.value] else front
  }

  // ----- Events -----

  function ProgressOf(b: BlockRef): Tagged {
    Tagged(BlockProgress(Some(b)), SCOPE_CANONICAL_PROGRESS)
  }

  /** The header event, when somebody wants it, then the progress event. */
  function BlockEvents(ds: DesiredState, block: RawBlock, activation: u64): Result<seq<Tagged>, NormalizeError> {
    if !BlockFieldsOk(block) then Err(MalformedBlock)
    else
      var b := RefOf(block);
      var progress := if CanonicalAt(ds, b.number, activation) then [ProgressOf(b)] else [];
      if !HasActiveBlockInterest(ds, b.number, activation) then Ok(progress)
      else if block.headerRlp.None? then Err(MalformedHeader)
      else
        var header := BlockHeader(Some(b), block.headerRlp.value, block.totalDifficulty, block.size);
        Ok([Tagged(header, ScopeAt(ds, b.number, activation))] + progress)
  }

  function AllBlockEvents(ds: DesiredState, blocks: seq<RawBlock>, activation: u64): Result<seq<Tagged>, NormalizeError> {
    if blocks == [] then Ok([])
    else
      var front := AllBlockEvents(ds, blocks[..|blocks| - 1], activation);
      if front.Err? then front
      else
        var last := BlockEvents(ds, blocks[|blocks| - 1], activation);
        if last.Err? then last else Ok(front.value + last.value)
  }

  /** Timestamp of the latest row at a height. */
  function TimestampAt(blocks: seq<RawBlock>, number: u64): Option<u64> {
    if blocks == [] then None
    else
      var last := blocks[|blocks| - 1];
      if BlockFieldsOk(last) && last.number.value == number then Some(RefOf(last).timestamp)
      else TimestampAt(blocks[..|blocks| - 1], number)
  }

  /** Fields of a log that normalization insists on. */
  predicate LogReadable(log: RawLog) {
    && log.blockNumber.Some? && log.transactionIndex.Some? && log.logIndex.Some?
    && HasWidth(log.address, 20) && HasWidth(log.blockHash, 32) && HasWidth(log.transactionHash, 32)
    && log.data.Some? && log.removed.Some? && TopicsDense(log.topics)
  }

  function LeadingTopics(topics: seq<Option<Bytes>>): seq<Bytes> {
    if topics == [] || topics[0].None? then [] else [topics[0].value] + LeadingTopics(topics[1..])
  }

  function LogEventOf(log: RawLog, timestamp: u64): LogEvent
    requires LogReadable(log)
  {
    LogEvent(log.address.value, LeadingTopics(log.topics), log.data.value, log.blockNumber.value, log.blockHash.value,
             log.transactionHash.value, log.transactionIndex.value, log.logIndex.value, timestamp, log.removed.value)
  }

  function TaggedLog(ds: DesiredState, blocks: seq<RawBlock>, log: RawLog, activation: u64): Result<Tagged, NormalizeError> {
    if !LogReadable(log) then Err(MalformedLog)
    else if TimestampAt(blocks, log.blockNumber.value).None? then Err(LogWithoutBlock)
    else
      var number := log.blockNumber.value;
      Ok(Tagged(Log(LogEventOf(log, TimestampAt(blocks, number).value)), ScopeAt(ds, number, activation)))
  }

  function AllLogEvents(ds: DesiredState, blocks: seq<RawBlock>, logs: seq<RawLog>, activation: u64): Result<seq<Tagged>, NormalizeError> {
    if logs == [] then Ok([])
    else
      var front := AllLogEvents(ds, blocks, logs[..|logs| - 1], activation);
      if front.Err? then front
      else
        var last := TaggedLog(ds, blocks, logs[|logs| - 1], activation);
        if last.Err? then Err(last.error) else Ok(front.value + [last.value])
  }

  // ----- Sort keys -----

  /** Absent values sort first. */
  predicate OptionLeq(a: Option<u64>, b: Option<u64>) {
    a.None? || (b.Some? && a.value <= b.value)
  }

  predicate BlockLeq(a: RawBlock, b: RawBlock) {
    OptionLeq(a.number, b.number)
  }

  predicate LogLeq(a: RawLog, b: RawLog) {
    if a.blockNumber != b.blockNumber then OptionLeq(a.blockNumber, b.blockNumber)
    else if a.transactionIndex != b.transactionIndex then OptionLeq(a.transactionIndex, b.transactionIndex)
    else OptionLeq(a.logIndex, b.logIndex)
  }

  predicate TaggedLeq(a: Tagged, b: Tagged) {
    OrderLeq(EventOrder(a.event), EventOrder(b.event))
  }

  function Events(ds: DesiredState, page: Page, activation: u64): Result<seq<Tagged>, NormalizeError> {
    var blocks := StableSort(BlockLeq, page.blocks);
    var logs := StableSort(LogLeq, page.logs);
    var fromBlocks := AllBlockEvents(ds, blocks, activation);
    if fromBlocks.Err? then fromBlocks
    else
      var fromLogs := AllLogEvents(ds, blocks, logs, activation);
      if fromLogs.Err? then fromLogs else Ok(StableSort(TaggedLeq, fromBlocks.value + fromLogs.value))
  }

  // ----- The delivery -----

  /** The last block every audience sees. */
  function CoveredHead(ds: DesiredState, blocks: seq<RawBlock>, activation: u64): Option<BlockRef> {
    if blocks == [] then None
    else
      var last := blocks[|blocks| - 1];
      if BlockFieldsOk(last) && CanonicalAt(ds, last.number.value, activation) then Some(RefOf(last))
      else CoveredHead(ds, blocks[..|blocks| - 1], activation)
  }

  predicate Certifying(r: EventRecord, head: BlockRef) {
    && r.canonicalAudience && r.event.Some?
    && ExplicitBlock(r.event.value) == Some(head)
  }

  predicate HeadRecorded(records: seq<EventRecord>, head: BlockRef) {
    exists i :: 0 <= i < |records| && Certifying(records[i], head)
  }

  function WithHead(records: seq<EventRecord>, head: Option<BlockRef>): seq<EventRecord> {
    if head.Some? && records != [] && !HeadRecorded(records, head.value)
    then records + [EventRecord(Some(BlockProgress(head)), true, [], SCOPE_CANONICAL_PROGRESS)]
    else records
  }

  function EncodedGuard(g: Option<SourceCheckpoint.RollbackGuard>): Bytes {
    if g.None? then [] else SourceCheckpoint.EncodeGuard(g.value)
  }

  function NormalizeAt(ds: DesiredState, sequence: u64, page: Page, activation: u64): Result<Delivery, NormalizeError> {
    var events := Events(ds, page, activation);
    if events.Err? then Err(events.error)
    else
      var head := CoveredHead(ds, StableSort(BlockLeq, page.blocks), activation);
      var records := WithHead(RecordsOf(ds, events.value, activation), head);
      var cursor := Cursor(ds.chainId, ds.newRevision, page.nextBlock, head, sequence, EncodedGuard(page.guard), Some(activation));
      Ok(Delivery(ds.sessionId, sequence, ds.newRevision, Token(sequence), Some(cursor), Some(Data(records)), false))
  }

  // ----- Normalization as it runs -----

  method PushBlockEvents(ds: DesiredState, blocks: seq<RawBlock>, activation: u64)
    returns (r: Result<seq<Tagged>, NormalizeError>, timestamps: map<u64, u64>)
    ensures r == AllBlockEvents(ds, blocks, activation)
    ensures r.Ok? ==> forall n: u64 :: TimestampAt(blocks, n) == if n in timestamps then Some(timestamps[n]) else None
  {
    hide BlockEvents, RefOf;
    var events: seq<Tagged> := [];
    timestamps := map[];
    var i := 0;
    while i < |blocks|
      invariant 0 <= i <= |blocks|
      invariant AllBlockEvents(ds, blocks[..i], activation) == Ok(events)
      invariant forall n: u64 :: TimestampAt(blocks[..i], n) == if n in timestamps then Some(timestamps[n]) else None
    {
      assert blocks[..i + 1][..i] == blocks[..i];
      var pushed := BlockEvents(ds, blocks[i], activation);
      if pushed.Err? {
        FailedBlock(ds, blocks, i, activation);
        return Err(pushed.error), map[];
      }
      EventsNeedFields(ds, blocks[i], activation);
      timestamps := timestamps[blocks[i].number.value := RefOf(blocks[i]).timestamp];
      events := events + pushed.value;
      i := i + 1;
    }
    assert blocks[..|blocks|] == blocks;
    r := Ok(events);
  }

  lemma EventsNeedFields(ds: DesiredState, block: RawBlock, activation: u64)
    requires BlockEvents(ds, block, activation).Ok?
    ensures BlockFieldsOk(block)
  {
  }

  lemma {:induction false} FailedBlock(ds: DesiredState, blocks: seq<RawBlock>, i: nat, activation: u64)
    requires i < |blocks| && AllBlockEvents(ds, blocks[..i], activation).Ok?
    requires BlockEvents(ds, blocks[i], activation).Err?
    ensures AllBlockEvents(ds, blocks, activation) == Err(BlockEvents(ds, blocks[i], activation).error)
    decreases |blocks|
  {
    hide BlockEvents;
    var front := blocks[..|blocks| - 1];
    if i == |front| { assert front == blocks[..i]; }
    else {
      assert front[..i] == blocks[..i];
      FailedBlock(ds, front, i, activation);
    }
  }

  method PushLogEvents(ds: DesiredState, blocks: seq<RawBlock>, timestamps: map<u64, u64>, logs: seq<RawLog>, activation: u64)
    returns (r: Result<seq<Tagged>, NormalizeError>)
    requires forall n: u64 :: TimestampAt(blocks, n) == if n in timestamps then Some(timestamps[n]) else None
    ensures r == AllLogEvents(ds, blocks, logs, activation)
  {
    var events: seq<Tagged> := [];
    var i := 0;
    while i < |logs|
      invariant 0 <= i <= |logs|
      invariant AllLogEvents(ds, blocks, logs[..i], activation) == Ok(events)
    {
      var log := logs[i];
      assert logs[..i + 1][..i] == logs[..i];
      if !LogReadable(log) {
        FailedLog(ds, blocks, logs, i, activation);
        return Err(MalformedLog);
      }
      var number := log.blockNumber.value;
      if number !in timestamps {
        FailedLog(ds, blocks, logs, i, activation);
        return Err(LogWithoutBlock);
      }
      events := events + [Tagged(Log(LogEventOf(log, timestamps[number])), ScopeAt(ds, number, activation))];
      i := i + 1;
    }
    assert logs[..|logs|] == logs;
    r := Ok(events);
  }

  lemma {:induction false} FailedLog(ds: DesiredState, blocks: seq<RawBlock>, logs: seq<RawLog>, i: nat, activation: u64)
    requires i < |logs| && AllLogEvents(ds, blocks, logs[..i], activation).Ok?
    requires TaggedLog(ds, blocks, logs[i], activation).Err?
    ensures AllLogEvents(ds, blocks, logs, activation) == Err(TaggedLog(ds, blocks, logs[i], activation).error)
    decreases |logs|
  {
    hide TaggedLog;
    var front := logs[..|logs| - 1];
    if i == |front| { assert front == logs[..i]; }
    else {
      assert front[..i] == logs[..i];
      FailedLog(ds, blocks, front, i, activation);
    }
  }

  method EventAudience(ds: DesiredState, event: ChainEvent, activation: u64) returns (a: Audience)
    ensures a == AudienceOf(ds, event, activation)
  {
    if event.BlockProgress? && CanonicalAt(ds, EventNumber(event), activation) { return Audience(true, []); }
    hide Hears, GlobalBackfill, CanonicalAt;
    var canonical := false;
    var ownerIds: seq<string> := [];
    var i := 0;
    while i < |ds.owners|
      invariant 0 <= i <= |ds.owners|
      invariant canonical <==> exists k :: 0 <= k < i && HearsAsEveryone(ds, ds.owners[k], event, activation)
      invariant ownerIds == Listeners(ds, ds.owners[..i], event, activation)
    {
      var owner := ds.owners[i];
      assert ds.owners[..i + 1][..i] == ds.owners[..i];
      if Hears(ds, owner, event, activation) {
        if GlobalBackfill(ds, EventNumber(event)) || (owner.canonical && EventNumber(event) >= activation) {
          canonical := true;
        } else {
          ownerIds := ownerIds + [owner.ownerId];
        }
      }
      i := i + 1;
    }
    assert ds.owners[..|ds.owners|] == ds.owners;
    a := if canonical then Audience(true, []) else Audience(false, SortDedup(Lex(CharLess), ownerIds));
  }

  method FilterRecords(ds: DesiredState, events: seq<Tagged>, activation: u64) returns (records: seq<EventRecord>)
    ensures records == RecordsOf(ds, events, activation)
  {
    hide AudienceOf;
    records := [];
    var i := 0;
    while i < |events|
      invariant 0 <= i <= |events|
      invariant records == RecordsOf(ds, events[..i], activation)
    {
      assert events[..i + 1][..i] == events[..i];
      var a := EventAudience(ds, events[i].event, activation);
      if a.canonical || a.ownerIds != [] {
        records := records + [EventRecord(Some(events[i].event), a.canonical, a.ownerIds, events[i].scope)];
      }
      i := i + 1;
    }
    assert events[..|events|] == events;
  }

  method NormalizePage(ds: DesiredState, sequence: u64, page: Page, activation: u64) returns (r: Result<Delivery, NormalizeError>)
    ensures r == NormalizeAt(ds, sequence, page, activation)
  {
    var blocks := StableSort(BlockLeq, page.blocks);
    var logs := StableSort(LogLeq, page.logs);
    hide AllBlockEvents, AllLogEvents, RecordsOf, StableSort, BlockLeq, LogLeq, TaggedLeq, CanonicalAt, RefOf;
    var fromBlocks, timestamps := PushBlockEvents(ds, blocks, activation);
    if fromBlocks.Err? { return Err(fromBlocks.error); }
    var fromLogs := PushLogEvents(ds, blocks, timestamps, logs, activation);
    if fromLogs.Err? { return Err(fromLogs.error); }
    var events := StableSort(TaggedLeq, fromBlocks.value + fromLogs.value);
    var head: Option<BlockRef> := None;
    var k := |blocks|;
    assert blocks[..k] == blocks;
    while k > 0 && head.None?
      invariant 0 <= k <= |blocks|
      invariant CoveredHead(ds, blocks, activation) == if head.Some? then head else CoveredHead(ds, blocks[..k], activation)
    {
      var block := blocks[k - 1];
      assert blocks[..k][..k - 1] == blocks[..k - 1];
      if BlockFieldsOk(block) && CanonicalAt(ds, block.number.value, activation) { head := Some(RefOf(block)); }
      k := k - 1;
    }
    var records := FilterRecords(ds, events, activation);
    records := WithHead(records, head);
    var cursor := Cursor(ds.chainId, ds.newRevision, page.nextBlock, head, sequence, EncodedGuard(page.guard), Some(activation));
    r := Ok(Delivery(ds.sessionId, sequence, ds.newRevision, Token(sequence), Some(cursor), Some(Data(records)), false));
  }
}
