/** What a provider page becomes, told from its raw rows and logs alone: which
    records there are, what each says, and who hears it
    (crates/hypersync/src/normalize.rs). */
module Routing {
  import opened Protocol
  import opened Ordering
  import opened SourceCheckpoint
  import opened PageRules
  import opened PayloadRules
  import opened Normalize
  import opened Emission
  import opened WireFormats
  import QueryPlan

  // ----- Who asks for what -----

  predicate Backfills(owner: OwnerInterests, n: u64) {
    match owner.backfill
    case None => false
    case Some(Backfill(start, end, _)) => start <= n && (end == None || n < end.value)
  }

  /** Some canonical entry backfills the height. */
  predicate BackfilledForAll(ds: DesiredState, n: u64) {
    exists j :: 0 <= j < |ds.owners| && ds.owners[j].canonical && Backfills(ds.owners[j], n)
  }

  predicate ForEveryone(ds: DesiredState, n: u64, activation: u64) {
    n >= activation || BackfilledForAll(ds, n)
  }

  predicate OnDuty(ds: DesiredState, i: nat, n: u64, activation: u64)
    requires i < |ds.owners|
  {
    ForEveryone(ds, n, activation) || Backfills(ds.owners[i], n)
  }

  /** A listed value, or any value when nothing is listed. */
  predicate Listed(values: seq<Bytes>, value: Option<Bytes>) {
    values == [] || exists j :: 0 <= j < |values| && value == Some(values[j])
  }

  /** The raw log carries a listed address, and at each position a listed topic. */
  predicate Selects(interest: Interest, log: RawLog) {
    && interest.LogInterest?
    && Listed(interest.addresses, log.address)
    && forall k :: 0 <= k < |interest.topics| ==> Listed(interest.topics[k], if k < |log.topics| then log.topics[k] else None)
  }

  /** Owner `i` asks for the raw log. */
  predicate AsksForLog(ds: DesiredState, i: nat, log: RawLog, activation: u64)
    requires i < |ds.owners| && log.blockNumber.Some?
  {
    OnDuty(ds, i, log.blockNumber.value, activation) && exists k :: 0 <= k < |ds.owners[i].interests| && Selects(ds.owners[i].interests[k], log)
  }

  /** Owner `i` asks for the header at a height. */
  predicate AsksForHeader(ds: DesiredState, i: nat, n: u64, activation: u64)
    requires i < |ds.owners|
  {
    OnDuty(ds, i, n, activation) && exists k :: 0 <= k < |ds.owners[i].interests| && ds.owners[i].interests[k].BlockInterest?
  }

  /** Whose asking makes an event everybody's: anybody's inside a global backfill,
      the canonical entry's from activation on. */
  predicate Speaks(ds: DesiredState, i: nat, n: u64, activation: u64)
    requires i < |ds.owners|
  {
    BackfilledForAll(ds, n) || (ds.owners[i].canonical && n >= activation)
  }

  /** The askers, by index. */
  type Askers = seq<bool>

  function LogAskers(ds: DesiredState, log: RawLog, activation: u64): (s: Askers)
    requires log.blockNumber.Some?
    ensures |s| == |ds.owners|
  {
    seq(|ds.owners|, i requires 0 <= i < |ds.owners| => AsksForLog(ds, i, log, activation))
  }

  function HeaderAskers(ds: DesiredState, n: u64, activation: u64): (s: Askers)
    ensures |s| == |ds.owners|
  {
    seq(|ds.owners|, i requires 0 <= i < |ds.owners| => AsksForHeader(ds, i, n, activation))
  }

  /** The record is for everybody when one of the askers speaks for all, and
      otherwise names exactly the askers; its scope tells whether the height is
      everybody's. */
  ghost predicate HeardBy(ds: DesiredState, n: u64, activation: u64, askers: Askers, r: EventRecord)
    requires |askers| == |ds.owners|
  {
    && (r.canonicalAudience <==> exists i :: 0 <= i < |askers| && askers[i] && Speaks(ds, i, n, activation))
    && (r.canonicalAudience ==> r.ownerIds == [])
    && (!r.canonicalAudience ==>
          forall id :: id in r.ownerIds <==> exists i :: 0 <= i < |askers| && askers[i] && ds.owners[i].ownerId == id)
    && r.scope == (if ForEveryone(ds, n, activation) then SCOPE_CANONICAL_PROGRESS else SCOPE_OWNER_CATCHUP)
  }

  // ----- What a record says -----

  /** The bytes are the number in big-endian form. */
  predicate Spells(bytes: Option<Bytes>, x: u64) {
    bytes.Some? && x < Pow256(|bytes.value|) && BeBytes(x, |bytes.value|) == bytes.value
  }

  /** The block is the row's, field by field. */
  predicate IsRowOf(b: BlockRef, row: RawBlock) {
    && row.number == Some(b.number) && row.hash == Some(b.hash) && row.parentHash == Some(b.parentHash)
    && Spells(row.timestamp, b.timestamp)
  }

  /** The event is the raw log's, field by field, with the leading topics. */
  predicate IsEventOf(e: LogEvent, log: RawLog) {
    && log.address == Some(e.address) && log.data == Some(e.data)
    && log.blockNumber == Some(e.blockNumber) && log.blockHash == Some(e.blockHash)
    && log.transactionHash == Some(e.transactionHash) && log.transactionIndex == Some(e.transactionIndex)
    && log.logIndex == Some(e.logIndex) && log.removed == Some(e.removed)
    && |e.topics| <= |log.topics|
    && (forall k :: 0 <= k < |e.topics| ==> log.topics[k] == Some(e.topics[k]))
    && (forall k :: |e.topics| <= k < |log.topics| ==> log.topics[k].None?)
  }

  ghost predicate RecordsLog(ds: DesiredState, page: Page, activation: u64, log: RawLog, r: EventRecord) {
    && r.event.Some? && r.event.value.Log? && IsEventOf(r.event.value.log, log)
    && (exists k :: 0 <= k < |page.blocks| && StampedBy(r.event.value.log, page.blocks[k]))
    && log.blockNumber.Some? && HeardBy(ds, log.blockNumber.value, activation, LogAskers(ds, log, activation), r)
  }

  /** The row at the log's height gives its timestamp. */
  predicate StampedBy(e: LogEvent, row: RawBlock) {
    row.number == Some(e.blockNumber) && Spells(row.timestamp, e.blockTimestamp)
  }

  ghost predicate RecordsHeader(ds: DesiredState, activation: u64, row: RawBlock, r: EventRecord) {
    && r.event.Some? && r.event.value.BlockHeader? && r.event.value.header.Some? && IsRowOf(r.event.value.header.value, row)
    && row.headerRlp == Some(r.event.value.headerRlp) && row.totalDifficulty == r.event.value.totalDifficulty && row.size == r.event.value.size
    && row.number.Some? && HeardBy(ds, row.number.value, activation, HeaderAskers(ds, row.number.value, activation), r)
  }

  ghost predicate RecordsProgress(ds: DesiredState, activation: u64, row: RawBlock, r: EventRecord) {
    && r.event.Some? && r.event.value.BlockProgress? && r.event.value.progress.Some? && IsRowOf(r.event.value.progress.value, row)
    && row.number.Some? && ForEveryone(ds, row.number.value, activation)
    && r.canonicalAudience && r.ownerIds == [] && r.scope == SCOPE_CANONICAL_PROGRESS
  }

  // ----- The model agrees -----

  lemma BackfillAgrees(ds: DesiredState, n: u64, activation: u64)
    ensures BackfilledForAll(ds, n) <==> GlobalBackfill(ds, n)
    ensures ForEveryone(ds, n, activation) <==> CanonicalAt(ds, n, activation)
    ensures forall i :: 0 <= i < |ds.owners| ==> (OnDuty(ds, i, n, activation) <==> Active(ds, ds.owners[i], n, activation))
  {
    assert forall j :: 0 <= j < |ds.owners| ==> (Backfills(ds.owners[j], n) <==> BackfillContains(ds.owners[j].backfill, n));
    if BackfilledForAll(ds, n) {
      var j :| 0 <= j < |ds.owners| && ds.owners[j].canonical && Backfills(ds.owners[j], n);
      assert CanonicalBackfill(ds.owners[j], n);
    }
    if GlobalBackfill(ds, n) {
      var j :| 0 <= j < |ds.owners| && CanonicalBackfill(ds.owners[j], n);
      assert ds.owners[j].canonical && Backfills(ds.owners[j], n);
    }
  }

  lemma {:induction false} LeadingTopicsAre(topics: seq<Option<Bytes>>)
    requires TopicsDense(topics)
    ensures var ts := LeadingTopics(topics);
            && |ts| <= |topics|
            && (forall k :: 0 <= k < |ts| ==> topics[k] == Some(ts[k]))
            && (forall k :: |ts| <= k < |topics| ==> topics[k].None?)
  {
    if topics != [] && topics[0].Some? {
      var rest := topics[1..];
      assert forall i :: 0 <= i < |rest| ==> rest[i] == topics[i + 1];
      LeadingTopicsAre(rest);
    }
  }

  lemma EventFields(log: RawLog, timestamp: u64)
    requires LogReadable(log)
    ensures IsEventOf(LogEventOf(log, timestamp), log)
  {
    LeadingTopicsAre(log.topics);
  }

  lemma ListedAgrees(values: seq<Bytes>, topics: seq<Bytes>, raw: seq<Option<Bytes>>, k: nat)
    requires |topics| <= |raw| && (forall j :: 0 <= j < |topics| ==> raw[j] == Some(topics[j])) && (forall j :: |topics| <= j < |raw| ==> raw[j].None?)
    ensures QueryPlan.PositionAccepts(values, topics, k) <==> Listed(values, if k < |raw| then raw[k] else None)
  {
    if values != [] {
      var value := if k < |raw| then raw[k] else None;
      if k < |topics| && topics[k] in values {
        var j :| 0 <= j < |values| && values[j] == topics[k];
      }
    }
  }

  /** Interests select raw logs exactly as they match events. */
  lemma SelectsAgrees(interest: Interest, e: LogEvent, log: RawLog)
    requires IsEventOf(e, log)
    ensures QueryPlan.InterestMatches(interest, Log(e)) <==> Selects(interest, log)
  {
    if interest.LogInterest? {
      forall k | 0 <= k < |interest.topics|
        ensures QueryPlan.PositionAccepts(interest.topics[k], e.topics, k) <==>
                Listed(interest.topics[k], if k < |log.topics| then log.topics[k] else None)
      {
        ListedAgrees(interest.topics[k], e.topics, log.topics, k);
      }
      if interest.addresses != [] && e.address in interest.addresses {
        var j :| 0 <= j < |interest.addresses| && interest.addresses[j] == e.address;
        assert log.address == Some(interest.addresses[j]);
      }
    }
  }

  /** Askers and hearers are the same owners. */
  ghost predicate SameHearers(ds: DesiredState, event: ChainEvent, activation: u64, askers: Askers)
    requires |askers| == |ds.owners|
  {
    forall i :: 0 <= i < |ds.owners| ==> (askers[i] <==> Hears(ds, ds.owners[i], event, activation))
  }

  lemma LogHearers(ds: DesiredState, e: LogEvent, log: RawLog, activation: u64)
    requires IsEventOf(e, log)
    ensures SameHearers(ds, Log(e), activation, LogAskers(ds, log, activation))
  {
    BackfillAgrees(ds, e.blockNumber, activation);
    hide OnDuty, Active, IsEventOf, Selects, QueryPlan.InterestMatches;
    assert log.blockNumber == Some(e.blockNumber) by { NumberKept(e, log); }
    forall i | 0 <= i < |ds.owners| ensures AsksForLog(ds, i, log, activation) <==> Hears(ds, ds.owners[i], Log(e), activation) {
      var owner := ds.owners[i];
      forall k | 0 <= k < |owner.interests| ensures QueryPlan.InterestMatches(owner.interests[k], Log(e)) <==> Selects(owner.interests[k], log) {
        SelectsAgrees(owner.interests[k], e, log);
      }
      if AsksForLog(ds, i, log, activation) {
        var k :| 0 <= k < |owner.interests| && Selects(owner.interests[k], log);
        assert QueryPlan.InterestMatches(owner.interests[k], Log(e));
      }
      if Hears(ds, owner, Log(e), activation) {
        var k :| 0 <= k < |owner.interests| && QueryPlan.InterestMatches(owner.interests[k], Log(e));
        assert Selects(owner.interests[k], log);
      }
    }
  }

  lemma NumberKept(e: LogEvent, log: RawLog)
    requires IsEventOf(e, log)
    ensures log.blockNumber == Some(e.blockNumber)
  {
  }

  lemma HeaderHearers(ds: DesiredState, event: ChainEvent, n: u64, activation: u64)
    requires event.BlockHeader? && EventNumber(event) == n
    ensures SameHearers(ds, event, activation, HeaderAskers(ds, n, activation))
    ensures (exists i :: 0 <= i < |ds.owners| && AsksForHeader(ds, i, n, activation)) <==> HasActiveBlockInterest(ds, n, activation)
  {
    BackfillAgrees(ds, n, activation);
    hide OnDuty, Active;
    forall i | 0 <= i < |ds.owners|
      ensures AsksForHeader(ds, i, n, activation) <==> Hears(ds, ds.owners[i], event, activation)
      ensures AsksForHeader(ds, i, n, activation) <==> WantsHeaderAt(ds, ds.owners[i], n, activation)
    {
      var owner := ds.owners[i];
      assert forall k :: 0 <= k < |owner.interests| ==> (QueryPlan.InterestMatches(owner.interests[k], event) <==> owner.interests[k].BlockInterest?);
      if Hears(ds, owner, event, activation) {
        var k :| 0 <= k < |owner.interests| && QueryPlan.InterestMatches(owner.interests[k], event);
        assert owner.interests[k].BlockInterest?;
      }
    }
  }

  /** A routed event is recorded exactly when somebody asks, for exactly those. */
  lemma AudienceExact(ds: DesiredState, event: ChainEvent, activation: u64, askers: Askers)
    requires !event.BlockProgress? && |askers| == |ds.owners| && SameHearers(ds, event, activation, askers)
    ensures var n := EventNumber(event);
            var r := RecordOf(ds, Tagged(event, ScopeAt(ds, n, activation)), activation);
            && (r.Some? <==> exists i :: 0 <= i < |askers| && askers[i])
            && (r.Some? ==> r.value.event == Some(event) && HeardBy(ds, n, activation, askers, r.value))
  {
    var n := EventNumber(event);
    BackfillAgrees(ds, n, activation);
    hide Hears, ForEveryone, CanonicalAt, BackfilledForAll, GlobalBackfill;
    forall i | 0 <= i < |ds.owners|
      ensures HearsAsEveryone(ds, ds.owners[i], event, activation) <==> askers[i] && Speaks(ds, i, n, activation)
    {
    }
    if Broadcast(ds, event, activation) {
      var i :| 0 <= i < |ds.owners| && HearsAsEveryone(ds, ds.owners[i], event, activation);
      assert askers[i] && Speaks(ds, i, n, activation);
    } else {
      AloneExact(ds, event, activation, askers);
    }
  }

  lemma AloneExact(ds: DesiredState, event: ChainEvent, activation: u64, askers: Askers)
    requires !event.BlockProgress? && |askers| == |ds.owners| && SameHearers(ds, event, activation, askers) && !Broadcast(ds, event, activation)
    ensures var a := AudienceOf(ds, event, activation);
            && !a.canonical && (forall id :: id in a.ownerIds <==> exists i :: 0 <= i < |askers| && askers[i] && ds.owners[i].ownerId == id)
            && (a.ownerIds != [] <==> exists i :: 0 <= i < |askers| && askers[i])
  {
    var a := AudienceOf(ds, event, activation);
    assert !a.canonical;
    hide Hears, AudienceOf, Broadcast;
    forall id ensures id in a.ownerIds <==> exists i :: 0 <= i < |askers| && askers[i] && ds.owners[i].ownerId == id {
      RoutingIsExact(ds, event, activation, id);
      if id in a.ownerIds {
        var i :| 0 <= i < |ds.owners| && HearsIt(ds, ds.owners[i], event, activation, id);
        assert askers[i] && ds.owners[i].ownerId == id;
      }
      if i :| 0 <= i < |askers| && askers[i] && ds.owners[i].ownerId == id {
        assert HearsIt(ds, ds.owners[i], event, activation, id);
      }
    }
    if a.ownerIds != [] { assert a.ownerIds[0] in a.ownerIds; }
    if i :| 0 <= i < |askers| && askers[i] { assert ds.owners[i].ownerId in a.ownerIds; }
  }

  // ----- A whole page -----

  lemma RowFields(row: RawBlock)
    requires BlockFieldsOk(row)
    ensures IsRowOf(RefOf(row), row)
  {
    BeOfFromBe(row.timestamp.value);
  }

  /** The records of an admitted page. */
  function PageRecordsOf(ds: DesiredState, page: Page, activation: u64): seq<EventRecord>
    requires Events(ds, page, activation).Ok?
  {
    RecordsOf(ds, Events(ds, page, activation).value, activation)
  }

  lemma LogStamped(ds: DesiredState, page: Page, from: u64, to: u64, activation: u64, log: RawLog)
    requires PageOk(page, from, to) && LogOk(log, from, Refs(page.blocks))
    ensures var e := EventOfLog(ds, Refs(page.blocks), from, activation, log).event.log;
            IsEventOf(e, log) && exists k :: 0 <= k < |page.blocks| && StampedBy(e, page.blocks[k])
  {
    RefsContiguous(page, from, to);
    var k := log.blockNumber.value - from;
    var e := EventOfLog(ds, Refs(page.blocks), from, activation, log).event.log;
    EventFields(log, Refs(page.blocks)[k].timestamp);
    RowFields(page.blocks[k]);
    assert Refs(page.blocks)[k] == RefOf(page.blocks[k]);
    assert StampedBy(e, page.blocks[k]);
  }

  /** The event of an admitted log is recorded exactly when an owner asks for the
      raw log; the record says what the log says, to exactly those who ask. */
  lemma LogRecorded(ds: DesiredState, page: Page, from: u64, to: u64, activation: u64, log: RawLog)
    requires PageOk(page, from, to) && LogOk(log, from, Refs(page.blocks))
    ensures var r := RecordOf(ds, EventOfLog(ds, Refs(page.blocks), from, activation, log), activation);
            && (r.Some? <==> exists i :: 0 <= i < |ds.owners| && AsksForLog(ds, i, log, activation))
            && (r.Some? ==> RecordsLog(ds, page, activation, log, r.value))
  {
    LogStamped(ds, page, from, to, activation, log);
    var t := EventOfLog(ds, Refs(page.blocks), from, activation, log);
    var askers := LogAskers(ds, log, activation);
    LogHearers(ds, t.event.log, log, activation);
    hide PageOk, SameHearers, HeardBy, AsksForLog, RecordOf, ScopeAt, IsEventOf, StampedBy, Refs;
    NumberKept(t.event.log, log);
    AudienceExact(ds, t.event, activation, askers);
    if i :| 0 <= i < |ds.owners| && AsksForLog(ds, i, log, activation) { assert askers[i]; }
  }

  /** Every log of the page that some owner asks for is among the records, and its
      record reaches that owner. */
  lemma AskedLogDelivered(ds: DesiredState, page: Page, from: u64, to: u64, activation: u64, log: RawLog, i: nat) returns (r: EventRecord)
    requires PageOk(page, from, to) && Events(ds, page, activation).Ok? && log in page.logs
    requires log.blockNumber.Some? && i < |ds.owners| && AsksForLog(ds, i, log, activation)
    ensures r in PageRecordsOf(ds, page, activation) && RecordsLog(ds, page, activation, log, r)
    ensures r.canonicalAudience || ds.owners[i].ownerId in r.ownerIds
  {
    HeardLogsRecorded(ds, page, from, to, activation, log);
    LogRecorded(ds, page, from, to, activation, log);
    r := RecordOf(ds, EventOfLog(ds, Refs(page.blocks), from, activation, log), activation).value;
    hide PageOk, Events, RecordsOf, RecordOf, AsksForLog, Refs, LogOk;
    assert LogAskers(ds, log, activation)[i];
  }

  lemma HeaderRecorded(ds: DesiredState, row: RawBlock, activation: u64)
    requires BlockFieldsOk(row) && row.headerRlp.Some?
    ensures var n := row.number.value;
            var r := RecordOf(ds, Tagged(HeaderOf(row), ScopeAt(ds, n, activation)), activation);
            && (r.Some? <==> exists i :: 0 <= i < |ds.owners| && AsksForHeader(ds, i, n, activation))
            && (r.Some? ==> RecordsHeader(ds, activation, row, r.value))
            && (Wanted(ds, row, activation) <==> exists i :: 0 <= i < |ds.owners| && AsksForHeader(ds, i, n, activation))
  {
    RowFields(row);
    var n := row.number.value;
    var askers := HeaderAskers(ds, n, activation);
    HeaderHearers(ds, HeaderOf(row), n, activation);
    hide SameHearers, HeardBy, AsksForHeader, RecordOf, ScopeAt, IsRowOf, HasActiveBlockInterest;
    AudienceExact(ds, HeaderOf(row), activation, askers);
    if i :| 0 <= i < |ds.owners| && AsksForHeader(ds, i, n, activation) { assert askers[i]; }
  }

  /** Every header some owner asks for is among the records and reaches them. */
  lemma AskedHeaderDelivered(ds: DesiredState, page: Page, from: u64, to: u64, activation: u64, k: nat, i: nat) returns (r: EventRecord)
    requires PageOk(page, from, to) && Events(ds, page, activation).Ok? && k < |page.blocks| && page.blocks[k].number.Some?
    requires i < |ds.owners| && AsksForHeader(ds, i, page.blocks[k].number.value, activation)
    ensures r in PageRecordsOf(ds, page, activation) && RecordsHeader(ds, activation, page.blocks[k], r)
    ensures r.canonicalAudience || ds.owners[i].ownerId in r.ownerIds
  {
    var row := page.blocks[k];
    var n := row.number.value;
    hide Events, RecordsOf, RecordOf, AsksForHeader, ScopeAt, HasActiveBlockInterest, SameHearers, LogsOk, RefOf;
    assert BlockFieldsOk(row) by { RefsContiguous(page, from, to); }
    hide PageOk, BlockFieldsOk, RecordsHeader;
    AskedIsWanted(ds, row, activation, i);
    HeaderInPage(ds, page, from, to, activation, k);
    HeaderRecorded(ds, row, activation);
    r := RecordOf(ds, Tagged(HeaderOf(row), ScopeAt(ds, n, activation)), activation).value;
    TaggedRecorded(ds, Events(ds, page, activation).value, activation, Tagged(HeaderOf(row), ScopeAt(ds, n, activation)), r);
    HeaderReaches(ds, activation, row, r, i);
  }

  lemma AskedIsWanted(ds: DesiredState, row: RawBlock, activation: u64, i: nat)
    requires BlockFieldsOk(row) && i < |ds.owners| && AsksForHeader(ds, i, row.number.value, activation)
    ensures Wanted(ds, row, activation)
  {
    var n := row.number.value;
    hide AsksForHeader, HasActiveBlockInterest, SameHearers;
    HeaderHearers(ds, BlockHeader(Some(RefOf(row)), [], [], []), n, activation);
  }

  lemma HeaderReaches(ds: DesiredState, activation: u64, row: RawBlock, r: EventRecord, i: nat)
    requires RecordsHeader(ds, activation, row, r) && i < |ds.owners| && AsksForHeader(ds, i, row.number.value, activation)
    ensures r.canonicalAudience || ds.owners[i].ownerId in r.ownerIds
  {
    hide AsksForHeader;
    assert HeaderAskers(ds, row.number.value, activation)[i];
  }

  /** Every row at a height everybody sees has its progress record. */
  lemma ProgressDelivered(ds: DesiredState, page: Page, from: u64, to: u64, activation: u64, k: nat) returns (r: EventRecord)
    requires PageOk(page, from, to) && Events(ds, page, activation).Ok? && k < |page.blocks| && page.blocks[k].number.Some?
    requires ForEveryone(ds, page.blocks[k].number.value, activation)
    ensures r in PageRecordsOf(ds, page, activation) && RecordsProgress(ds, activation, page.blocks[k], r)
  {
    RefsContiguous(page, from, to);
    RowFields(page.blocks[k]);
    assert Refs(page.blocks)[k] == RefOf(page.blocks[k]);
    BackfillAgrees(ds, page.blocks[k].number.value, activation);
    hide PageOk, Events, RecordsOf, ForEveryone, CanonicalAt, IsRowOf;
    CoveredRowRecorded(ds, page, from, to, activation, k);
    r := HeadRecord(Refs(page.blocks)[k]);
  }

  /** The record is that of some log, wanted header or visible row of the page. */
  ghost predicate Accounted(ds: DesiredState, page: Page, activation: u64, r: EventRecord) {
    || (exists log :: log in page.logs && RecordsLog(ds, page, activation, log, r))
    || (exists k :: 0 <= k < |page.blocks| && RecordsHeader(ds, activation, page.blocks[k], r))
    || (exists k :: 0 <= k < |page.blocks| && RecordsProgress(ds, activation, page.blocks[k], r))
  }

  /** The events of a page are those of its rows, none of them a log, and one per log. */
  lemma EventsAre(ds: DesiredState, page: Page, from: u64, to: u64, activation: u64) returns (rows: seq<Tagged>, fromLogs: seq<Tagged>, logs: seq<RawLog>)
    requires PageOk(page, from, to) && Events(ds, page, activation).Ok?
    ensures forall t :: t in Events(ds, page, activation).value <==> t in rows || t in fromLogs
    ensures forall t :: t in rows ==> RowBelow(t, page.nextBlock)
    ensures AllFieldsOk(page.blocks) && AllLogsOk(logs, from, Refs(page.blocks)) && LogsEmit(ds, Refs(page.blocks), from, activation, logs, fromLogs)
    ensures forall log :: log in logs <==> log in page.logs
  {
    var refs := Refs(page.blocks);
    logs := StableSort(LogLeq, page.logs);
    RefsContiguous(page, from, to);
    BlocksSorted(page, from, to);
    SortedLogs(page.logs, from, refs);
    SortMembers(LogLeq, page.logs);
    LogsEmitted(ds, page.blocks, from, activation, logs);
    RowsEmitted(ds, page.blocks, from, activation, |page.blocks|);
    assert page.blocks[..|page.blocks|] == page.blocks;
    rows, fromLogs := AllBlockEvents(ds, page.blocks, activation).value, AllLogEvents(ds, page.blocks, logs, activation).value;
    SortMembers(TaggedLeq, rows + fromLogs);
    hide AllBlockEvents, AllLogEvents, LogsOk, BlocksOk, Pairwise, AllGood, TaggedLeq, LogLeq, StableSort, AllLogsOk, HeadersPresent, LogsEmit, RowBelow;
  }

  lemma LogEventComes(ds: DesiredState, page: Page, from: u64, to: u64, activation: u64, t: Tagged) returns (log: RawLog)
    requires PageOk(page, from, to) && Events(ds, page, activation).Ok? && t in Events(ds, page, activation).value && t.event.Log?
    ensures log in page.logs && LogOk(log, from, Refs(page.blocks)) && t == EventOfLog(ds, Refs(page.blocks), from, activation, log)
  {
    var rows, fromLogs, logs := EventsAre(ds, page, from, to, activation);
    hide Events, PageOk, LogOk, EventOfLog;
    assert t in rows ==> RowBelow(t, page.nextBlock);
    var i :| 0 <= i < |fromLogs| && fromLogs[i] == t;
    log := logs[i];
    assert log in logs;
  }

  lemma ProgressEventComes(ds: DesiredState, page: Page, from: u64, to: u64, activation: u64, t: Tagged) returns (k: nat)
    requires PageOk(page, from, to) && Events(ds, page, activation).Ok? && t in Events(ds, page, activation).value && t.event.BlockProgress?
    ensures AllFieldsOk(page.blocks) && k < |page.blocks| && t == ProgressOf(RefOf(page.blocks[k]))
    ensures CanonicalAt(ds, RefOf(page.blocks[k]).number, activation)
  {
    PageNormalizes(ds, page, from, to, activation);
    RefsContiguous(page, from, to);
    assert Good(ds, Refs(page.blocks), from, activation, t);
    k := EventNumber(t.event) - from;
    assert Refs(page.blocks)[k] == RefOf(page.blocks[k]);
  }

  /** Nothing else is among the records. */
  lemma RecordsAreAccounted(ds: DesiredState, page: Page, from: u64, to: u64, activation: u64, r: EventRecord)
    requires PageOk(page, from, to) && Events(ds, page, activation).Ok? && r in PageRecordsOf(ds, page, activation)
    ensures Accounted(ds, page, activation, r)
  {
    PageNormalizes(ds, page, from, to, activation);
    var ts := Events(ds, page, activation).value;
    assert AllGood(ds, Refs(page.blocks), from, activation, ts);
    var t := EveryRecordCovered(ds, Refs(page.blocks), from, activation, ts, r);
    hide PageOk, Events, RecordsOf, Good, AllGood, PageEmits, AllBlockEvents, RecordsLog, RecordsHeader, RecordsProgress;
    match t.event
    case Log(_) =>
      var log := LogEventComes(ds, page, from, to, activation, t);
      LogRecorded(ds, page, from, to, activation, log);
      assert RecordsLog(ds, page, activation, log, r);
    case BlockHeader(_, _, _, _) =>
      HeaderComes(ds, page, from, to, activation, t, r);
    case BlockProgress(_) =>
      var k := ProgressEventComes(ds, page, from, to, activation, t);
      ProgressRecordIs(ds, page.blocks[k], activation);
      assert RecordsProgress(ds, activation, page.blocks[k], r);
  }

  lemma ProgressRecordIs(ds: DesiredState, row: RawBlock, activation: u64)
    requires BlockFieldsOk(row) && CanonicalAt(ds, RefOf(row).number, activation)
    ensures var r := RecordOf(ds, ProgressOf(RefOf(row)), activation); r.Some? && RecordsProgress(ds, activation, row, r.value)
  {
    RowFields(row);
    BackfillAgrees(ds, RefOf(row).number, activation);
    ProgressRecord(ds, RefOf(row), activation);
    hide RecordOf, CanonicalAt, ForEveryone, IsRowOf;
  }

  lemma HeaderComes(ds: DesiredState, page: Page, from: u64, to: u64, activation: u64, t: Tagged, r: EventRecord)
    requires PageOk(page, from, to) && Events(ds, page, activation).Ok? && t in Events(ds, page, activation).value && t.event.BlockHeader?
    requires RecordOf(ds, t, activation) == Some(r) && Good(ds, Refs(page.blocks), from, activation, t)
    ensures exists k :: 0 <= k < |page.blocks| && RecordsHeader(ds, activation, page.blocks[k], r)
  {
    var blocks := page.blocks;
    assert t.scope == ScopeAt(ds, EventNumber(t.event), activation);
    LogsAreLogs(ds, page, from, to, activation, t);
    assert blocks[..|blocks|] == blocks;
    hide PageOk, Events, AllBlockEvents, RecordOf, Good, ScopeAt, RecordsHeader, HasActiveBlockInterest;
    HeadersAreRows(ds, blocks, activation, |blocks|, t);
    var k :| 0 <= k < |blocks| && IsHeaderOf(ds, blocks[k], activation, t);
    HeaderRecorded(ds, blocks[k], activation);
    assert RecordsHeader(ds, activation, blocks[k], r);
  }

  // ----- The envelope -----

  /** The row at this index is for everyone, and no later row is. */
  predicate LastForEveryone(ds: DesiredState, refs: seq<BlockRef>, activation: u64, k: nat) {
    && k < |refs| && ForEveryone(ds, refs[k].number, activation)
    && forall j :: k < j < |refs| ==> !ForEveryone(ds, refs[j].number, activation)
  }

  /** The last row that is for everyone, if there is one. */
  ghost predicate IsHeadOf(ds: DesiredState, refs: seq<BlockRef>, activation: u64, head: Option<BlockRef>) {
    if head.None? then forall j :: 0 <= j < |refs| ==> !ForEveryone(ds, refs[j].number, activation)
    else exists k :: 0 <= k < |refs| && refs[k] == head.value && LastForEveryone(ds, refs, activation, k)
  }

  lemma {:induction false} CoveredIsHead(ds: DesiredState, blocks: seq<RawBlock>, activation: u64)
    requires AllFieldsOk(blocks)
    ensures IsHeadOf(ds, Refs(blocks), activation, CoveredHead(ds, blocks, activation))
  {
    if blocks != [] {
      var n := |blocks| - 1;
      var front, refs := blocks[..n], Refs(blocks);
      BackfillAgrees(ds, refs[n].number, activation);
      hide ForEveryone, CanonicalAt;
      if ForEveryone(ds, refs[n].number, activation) {
        assert LastForEveryone(ds, refs, activation, n);
      } else {
        CoveredIsHead(ds, front, activation);
        assert forall j :: 0 <= j < n ==> Refs(front)[j] == refs[j];
        var head := CoveredHead(ds, front, activation);
        if head.Some? {
          var k :| 0 <= k < n && Refs(front)[k] == head.value && LastForEveryone(ds, Refs(front), activation, k);
          forall j | k < j < |refs| ensures !ForEveryone(ds, refs[j].number, activation) { if j < n { assert Refs(front)[j] == refs[j]; } }
          assert LastForEveryone(ds, refs, activation, k);
        }
      }
    }
  }

  /** The delivery a valid page becomes is addressed to its session, numbered as
      asked, and its cursor carries the page's next block, the last row that is for
      everyone, and the rollback guard byte by byte. */
  lemma NormalizedEnvelope(ds: DesiredState, sequence: u64, page: Page, from: u64, to: u64, activation: u64)
    requires PageOk(page, from, to) && NormalizeAt(ds, sequence, page, activation).Ok?
    ensures var d := NormalizeAt(ds, sequence, page, activation).value;
            && d.sessionId == ds.sessionId && d.queryRevision == ds.newRevision && d.sequence == sequence && FromBe(d.token) == sequence
            && !d.checkpointNeutral && d.payload.Some? && d.payload.value.Data? && d.cursor.Some?
            && var c := d.cursor.value;
            && c.chainId == ds.chainId && c.queryRevision == ds.newRevision && c.batchSequence == sequence
            && c.nextBlock == page.nextBlock && c.activationBoundary == Some(activation)
            && AllFieldsOk(page.blocks) && IsHeadOf(ds, Refs(page.blocks), activation, c.canonicalHead)
            && (if page.guard.Some? then GuardLaidOut(c.providerCheckpoint, page.guard.value) else c.providerCheckpoint == [])
  {
    BlocksSorted(page, from, to);
    TokenIsSequence(sequence);
    CoveredIsHead(ds, page.blocks, activation);
    if page.guard.Some? { GuardLayout(page.guard.value); }
    hide Events, CoveredHead, IsHeadOf, GuardLaidOut, RecordsOf, WithHead, PageOk;
  }

  // ----- When a page is not normalized -----

  /** A row fails for missing or misshapen fields, or for a header someone asks for
      that is not there. */
  ghost predicate RowFails(ds: DesiredState, row: RawBlock, activation: u64, e: NormalizeError) {
    match e
    case MalformedBlock => !BlockFieldsOk(row)
    case MalformedHeader =>
      && BlockFieldsOk(row) && row.headerRlp.None?
      && exists i :: 0 <= i < |ds.owners| && AsksForHeader(ds, i, row.number.value, activation)
    case _ => false
  }

  /** A log fails for missing or misshapen fields, or for naming no row. */
  ghost predicate LogFails(blocks: seq<RawBlock>, log: RawLog, e: NormalizeError) {
    match e
    case MalformedLog => !LogReadable(log)
    case LogWithoutBlock => LogReadable(log) && forall row :: row in blocks && BlockFieldsOk(row) ==> row.number != log.blockNumber
    case _ => false
  }

  lemma RowFailsIff(ds: DesiredState, row: RawBlock, activation: u64, e: NormalizeError)
    ensures BlockEvents(ds, row, activation) == Err(e) <==> RowFails(ds, row, activation, e)
  {
    if BlockFieldsOk(row) {
      var n := row.number.value;
      BackfillAgrees(ds, n, activation);
      if i :| 0 <= i < |ds.owners| && AsksForHeader(ds, i, n, activation) { assert WantsHeaderAt(ds, ds.owners[i], n, activation); }
      if HasActiveBlockInterest(ds, n, activation) {
        var i :| 0 <= i < |ds.owners| && WantsHeaderAt(ds, ds.owners[i], n, activation);
        assert AsksForHeader(ds, i, n, activation);
      }
      hide AsksForHeader, WantsHeaderAt, CanonicalAt;
    }
  }

  lemma {:induction false} TimestampNamed(blocks: seq<RawBlock>, n: u64)
    ensures TimestampAt(blocks, n).None? <==> forall row :: row in blocks && BlockFieldsOk(row) ==> row.number != Some(n)
  {
    if blocks != [] {
      var front, last := blocks[..|blocks| - 1], blocks[|blocks| - 1];
      TimestampNamed(front, n);
      assert blocks == front + [last];
      assert last in blocks;
    }
  }

  lemma LogFailsIff(ds: DesiredState, blocks: seq<RawBlock>, log: RawLog, activation: u64, e: NormalizeError)
    ensures TaggedLog(ds, blocks, log, activation) == Err(e) <==> LogFails(blocks, log, e)
  {
    if LogReadable(log) { TimestampNamed(blocks, log.blockNumber.value); }
    hide TimestampAt, ScopeAt, LogEventOf;
  }

  lemma {:induction false} RowsFail(ds: DesiredState, blocks: seq<RawBlock>, activation: u64)
    ensures var r := AllBlockEvents(ds, blocks, activation);
            && (r.Ok? <==> forall row, e :: row in blocks ==> !RowFails(ds, row, activation, e))
            && (r.Err? ==> exists row :: row in blocks && RowFails(ds, row, activation, r.error))
  {
    if blocks != [] {
      var front, last := blocks[..|blocks| - 1], blocks[|blocks| - 1];
      RowsFail(ds, front, activation);
      forall e ensures BlockEvents(ds, last, activation) == Err(e) <==> RowFails(ds, last, activation, e) { RowFailsIff(ds, last, activation, e); }
      assert blocks == front + [last] && last in blocks;
      hide RowFails, BlockEvents;
    }
  }

  lemma {:induction false} LogsFail(ds: DesiredState, blocks: seq<RawBlock>, logs: seq<RawLog>, activation: u64)
    ensures var r := AllLogEvents(ds, blocks, logs, activation);
            && (r.Ok? <==> forall log, e :: log in logs ==> !LogFails(blocks, log, e))
            && (r.Err? ==> exists log :: log in logs && LogFails(blocks, log, r.error))
  {
    if logs != [] {
      var front, last := logs[..|logs| - 1], logs[|logs| - 1];
      LogsFail(ds, blocks, front, activation);
      forall e ensures TaggedLog(ds, blocks, last, activation) == Err(e) <==> LogFails(blocks, last, e) { LogFailsIff(ds, blocks, last, activation, e); }
      assert logs == front + [last] && last in logs;
      hide LogFails, TaggedLog;
    }
  }

  lemma SameRowsFail(a: seq<RawBlock>, b: seq<RawBlock>, log: RawLog, e: NormalizeError)
    requires forall row :: row in a <==> row in b
    ensures LogFails(a, log, e) <==> LogFails(b, log, e)
  {
  }

  /** Any page, valid or not, is normalized exactly when none of its rows and logs
      fails, and its error is one of theirs. */
  lemma NormalizesIff(ds: DesiredState, sequence: u64, page: Page, activation: u64)
    ensures var r := NormalizeAt(ds, sequence, page, activation);
            && (r.Ok? <==> (forall row, e :: row in page.blocks ==> !RowFails(ds, row, activation, e))
                           && (forall log, e :: log in page.logs ==> !LogFails(page.blocks, log, e)))
            && (r.Err? ==> (exists row :: row in page.blocks && RowFails(ds, row, activation, r.error))
                           || (exists log :: log in page.logs && LogFails(page.blocks, log, r.error)))
  {
    var blocks, logs := StableSort(BlockLeq, page.blocks), StableSort(LogLeq, page.logs);
    SortMembers(BlockLeq, page.blocks);
    SortMembers(LogLeq, page.logs);
    RowsFail(ds, blocks, activation);
    LogsFail(ds, blocks, logs, activation);
    forall log, e ensures LogFails(blocks, log, e) <==> LogFails(page.blocks, log, e) { SameRowsFail(blocks, page.blocks, log, e); }
    hide RowFails, LogFails, StableSort, AllBlockEvents, AllLogEvents, RecordsOf, WithHead, CoveredHead;
  }
}
