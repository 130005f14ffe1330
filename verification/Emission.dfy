/** What normalization emits is what the session store accepts: the link between
    crates/hypersync/src/normalize.rs and the payload validator of
    crates/event-service/src/session_store.rs. */
module Emission {
  import opened Protocol
  import opened Ordering
  import opened PageRules
  import opened PayloadRules
  import opened Normalize
  import Canonical
  import QueryPlan

  /** Somebody active at the row's height asks for its header. */
  predicate Wanted(ds: DesiredState, block: RawBlock, activation: u64) {
    BlockFieldsOk(block) && HasActiveBlockInterest(ds, block.number.value, activation)
  }

  /** Every header somebody wants was reconstructed. */
  predicate HeadersPresent(ds: DesiredState, blocks: seq<RawBlock>, activation: u64) {
    forall i :: 0 <= i < |blocks| && Wanted(ds, blocks[i], activation) ==> blocks[i].headerRlp.Some?
  }

  function HeaderOf(block: RawBlock): ChainEvent
    requires BlockFieldsOk(block) && block.headerRlp.Some?
  {
    BlockHeader(Some(RefOf(block)), block.headerRlp.value, block.totalDifficulty, block.size)
  }

  predicate HeaderMatches(o: Oracle, block: RawBlock) {
    BlockFieldsOk(block) && block.headerRlp.Some? && EventOk(o, HeaderOf(block))
  }

  /** Every header somebody wants is one the store's library reads as its row's. */
  predicate HeadersMatch(o: Oracle, ds: DesiredState, blocks: seq<RawBlock>, activation: u64) {
    forall i :: 0 <= i < |blocks| && Wanted(ds, blocks[i], activation) ==> HeaderMatches(o, blocks[i])
  }

  // ----- Audiences -----

  lemma {:induction false} ListenersHear(ds: DesiredState, owners: seq<OwnerInterests>, event: ChainEvent, activation: u64, id: string)
    requires id in Listeners(ds, owners, event, activation)
    ensures exists i :: 0 <= i < |owners| && owners[i].ownerId == id && HearsAlone(ds, owners[i], event, activation)
  {
    hide HearsAlone;
    var front, last := owners[..|owners| - 1], owners[|owners| - 1];
    if id in Listeners(ds, front, event, activation) {
      ListenersHear(ds, front, event, activation, id);
      var i :| 0 <= i < |front| && front[i].ownerId == id && HearsAlone(ds, front[i], event, activation);
      assert owners[i] == front[i];
    }
  }

  /** The canonical entry is never named: its own backfill is global. */
  lemma ListenersAreOwners(ds: DesiredState, event: ChainEvent, activation: u64, i: nat)
    requires i < |ds.owners| && HearsAlone(ds, ds.owners[i], event, activation)
    ensures !ds.owners[i].canonical
  {
    OwnBackfillIsGlobal(ds, i, EventNumber(event));
  }

  lemma OwnBackfillIsGlobal(ds: DesiredState, i: nat, number: u64)
    requires i < |ds.owners|
    ensures CanonicalBackfill(ds.owners[i], number) ==> GlobalBackfill(ds, number)
  {
  }

  lemma CharOrderTotal()
    ensures StrictTotal(Lex(CharLess))
  {
    LexTotal(CharLess);
  }

  lemma NamedOwnersKnown(ds: DesiredState, event: ChainEvent, activation: u64, id: string)
    requires DesiredStateOk(ds) && id in Listeners(ds, ds.owners, event, activation)
    ensures id != "" && IsKnownOwner(ds, id)
  {
    ListenersHear(ds, ds.owners, event, activation, id);
    hide HearsAlone, Listeners;
    var i :| 0 <= i < |ds.owners| && ds.owners[i].ownerId == id && HearsAlone(ds, ds.owners[i], event, activation);
    ListenersAreOwners(ds, event, activation, i);
    assert OwnerOk(ds.owners[i]);
  }

  lemma SortedDistinct<T(!new)>(lt: (T, T) -> bool, s: seq<T>)
    requires StrictTotal(lt) && Sorted(lt, s)
    ensures Distinct(s)
  {
  }

  lemma AudienceAccepted(ds: DesiredState, t: Tagged, activation: u64)
    requires DesiredStateOk(ds) && RecordOf(ds, t, activation).Some?
    ensures AudienceOk(ds, RecordOf(ds, t, activation).value)
  {
    var a := AudienceOf(ds, t.event, activation);
    if !a.canonical {
      var ids := Listeners(ds, ds.owners, t.event, activation);
      CharOrderTotal();
      SortDedupCorrect(Lex(CharLess), ids);
      SortedDistinct(Lex(CharLess), a.ownerIds);
      hide Lex, Listeners, SortDedup, DesiredStateOk, IsKnownOwner, Distinct, Sorted, StrictTotal;
      forall i | 0 <= i < |a.ownerIds| ensures a.ownerIds[i] != "" && IsKnownOwner(ds, a.ownerIds[i]) {
        assert a.ownerIds[i] in ids;
        NamedOwnersKnown(ds, t.event, activation, a.ownerIds[i]);
      }
    }
  }

  // ----- Events of an admitted page -----

  /** The event's block is the page's block at that height. */
  predicate AtItsBlock(refs: seq<BlockRef>, from: u64, e: ChainEvent) {
    var n := EventNumber(e);
    && from <= n < from + |refs|
    && BlockIdentity(e) == (n, refs[n - from].hash, refs[n - from].timestamp)
  }

  /** A log, a header, or the progress of a block every audience sees. */
  predicate Good(ds: DesiredState, refs: seq<BlockRef>, from: u64, activation: u64, t: Tagged) {
    && AtItsBlock(refs, from, t.event)
    && t.scope == ScopeAt(ds, EventNumber(t.event), activation)
    && (t.event.Log? ==> LogShapeOk(t.event.log))
    && (!t.event.Log? ==> ExplicitBlock(t.event) == Some(refs[EventNumber(t.event) - from]) && BlockRefOk(refs[EventNumber(t.event) - from]))
    && (t.event.BlockProgress? ==> CanonicalAt(ds, EventNumber(t.event), activation))
  }

  predicate TaggedAgree(t: Tagged, u: Tagged) {
    IdentitiesAgree(t.event, u.event)
  }

  predicate AllGood(ds: DesiredState, refs: seq<BlockRef>, from: u64, activation: u64, ts: seq<Tagged>) {
    forall t :: t in ts ==> Good(ds, refs, from, activation, t)
  }

  lemma RefsContiguous(page: Page, from: u64, to: u64)
    requires PageOk(page, from, to)
    ensures var refs := Refs(page.blocks);
            forall i :: 0 <= i < |refs| ==> refs[i].number == from + i && BlockRefOk(refs[i])
  {
    Canonical.LinkedContiguous(Refs(page.blocks));
  }

  lemma BlocksSorted(page: Page, from: u64, to: u64)
    requires PageOk(page, from, to)
    ensures StableSort(BlockLeq, page.blocks) == page.blocks
  {
    RefsContiguous(page, from, to);
    assert Pairwise(BlockLeq, page.blocks) by {
      var refs := Refs(page.blocks);
      forall i, j | 0 <= i < j < |page.blocks| ensures BlockLeq(page.blocks[i], page.blocks[j]) {
        assert refs[i].number == from + i && refs[j].number == from + j;
      }
    }
    SortOfOrdered(BlockLeq, page.blocks);
  }

  lemma ProgressGood(ds: DesiredState, refs: seq<BlockRef>, from: u64, activation: u64, k: nat)
    requires k < |refs| && refs[k].number == from + k && BlockRefOk(refs[k]) && CanonicalAt(ds, refs[k].number, activation)
    ensures Good(ds, refs, from, activation, ProgressOf(refs[k]))
  {
  }

  predicate RowBelow(t: Tagged, number: int) {
    !t.event.Log? && EventNumber(t.event) < number
  }

  /** What the first `n` rows of an admitted page emit. */
  ghost predicate RowsEmit(ds: DesiredState, refs: seq<BlockRef>, from: u64, activation: u64, n: nat, ts: seq<Tagged>)
    requires n <= |refs|
  {
    && AllGood(ds, refs, from, activation, ts)
    && Pairwise(TaggedAgree, ts)
    && (forall t :: t in ts ==> RowBelow(t, from + n))
    && (forall k :: 0 <= k < n && CanonicalAt(ds, refs[k].number, activation) ==> ProgressOf(refs[k]) in ts)
  }

  /** The events of the row at index `n`. */
  ghost predicate RowEmits(ds: DesiredState, refs: seq<BlockRef>, from: u64, activation: u64, n: nat, ts: seq<Tagged>)
    requires n < |refs|
  {
    && AllGood(ds, refs, from, activation, ts)
    && Pairwise(TaggedAgree, ts)
    && (forall t :: t in ts ==> !t.event.Log? && EventNumber(t.event) == from + n)
    && (CanonicalAt(ds, refs[n].number, activation) ==> ProgressOf(refs[n]) in ts)
  }

  lemma RowStep(ds: DesiredState, refs: seq<BlockRef>, from: u64, activation: u64, n: nat, ts: seq<Tagged>, row: seq<Tagged>)
    requires n < |refs| && RowsEmit(ds, refs, from, activation, n, ts) && RowEmits(ds, refs, from, activation, n, row)
    ensures RowsEmit(ds, refs, from, activation, n + 1, ts + row)
  {
    hide CanonicalAt, Good, Pairwise;
    forall t, u | t in ts && u in row ensures TaggedAgree(t, u) {
      assert RowBelow(t, from + n);
      DifferentHeights(t, u);
    }
    PairwiseConcat(TaggedAgree, ts, row);
  }

  lemma DifferentHeights(t: Tagged, u: Tagged)
    requires !t.event.Log? && !u.event.Log? && EventNumber(t.event) < EventNumber(u.event)
    ensures TaggedAgree(t, u)
  {
  }

  /** One row normalizes exactly when a header somebody wants is there. */
  lemma OneRow(ds: DesiredState, refs: seq<BlockRef>, from: u64, activation: u64, n: nat, block: RawBlock)
    requires BlockFieldsOk(block) && n < |refs| && refs[n] == RefOf(block) && refs[n].number == from + n
    ensures var r := BlockEvents(ds, block, activation);
            && (r.Ok? <==> Wanted(ds, block, activation) ==> block.headerRlp.Some?)
            && (r.Ok? ==> RowEmits(ds, refs, from, activation, n, r.value))
  {
    hide HasActiveBlockInterest, CanonicalAt;
    if CanonicalAt(ds, refs[n].number, activation) { ProgressGood(ds, refs, from, activation, n); }
    if block.headerRlp.Some? {
      var header := Tagged(HeaderOf(block), ScopeAt(ds, refs[n].number, activation));
      assert Good(ds, refs, from, activation, header);
      assert TaggedAgree(header, ProgressOf(refs[n]));
    }
  }

  /** The rows so far normalize exactly when their wanted headers are there, and then
      to their events. */
  ghost predicate RowsNormalize(ds: DesiredState, refs: seq<BlockRef>, from: u64, activation: u64, front: seq<RawBlock>) {
    var r := AllBlockEvents(ds, front, activation);
    && |front| <= |refs|
    && (r.Ok? <==> HeadersPresent(ds, front, activation))
    && (r.Ok? ==> RowsEmit(ds, refs, from, activation, |front|, r.value))
  }

  lemma RowsGrow(ds: DesiredState, refs: seq<BlockRef>, from: u64, activation: u64, front: seq<RawBlock>, row: RawBlock)
    requires RowsNormalize(ds, refs, from, activation, front) && |front| < |refs|
    requires BlockFieldsOk(row) && refs[|front|] == RefOf(row) && refs[|front|].number == from + |front|
    ensures RowsNormalize(ds, refs, from, activation, front + [row])
  {
    EventsGrow(ds, front, row, activation);
    HeadersSplit(ds, front, row, activation);
    hide RowsEmit, RowEmits, BlockEvents, AllBlockEvents, CanonicalAt, RefOf, Wanted, HeadersPresent;
    OneRow(ds, refs, from, activation, |front|, row);
    var a, b := AllBlockEvents(ds, front, activation), BlockEvents(ds, row, activation);
    if a.Ok? && b.Ok? { RowStep(ds, refs, from, activation, |front|, a.value, b.value); }
  }

  lemma {:induction false} RowsEmitted(ds: DesiredState, blocks: seq<RawBlock>, from: u64, activation: u64, n: nat)
    requires AllFieldsOk(blocks) && n <= |blocks|
    requires forall i :: 0 <= i < |blocks| ==> Refs(blocks)[i].number == from + i && BlockRefOk(Refs(blocks)[i])
    ensures var r := AllBlockEvents(ds, blocks[..n], activation);
            && (r.Ok? <==> HeadersPresent(ds, blocks[..n], activation))
            && (r.Ok? ==> RowsEmit(ds, Refs(blocks), from, activation, n, r.value))
    decreases n
  {
    if n == 0 {
      assert blocks[..0] == [];
    } else {
      var refs, front, row := Refs(blocks), blocks[..n - 1], blocks[n - 1];
      assert BlockFieldsOk(row) && refs[n - 1] == RefOf(row) && refs[n - 1].number == from + (n - 1);
      RowsEmitted(ds, blocks, from, activation, n - 1);
      hide RowsEmit, AllBlockEvents, HeadersPresent, RefOf, BlockFieldsOk;
      assert |front| == n - 1 && RowsNormalize(ds, refs, from, activation, front);
      RowsGrow(ds, refs, from, activation, front, row);
      assert blocks[..n] == front + [row] && |blocks[..n]| == n;
    }
  }

  lemma EventsGrow(ds: DesiredState, front: seq<RawBlock>, row: RawBlock, activation: u64)
    ensures var a, b := AllBlockEvents(ds, front, activation), BlockEvents(ds, row, activation);
            AllBlockEvents(ds, front + [row], activation) == if a.Err? then a else if b.Err? then b else Ok(a.value + b.value)
  {
    hide BlockEvents;
    assert (front + [row])[..|front|] == front;
  }

  lemma HeadersSplit(ds: DesiredState, blocks: seq<RawBlock>, b: RawBlock, activation: u64)
    ensures HeadersPresent(ds, blocks + [b], activation) <==>
            HeadersPresent(ds, blocks, activation) && (Wanted(ds, b, activation) ==> b.headerRlp.Some?)
  {
    hide Wanted;
    var all := blocks + [b];
    assert all[|blocks|] == b;
    if HeadersPresent(ds, all, activation) {
      assert forall i :: 0 <= i < |blocks| ==> all[i] == blocks[i];
    }
  }

  // ----- Logs -----

  lemma {:induction false} TimestampFound(blocks: seq<RawBlock>, from: u64, n: nat, number: u64)
    requires AllFieldsOk(blocks) && n <= |blocks|
    requires forall i :: 0 <= i < |blocks| ==> Refs(blocks)[i].number == from + i
    requires from <= number < from + n
    ensures TimestampAt(blocks[..n], number) == Some(Refs(blocks)[number - from].timestamp)
    decreases n
  {
    assert Refs(blocks)[n - 1] == RefOf(blocks[n - 1]) && Refs(blocks)[n - 1].number == from + n - 1;
    assert blocks[..n][..n - 1] == blocks[..n - 1];
    if number != from + n - 1 { TimestampFound(blocks, from, n - 1, number); }
  }

  lemma {:induction false} LeadingTopicsShape(topics: seq<Option<Bytes>>)
    requires TopicsDense(topics)
    ensures |LeadingTopics(topics)| <= |topics|
    ensures forall i :: 0 <= i < |LeadingTopics(topics)| ==> |LeadingTopics(topics)[i]| == 32
  {
    if topics != [] && topics[0].Some? {
      var rest := topics[1..];
      assert forall i :: 0 <= i < |rest| ==> rest[i] == topics[i + 1];
      LeadingTopicsShape(rest);
    }
  }

  /** The tagged event of an admitted log. */
  function EventOfLog(ds: DesiredState, refs: seq<BlockRef>, from: u64, activation: u64, log: RawLog): Tagged
    requires LogOk(log, from, refs)
  {
    var n := log.blockNumber.value;
    Tagged(Log(LogEventOf(log, refs[n - from].timestamp)), ScopeAt(ds, n, activation))
  }

  lemma LogGood(ds: DesiredState, refs: seq<BlockRef>, from: u64, activation: u64, log: RawLog)
    requires LogOk(log, from, refs)
    ensures Good(ds, refs, from, activation, EventOfLog(ds, refs, from, activation, log))
  {
    LeadingTopicsShape(log.topics);
  }

  lemma LogsAgreeTagged(ds: DesiredState, refs: seq<BlockRef>, from: u64, activation: u64, a: RawLog, b: RawLog)
    requires LogOk(a, from, refs) && LogOk(b, from, refs) && RawLogsAgree(a, b)
    ensures TaggedAgree(EventOfLog(ds, refs, from, activation, a), EventOfLog(ds, refs, from, activation, b))
  {
  }

  ghost predicate AllLogsOk(logs: seq<RawLog>, from: u64, refs: seq<BlockRef>) {
    forall log :: log in logs ==> LogOk(log, from, refs)
  }

  ghost predicate LogsEmit(ds: DesiredState, refs: seq<BlockRef>, from: u64, activation: u64, logs: seq<RawLog>, ts: seq<Tagged>)
    requires AllLogsOk(logs, from, refs)
  {
    && |ts| == |logs|
    && forall i :: 0 <= i < |logs| ==> ts[i] == EventOfLog(ds, refs, from, activation, logs[i])
  }

  lemma LogTagged(ds: DesiredState, blocks: seq<RawBlock>, from: u64, activation: u64, log: RawLog)
    requires AllFieldsOk(blocks) && LogOk(log, from, Refs(blocks))
    requires forall i :: 0 <= i < |blocks| ==> Refs(blocks)[i].number == from + i
    ensures TaggedLog(ds, blocks, log, activation) == Ok(EventOfLog(ds, Refs(blocks), from, activation, log))
  {
    TimestampFound(blocks, from, |blocks|, log.blockNumber.value);
    assert blocks[..|blocks|] == blocks;
  }

  lemma {:induction false} LogsEmitted(ds: DesiredState, blocks: seq<RawBlock>, from: u64, activation: u64, logs: seq<RawLog>)
    requires AllFieldsOk(blocks) && AllLogsOk(logs, from, Refs(blocks))
    requires forall i :: 0 <= i < |blocks| ==> Refs(blocks)[i].number == from + i
    ensures var r := AllLogEvents(ds, blocks, logs, activation);
            r.Ok? && LogsEmit(ds, Refs(blocks), from, activation, logs, r.value)
  {
    if logs != [] {
      var front, last := logs[..|logs| - 1], logs[|logs| - 1];
      LogsEmitted(ds, blocks, from, activation, front);
      LogTagged(ds, blocks, from, activation, last);
      hide TaggedLog, LogOk, BlockFieldsOk;
    }
  }

  lemma LogEventsGood(ds: DesiredState, refs: seq<BlockRef>, from: u64, activation: u64, logs: seq<RawLog>, ts: seq<Tagged>)
    requires AllLogsOk(logs, from, refs) && Pairwise(RawLogsAgree, logs) && LogsEmit(ds, refs, from, activation, logs, ts)
    ensures AllGood(ds, refs, from, activation, ts) && Pairwise(TaggedAgree, ts)
    ensures forall t :: t in ts ==> t.event.Log?
  {
    hide LogOk, Good, TaggedAgree, RawLogsAgree;
    forall t | t in ts ensures Good(ds, refs, from, activation, t) && t.event.Log? {
      var i :| 0 <= i < |ts| && ts[i] == t;
      assert logs[i] in logs;
      LogGood(ds, refs, from, activation, logs[i]);
    }
    forall i, j | 0 <= i < j < |ts| ensures TaggedAgree(ts[i], ts[j]) {
      assert logs[i] in logs && logs[j] in logs;
      LogsAgreeTagged(ds, refs, from, activation, logs[i], logs[j]);
    }
  }

  lemma SortedLogs(logs: seq<RawLog>, from: u64, refs: seq<BlockRef>)
    requires LogsOk(logs, from, refs)
    ensures AllLogsOk(StableSort(LogLeq, logs), from, refs) && Pairwise(RawLogsAgree, StableSort(LogLeq, logs))
  {
    SortMembers(LogLeq, logs);
    assert Symmetric(RawLogsAgree) && Pairwise(RawLogsAgree, logs);
    SortKeepsPairs(LogLeq, RawLogsAgree, logs);
    hide LogOk, RawLogsAgree, StableSort, LogLeq;
  }

  // ----- The sorted event list -----

  /** What an admitted page normalizes to before audiences are assigned. */
  ghost predicate PageEmits(ds: DesiredState, refs: seq<BlockRef>, from: u64, activation: u64, ts: seq<Tagged>) {
    && AllGood(ds, refs, from, activation, ts)
    && Pairwise(TaggedLeq, ts) && Pairwise(TaggedAgree, ts)
    && (forall k :: 0 <= k < |refs| && CanonicalAt(ds, refs[k].number, activation) ==> ProgressOf(refs[k]) in ts)
  }

  lemma TaggedOrderTotal()
    ensures TotalPreorder(TaggedLeq) && Symmetric(TaggedAgree)
  {
  }

  lemma RowAgreesWithLog(ds: DesiredState, refs: seq<BlockRef>, from: u64, activation: u64, t: Tagged, u: Tagged)
    requires Good(ds, refs, from, activation, t) && Good(ds, refs, from, activation, u)
    requires !t.event.Log? && u.event.Log?
    ensures TaggedAgree(t, u)
  {
  }

  lemma EventsMerged(ds: DesiredState, refs: seq<BlockRef>, from: u64, activation: u64, rows: seq<Tagged>, logs: seq<Tagged>)
    requires RowsEmit(ds, refs, from, activation, |refs|, rows)
    requires AllGood(ds, refs, from, activation, logs) && Pairwise(TaggedAgree, logs) && forall t :: t in logs ==> t.event.Log?
    ensures PageEmits(ds, refs, from, activation, StableSort(TaggedLeq, rows + logs))
  {
    var all := rows + logs;
    TaggedOrderTotal();
    hide Good, CanonicalAt, TaggedLeq, TaggedAgree, Pairwise, StableSort, TotalPreorder, Symmetric;
    forall t, u | t in rows && u in logs ensures TaggedAgree(t, u) {
      assert RowBelow(t, from + |refs|);
      RowAgreesWithLog(ds, refs, from, activation, t, u);
    }
    PairwiseConcat(TaggedAgree, rows, logs);
    SortMembers(TaggedLeq, all);
    SortOrders(TaggedLeq, all);
    SortKeepsPairs(TaggedLeq, TaggedAgree, all);
  }

  /** An admitted page normalizes exactly when every header somebody wants is
      there, and then to ordered, consistent events. */
  lemma PageNormalizes(ds: DesiredState, page: Page, from: u64, to: u64, activation: u64)
    requires PageOk(page, from, to)
    ensures var r := Events(ds, page, activation);
            && (r.Ok? <==> HeadersPresent(ds, page.blocks, activation))
            && (r.Ok? ==> PageEmits(ds, Refs(page.blocks), from, activation, r.value))
  {
    var refs := Refs(page.blocks);
    var logs := StableSort(LogLeq, page.logs);
    RefsContiguous(page, from, to);
    BlocksSorted(page, from, to);
    assert page.blocks[..|page.blocks|] == page.blocks;
    RowsEmitted(ds, page.blocks, from, activation, |page.blocks|);
    SortedLogs(page.logs, from, refs);
    LogsEmitted(ds, page.blocks, from, activation, logs);
    hide RowsEmit, LogsEmit, PageEmits, AllBlockEvents, AllLogEvents, StableSort, LogsOk, BlocksOk, Pairwise, AllLogsOk, Good, AllGood, HeadersPresent;
    var fromLogs := AllLogEvents(ds, page.blocks, logs, activation).value;
    LogEventsGood(ds, refs, from, activation, logs, fromLogs);
    if HeadersPresent(ds, page.blocks, activation) {
      EventsMerged(ds, refs, from, activation, AllBlockEvents(ds, page.blocks, activation).value, fromLogs);
    }
  }

  // ----- Records -----

  lemma {:induction false} RecordsCome(ds: DesiredState, ts: seq<Tagged>, activation: u64, r: EventRecord)
    ensures r in RecordsOf(ds, ts, activation) <==> exists i :: 0 <= i < |ts| && RecordOf(ds, ts[i], activation) == Some(r)
  {
    if ts != [] {
      hide RecordOf;
      var front := ts[..|ts| - 1];
      RecordsCome(ds, front, activation, r);
      assert forall i :: 0 <= i < |front| ==> front[i] == ts[i];
    }
  }

  lemma TaggedPair(ds: DesiredState, t: Tagged, u: Tagged, activation: u64)
    requires TaggedLeq(t, u) && TaggedAgree(t, u)
    requires RecordOf(ds, t, activation).Some? && RecordOf(ds, u, activation).Some?
    ensures PairOk(RecordOf(ds, t, activation).value, RecordOf(ds, u, activation).value)
  {
    hide AudienceOf;
  }

  lemma {:induction false} RecordPairs(ds: DesiredState, ts: seq<Tagged>, activation: u64)
    requires Pairwise(TaggedLeq, ts) && Pairwise(TaggedAgree, ts)
    ensures Pairwise(PairOk, RecordsOf(ds, ts, activation))
  {
    if ts != [] {
      var front, last := ts[..|ts| - 1], ts[|ts| - 1];
      assert ts == front + [last];
      hide RecordOf, Pairwise, TaggedLeq, TaggedAgree, PairOk;
      AppendPairwise(TaggedLeq, front, last);
      AppendPairwise(TaggedAgree, front, last);
      RecordPairs(ds, front, activation);
      if RecordOf(ds, last, activation).Some? {
        var rs, r := RecordsOf(ds, front, activation), RecordOf(ds, last, activation).value;
        forall y | y in rs ensures PairOk(y, r) {
          RecordsCome(ds, front, activation, y);
          var i :| 0 <= i < |front| && RecordOf(ds, front[i], activation) == Some(y);
          assert front[i] in front;
          TaggedPair(ds, front[i], last, activation);
        }
        AppendPairwise(PairOk, rs, r);
      }
    }
  }

  /** The store's library reads the event, if it is a header. */
  predicate Legible(o: Oracle, t: Tagged) {
    t.event.BlockHeader? ==> EventOk(o, t.event)
  }

  lemma RecordAccepted(o: Oracle, ds: DesiredState, refs: seq<BlockRef>, from: u64, activation: u64, t: Tagged)
    requires DesiredStateOk(ds) && Good(ds, refs, from, activation, t) && RecordOf(ds, t, activation).Some?
    ensures RecordOk(o, ds, RecordOf(ds, t, activation).value) <==> Legible(o, t)
  {
    AudienceAccepted(ds, t, activation);
    CatchupIsNotBroadcast(ds, t.event, activation);
    hide AudienceOk, DesiredStateOk, LogShapeOk, AudienceOf;
  }

  lemma CatchupIsNotBroadcast(ds: DesiredState, event: ChainEvent, activation: u64)
    ensures AudienceOf(ds, event, activation).canonical ==> CanonicalAt(ds, EventNumber(event), activation)
  {
  }

  lemma ProgressRecord(ds: DesiredState, b: BlockRef, activation: u64)
    requires CanonicalAt(ds, b.number, activation)
    ensures RecordOf(ds, ProgressOf(b), activation) ==
            Some(EventRecord(Some(BlockProgress(Some(b))), true, [], SCOPE_CANONICAL_PROGRESS))
  {
  }

  lemma EveryRecordCovered(ds: DesiredState, refs: seq<BlockRef>, from: u64, activation: u64, ts: seq<Tagged>, r: EventRecord) returns (t: Tagged)
    requires AllGood(ds, refs, from, activation, ts) && r in RecordsOf(ds, ts, activation)
    ensures t in ts && RecordOf(ds, t, activation) == Some(r) && Good(ds, refs, from, activation, t)
    ensures r.event.Some?
    ensures r.scope != SCOPE_OWNER_CATCHUP ==>
              var n := EventNumber(r.event.value);
              from <= n < from + |refs| && CanonicalAt(ds, n, activation)
  {
    RecordsCome(ds, ts, activation, r);
    hide RecordsOf, AudienceOf;
    var i :| 0 <= i < |ts| && RecordOf(ds, ts[i], activation) == Some(r);
    t := ts[i];
    assert t in ts;
  }

  lemma ProgressRecorded(ds: DesiredState, refs: seq<BlockRef>, from: u64, activation: u64, ts: seq<Tagged>, k: nat)
    requires PageEmits(ds, refs, from, activation, ts) && k < |refs| && CanonicalAt(ds, refs[k].number, activation)
    ensures EventRecord(Some(BlockProgress(Some(refs[k]))), true, [], SCOPE_CANONICAL_PROGRESS) in RecordsOf(ds, ts, activation)
  {
    var r := EventRecord(Some(BlockProgress(Some(refs[k]))), true, [], SCOPE_CANONICAL_PROGRESS);
    ProgressRecord(ds, refs[k], activation);
    assert ProgressOf(refs[k]) in ts;
    hide RecordOf, RecordsOf, Good, CanonicalAt, Pairwise;
    RecordsCome(ds, ts, activation, r);
    var i :| 0 <= i < |ts| && ts[i] == ProgressOf(refs[k]);
    assert RecordOf(ds, ts[i], activation) == Some(r);
  }

  /** Every header of the events is legible. */
  predicate AllLegible(o: Oracle, ts: seq<Tagged>) {
    forall t :: t in ts ==> Legible(o, t)
  }

  /** Every event is heard, or is a log. */
  predicate HeadersHeard(ds: DesiredState, ts: seq<Tagged>, activation: u64) {
    forall t :: t in ts && t.event.BlockHeader? ==> RecordOf(ds, t, activation).Some?
  }

  lemma CanonicalCertified(ds: DesiredState, refs: seq<BlockRef>, from: u64, activation: u64, ts: seq<Tagged>, i: nat)
    requires PageEmits(ds, refs, from, activation, ts) && forall k :: 0 <= k < |refs| ==> refs[k].number == from + k
    requires i < |RecordsOf(ds, ts, activation)| && IsCanonicalRecord(RecordsOf(ds, ts, activation)[i])
    ensures Certified(RecordsOf(ds, ts, activation), i)
  {
    var rs := RecordsOf(ds, ts, activation);
    hide RecordsOf, CanonicalAt, AllGood, Good, RecordOf, TaggedLeq, TaggedAgree;
    assert rs[i] in rs;
    var t := EveryRecordCovered(ds, refs, from, activation, ts, rs[i]);
    var k := EventNumber(rs[i].event.value) - from;
    ProgressRecorded(ds, refs, from, activation, ts, k);
    var p := EventRecord(Some(BlockProgress(Some(refs[k]))), true, [], SCOPE_CANONICAL_PROGRESS);
    var j :| 0 <= j < |rs| && rs[j] == p;
    assert IsCoverageRecord(rs[j]);
  }

  /** The records of an admitted page satisfy the store's coverage rule, and its
      record rules exactly when every header they carry is legible. */
  lemma RecordsAccepted(o: Oracle, ds: DesiredState, refs: seq<BlockRef>, from: u64, activation: u64, ts: seq<Tagged>)
    requires DesiredStateOk(ds) && PageEmits(ds, refs, from, activation, ts) && HeadersHeard(ds, ts, activation)
    requires forall i :: 0 <= i < |refs| ==> refs[i].number == from + i
    ensures CoverageOk(RecordsOf(ds, ts, activation))
    ensures RecordsOk(o, ds, RecordsOf(ds, ts, activation)) <==> AllLegible(o, ts)
  {
    var rs := RecordsOf(ds, ts, activation);
    RecordPairs(ds, ts, activation);
    hide RecordsOf, RecordOk, DesiredStateOk, CanonicalAt, AllGood, Good, RecordOf, PairOk, TaggedLeq, TaggedAgree, Legible, Certified, IsCanonicalRecord;
    forall i | 0 <= i < |rs| && IsCanonicalRecord(rs[i]) ensures Certified(rs, i) {
      CanonicalCertified(ds, refs, from, activation, ts, i);
    }
    if AllLegible(o, ts) {
      forall i | 0 <= i < |rs| ensures RecordOk(o, ds, rs[i]) {
        assert rs[i] in rs;
        var t := EveryRecordCovered(ds, refs, from, activation, ts, rs[i]);
        RecordAccepted(o, ds, refs, from, activation, t);
      }
    }
    if RecordsOk(o, ds, rs) {
      forall t | t in ts ensures Legible(o, t) { HeardIsLegible(o, ds, refs, from, activation, ts, t); }
    }
  }

  lemma HeardIsLegible(o: Oracle, ds: DesiredState, refs: seq<BlockRef>, from: u64, activation: u64, ts: seq<Tagged>, t: Tagged)
    requires DesiredStateOk(ds) && AllGood(ds, refs, from, activation, ts) && HeadersHeard(ds, ts, activation) && t in ts
    requires RecordsOk(o, ds, RecordsOf(ds, ts, activation))
    ensures Legible(o, t)
  {
    hide DesiredStateOk, Good, RecordOf, RecordsOf, RecordOk;
    if t.event.BlockHeader? {
      var r := RecordOf(ds, t, activation).value;
      TaggedRecorded(ds, ts, activation, t, r);
      var i :| 0 <= i < |RecordsOf(ds, ts, activation)| && RecordsOf(ds, ts, activation)[i] == r;
      RecordAccepted(o, ds, refs, from, activation, t);
    }
  }

  // ----- The delivery -----

  lemma {:induction false} HeadOfRows(ds: DesiredState, blocks: seq<RawBlock>, from: u64, activation: u64, n: nat)
    requires AllFieldsOk(blocks) && n <= |blocks|
    requires forall i :: 0 <= i < |blocks| ==> Refs(blocks)[i].number == from + i
    ensures var head := CoveredHead(ds, blocks[..n], activation);
            && (head.Some? ==> exists k :: 0 <= k < n && head.value == Refs(blocks)[k] && CanonicalAt(ds, Refs(blocks)[k].number, activation))
            && (head.None? ==> forall k :: 0 <= k < n ==> !CanonicalAt(ds, Refs(blocks)[k].number, activation))
            && (n > 0 && CanonicalAt(ds, Refs(blocks)[n - 1].number, activation) ==> head == Some(Refs(blocks)[n - 1]))
    decreases n
  {
    if n > 0 {
      hide CanonicalAt;
      assert blocks[..n][..n - 1] == blocks[..n - 1];
      assert Refs(blocks)[n - 1] == RefOf(blocks[n - 1]);
      HeadOfRows(ds, blocks, from, activation, n - 1);
    }
  }

  lemma CoveredHeadIsRow(ds: DesiredState, page: Page, from: u64, to: u64, activation: u64) returns (k: nat)
    requires PageOk(page, from, to) && CoveredHead(ds, page.blocks, activation).Some?
    ensures AllFieldsOk(page.blocks)
    ensures var refs := Refs(page.blocks);
            && k < |refs| && CoveredHead(ds, page.blocks, activation) == Some(refs[k])
            && CanonicalAt(ds, refs[k].number, activation)
  {
    RefsContiguous(page, from, to);
    HeadOfRows(ds, page.blocks, from, activation, |page.blocks|);
    assert page.blocks[..|page.blocks|] == page.blocks;
    hide CoveredHead, CanonicalAt, LogsOk, BlocksOk;
    k :| 0 <= k < |Refs(page.blocks)| && CoveredHead(ds, page.blocks, activation) == Some(Refs(page.blocks)[k]) &&
      CanonicalAt(ds, Refs(page.blocks)[k].number, activation);
  }

  /** The page's covered head always has its own record, so no head record is
      ever appended. */
  lemma HeadIsRecorded(ds: DesiredState, page: Page, from: u64, to: u64, activation: u64)
    requires PageOk(page, from, to) && Events(ds, page, activation).Ok?
    ensures var head := CoveredHead(ds, page.blocks, activation);
            var rs := RecordsOf(ds, Events(ds, page, activation).value, activation);
            && WithHead(rs, head) == rs
            && (rs == [] ==> head.None?)
  {
    hide Events, CoveredHead, PageEmits, RecordsOf, PageOk, CanonicalAt;
    PageNormalizes(ds, page, from, to, activation);
    var head := CoveredHead(ds, page.blocks, activation);
    if head.Some? {
      var k := CoveredHeadIsRow(ds, page, from, to, activation);
      var refs, ts := Refs(page.blocks), Events(ds, page, activation).value;
      var rs := RecordsOf(ds, ts, activation);
      ProgressRecorded(ds, refs, from, activation, ts, k);
      var j :| 0 <= j < |rs| && rs[j] == EventRecord(Some(BlockProgress(Some(refs[k]))), true, [], SCOPE_CANONICAL_PROGRESS);
      assert Certifying(rs[j], head.value);
    }
  }

  // ----- Headers -----

  /** The event is the header of a row somebody wants. */
  predicate IsHeaderOf(ds: DesiredState, block: RawBlock, activation: u64, t: Tagged) {
    Wanted(ds, block, activation) && block.headerRlp.Some? && t.event == HeaderOf(block)
  }

  lemma {:induction false} HeadersAreRows(ds: DesiredState, blocks: seq<RawBlock>, activation: u64, n: nat, t: Tagged)
    requires n <= |blocks| && AllBlockEvents(ds, blocks[..n], activation).Ok?
    requires t in AllBlockEvents(ds, blocks[..n], activation).value && t.event.BlockHeader?
    ensures exists k :: 0 <= k < n && IsHeaderOf(ds, blocks[k], activation, t)
    decreases n
  {
    if n > 0 {
      assert blocks[..n][..n - 1] == blocks[..n - 1];
      hide HasActiveBlockInterest, CanonicalAt, RefOf;
      if t in AllBlockEvents(ds, blocks[..n - 1], activation).value {
        HeadersAreRows(ds, blocks, activation, n - 1, t);
      } else {
        assert IsHeaderOf(ds, blocks[n - 1], activation, t);
      }
    }
  }

  lemma {:induction false} HeaderEmitted(ds: DesiredState, blocks: seq<RawBlock>, activation: u64, n: nat, k: nat)
    requires k < n <= |blocks| && AllBlockEvents(ds, blocks[..n], activation).Ok? && Wanted(ds, blocks[k], activation)
    ensures blocks[k].headerRlp.Some?
    ensures Tagged(HeaderOf(blocks[k]), ScopeAt(ds, blocks[k].number.value, activation)) in AllBlockEvents(ds, blocks[..n], activation).value
    decreases n
  {
    assert blocks[..n][..n - 1] == blocks[..n - 1];
    hide HasActiveBlockInterest, CanonicalAt, ScopeAt;
    if k < n - 1 { HeaderEmitted(ds, blocks, activation, n - 1, k); }
  }

  lemma LogsAreLogs(ds: DesiredState, page: Page, from: u64, to: u64, activation: u64, t: Tagged)
    requires PageOk(page, from, to) && Events(ds, page, activation).Ok? && t in Events(ds, page, activation).value && !t.event.Log?
    ensures AllBlockEvents(ds, page.blocks, activation).Ok? && t in AllBlockEvents(ds, page.blocks, activation).value
  {
    var refs, logs := Refs(page.blocks), StableSort(LogLeq, page.logs);
    RefsContiguous(page, from, to);
    BlocksSorted(page, from, to);
    SortedLogs(page.logs, from, refs);
    LogsEmitted(ds, page.blocks, from, activation, logs);
    hide LogsEmit, AllBlockEvents, AllLogEvents, LogsOk, BlocksOk, Pairwise, AllLogsOk, Good, AllGood, TaggedLeq, LogLeq;
    var rows, fromLogs := AllBlockEvents(ds, page.blocks, activation).value, AllLogEvents(ds, page.blocks, logs, activation).value;
    LogEventsGood(ds, refs, from, activation, logs, fromLogs);
    SortMembers(TaggedLeq, rows + fromLogs);
  }

  /** A wanted header is heard by whoever wants it. */
  lemma WantedIsHeard(ds: DesiredState, block: RawBlock, activation: u64, t: Tagged)
    requires IsHeaderOf(ds, block, activation, t)
    ensures RecordOf(ds, t, activation).Some?
  {
    var i :| 0 <= i < |ds.owners| && WantsHeaderAt(ds, ds.owners[i], block.number.value, activation);
    var owner := ds.owners[i];
    var k :| 0 <= k < |owner.interests| && owner.interests[k].BlockInterest?;
    assert QueryPlan.InterestMatches(owner.interests[k], t.event);
    assert Hears(ds, owner, t.event, activation);
    if !Broadcast(ds, t.event, activation) {
      assert !HearsAsEveryone(ds, owner, t.event, activation);
      HearersListen(ds, ds.owners, t.event, activation, i);
      CharOrderTotal();
      var ids := Listeners(ds, ds.owners, t.event, activation);
      SortDedupCorrect(Lex(CharLess), ids);
      assert owner.ownerId in SortDedup(Lex(CharLess), ids);
    }
  }

  /** The headers among the events are those of the rows somebody wants. */
  lemma HeadersOfPage(o: Oracle, ds: DesiredState, page: Page, from: u64, to: u64, activation: u64)
    requires PageOk(page, from, to) && Events(ds, page, activation).Ok?
    ensures var ts := Events(ds, page, activation).value;
            HeadersHeard(ds, ts, activation) && (AllLegible(o, ts) <==> HeadersMatch(o, ds, page.blocks, activation))
  {
    var ts, blocks := Events(ds, page, activation).value, page.blocks;
    assert blocks[..|blocks|] == blocks;
    hide PageOk, Events, AllBlockEvents, RecordOf, Wanted, EventOk, BlockFieldsOk;
    forall t | t in ts && t.event.BlockHeader?
      ensures RecordOf(ds, t, activation).Some?
      ensures HeadersMatch(o, ds, blocks, activation) ==> EventOk(o, t.event)
    {
      LogsAreLogs(ds, page, from, to, activation, t);
      HeadersAreRows(ds, blocks, activation, |blocks|, t);
      var k :| 0 <= k < |blocks| && IsHeaderOf(ds, blocks[k], activation, t);
      WantedIsHeard(ds, blocks[k], activation, t);
    }
    forall k | 0 <= k < |blocks| && Wanted(ds, blocks[k], activation) ensures AllLegible(o, ts) ==> HeaderMatches(o, blocks[k]) {
      HeaderInPage(ds, page, from, to, activation, k);
    }
  }

  lemma HeaderInPage(ds: DesiredState, page: Page, from: u64, to: u64, activation: u64, k: nat)
    requires PageOk(page, from, to) && Events(ds, page, activation).Ok? && k < |page.blocks| && Wanted(ds, page.blocks[k], activation)
    ensures BlockFieldsOk(page.blocks[k]) && page.blocks[k].headerRlp.Some?
    ensures Tagged(HeaderOf(page.blocks[k]), ScopeAt(ds, page.blocks[k].number.value, activation)) in Events(ds, page, activation).value
  {
    var blocks := page.blocks;
    assert blocks[..|blocks|] == blocks;
    hide PageOk, Events, AllBlockEvents, ScopeAt, HasActiveBlockInterest;
    RowEventsKept(ds, page, from, to, activation, ProgressOf(RefOf(blocks[k])));
    HeaderEmitted(ds, blocks, activation, |blocks|, k);
    RowEventsKept(ds, page, from, to, activation, Tagged(HeaderOf(blocks[k]), ScopeAt(ds, blocks[k].number.value, activation)));
  }

  /** Normalization of an admitted page succeeds exactly when the wanted headers
      are there, and its records satisfy the store's record rules exactly when the
      store's library reads each of them as the header of its row. */
  lemma NormalizedAccepted(o: Oracle, ds: DesiredState, sequence: u64, page: Page, from: u64, to: u64, activation: u64)
    requires DesiredStateOk(ds) && PageOk(page, from, to)
    ensures var r := NormalizeAt(ds, sequence, page, activation);
            && (r.Ok? <==> HeadersPresent(ds, page.blocks, activation))
            && (r.Ok? ==>
                  && r.value.payload.Some? && r.value.payload.value.Data? && r.value.cursor.Some?
                  && var rs := r.value.payload.value.records;
                  && (RecordsOk(o, ds, rs) <==> HeadersMatch(o, ds, page.blocks, activation)) && CoverageOk(rs)
                  && r.value.cursor.value.canonicalHead == CoveredHead(ds, page.blocks, activation)
                  && (rs == [] ==> r.value.cursor.value.canonicalHead.None?))
  {
    PageNormalizes(ds, page, from, to, activation);
    RefsContiguous(page, from, to);
    BlocksSorted(page, from, to);
    hide Events, PageEmits, RecordsOf, CoveredHead, RecordsOk, CoverageOk, LogsOk, DesiredStateOk, StableSort, WithHead, HeadersPresent, HeadersMatch, HeadersHeard, AllLegible;
    if HeadersPresent(ds, page.blocks, activation) {
      HeadIsRecorded(ds, page, from, to, activation);
      HeadersOfPage(o, ds, page, from, to, activation);
      RecordsAccepted(o, ds, Refs(page.blocks), from, activation, Events(ds, page, activation).value);
    }
  }

  // ----- Any desired state: the blocks a page names -----

  /** A scope is known, and a named block is a row; in canonical scope it is a
      row every audience sees. */
  ghost predicate Names(ds: DesiredState, blocks: seq<RawBlock>, activation: u64, t: Tagged) {
    && SCOPE_CANONICAL_PROGRESS <= t.scope <= SCOPE_OWNER_CATCHUP
    && (ExplicitBlock(t.event).Some? ==> NamesRow(ds, blocks, activation, ExplicitBlock(t.event).value, t.scope))
  }

  ghost predicate NamesRow(ds: DesiredState, blocks: seq<RawBlock>, activation: u64, b: BlockRef, scope: int) {
    exists k :: 0 <= k < |blocks| && IsRow(ds, blocks[k], activation, b, scope)
  }

  predicate IsRow(ds: DesiredState, block: RawBlock, activation: u64, b: BlockRef, scope: int) {
    && BlockFieldsOk(block) && RefOf(block) == b
    && (scope != SCOPE_OWNER_CATCHUP ==> CanonicalAt(ds, b.number, activation))
  }

  lemma RowNamed(ds: DesiredState, block: RawBlock, activation: u64, t: Tagged)
    requires BlockEvents(ds, block, activation).Ok? && t in BlockEvents(ds, block, activation).value
    ensures ExplicitBlock(t.event).Some? && IsRow(ds, block, activation, ExplicitBlock(t.event).value, t.scope)
    ensures SCOPE_CANONICAL_PROGRESS <= t.scope <= SCOPE_OWNER_CATCHUP
  {
    hide HasActiveBlockInterest, CanonicalAt, RefOf;
  }

  lemma {:induction false} RowsNamed(ds: DesiredState, blocks: seq<RawBlock>, activation: u64, n: nat, t: Tagged)
    requires n <= |blocks| && AllBlockEvents(ds, blocks[..n], activation).Ok? && t in AllBlockEvents(ds, blocks[..n], activation).value
    ensures Names(ds, blocks, activation, t)
    decreases n
  {
    hide BlockEvents, IsRow;
    assert n > 0 && blocks[..n][..n - 1] == blocks[..n - 1];
    if t in AllBlockEvents(ds, blocks[..n - 1], activation).value {
      RowsNamed(ds, blocks, activation, n - 1, t);
    } else {
      RowNamed(ds, blocks[n - 1], activation, t);
    }
  }

  lemma {:induction false} LogsNameNothing(ds: DesiredState, blocks: seq<RawBlock>, logs: seq<RawLog>, activation: u64, t: Tagged)
    requires AllLogEvents(ds, blocks, logs, activation).Ok? && t in AllLogEvents(ds, blocks, logs, activation).value
    ensures t.event.Log? && SCOPE_CANONICAL_PROGRESS <= t.scope <= SCOPE_OWNER_CATCHUP
  {
    hide TimestampAt, LogReadable, CanonicalAt;
    var front := logs[..|logs| - 1];
    if t in AllLogEvents(ds, blocks, front, activation).value { LogsNameNothing(ds, blocks, front, activation, t); }
  }

  lemma {:induction false} ProgressEmitted(ds: DesiredState, blocks: seq<RawBlock>, activation: u64, k: nat)
    requires AllBlockEvents(ds, blocks, activation).Ok? && k < |blocks|
    ensures BlockFieldsOk(blocks[k])
    ensures CanonicalAt(ds, RefOf(blocks[k]).number, activation) ==> ProgressOf(RefOf(blocks[k])) in AllBlockEvents(ds, blocks, activation).value
  {
    hide CanonicalAt, HasActiveBlockInterest, RefOf;
    var front := blocks[..|blocks| - 1];
    if k < |front| { ProgressEmitted(ds, front, activation, k); }
  }

  lemma EventsComeFrom(ds: DesiredState, page: Page, from: u64, to: u64, activation: u64, t: Tagged)
    requires PageOk(page, from, to) && Events(ds, page, activation).Ok? && t in Events(ds, page, activation).value
    ensures var rows, logs := AllBlockEvents(ds, page.blocks, activation), AllLogEvents(ds, page.blocks, StableSort(LogLeq, page.logs), activation);
            rows.Ok? && logs.Ok? && (t in rows.value || t in logs.value)
  {
    BlocksSorted(page, from, to);
    hide PageOk, AllBlockEvents, AllLogEvents, TaggedLeq, BlockLeq, LogLeq, StableSort;
    var logs := StableSort(LogLeq, page.logs);
    SortMembers(TaggedLeq, AllBlockEvents(ds, page.blocks, activation).value + AllLogEvents(ds, page.blocks, logs, activation).value);
  }

  /** The events of any admitted page that normalizes. */
  lemma EventsName(ds: DesiredState, page: Page, from: u64, to: u64, activation: u64, t: Tagged)
    requires PageOk(page, from, to) && Events(ds, page, activation).Ok? && t in Events(ds, page, activation).value
    ensures Names(ds, page.blocks, activation, t)
  {
    EventsComeFrom(ds, page, from, to, activation, t);
    hide PageOk, Events, AllBlockEvents, AllLogEvents, LogLeq, StableSort, NamesRow;
    assert page.blocks[..|page.blocks|] == page.blocks;
    if t in AllBlockEvents(ds, page.blocks, activation).value { RowsNamed(ds, page.blocks, activation, |page.blocks|, t); }
    else { LogsNameNothing(ds, page.blocks, StableSort(LogLeq, page.logs), activation, t); }
  }

  lemma RowEventsKept(ds: DesiredState, page: Page, from: u64, to: u64, activation: u64, t: Tagged)
    requires PageOk(page, from, to) && Events(ds, page, activation).Ok?
    ensures var rows := AllBlockEvents(ds, page.blocks, activation);
            rows.Ok? && (t in rows.value ==> t in Events(ds, page, activation).value)
  {
    BlocksSorted(page, from, to);
    hide PageOk, AllBlockEvents, AllLogEvents, TaggedLeq, BlockLeq, LogLeq;
    var logs := StableSort(LogLeq, page.logs);
    SortMembers(TaggedLeq, AllBlockEvents(ds, page.blocks, activation).value + AllLogEvents(ds, page.blocks, logs, activation).value);
  }

  lemma TaggedRecorded(ds: DesiredState, ts: seq<Tagged>, activation: u64, t: Tagged, r: EventRecord)
    requires t in ts && RecordOf(ds, t, activation) == Some(r)
    ensures r in RecordsOf(ds, ts, activation)
  {
    hide RecordOf, RecordsOf;
    RecordsCome(ds, ts, activation, r);
    var i :| 0 <= i < |ts| && ts[i] == t;
    assert RecordOf(ds, ts[i], activation) == Some(r);
  }

  function HeadRecord(b: BlockRef): EventRecord {
    EventRecord(Some(BlockProgress(Some(b))), true, [], SCOPE_CANONICAL_PROGRESS)
  }

  lemma CoveredRowRecorded(ds: DesiredState, page: Page, from: u64, to: u64, activation: u64, k: nat)
    requires PageOk(page, from, to) && Events(ds, page, activation).Ok? && k < |page.blocks|
    requires CanonicalAt(ds, Refs(page.blocks)[k].number, activation)
    ensures HeadRecord(Refs(page.blocks)[k]) in RecordsOf(ds, Events(ds, page, activation).value, activation)
  {
    var b := Refs(page.blocks)[k];
    hide PageOk, AllBlockEvents, Events, CanonicalAt, RecordOf, RecordsOf;
    RowEventsKept(ds, page, from, to, activation, ProgressOf(b));
    ProgressEmitted(ds, page.blocks, activation, k);
    ProgressRecord(ds, b, activation);
    TaggedRecorded(ds, Events(ds, page, activation).value, activation, ProgressOf(b), HeadRecord(b));
  }

  // ----- Nobody interested is left out -----

  predicate HearsIt(ds: DesiredState, owner: OwnerInterests, event: ChainEvent, activation: u64, id: string) {
    owner.ownerId == id && Hears(ds, owner, event, activation)
  }

  lemma {:induction false} HearersListen(ds: DesiredState, owners: seq<OwnerInterests>, event: ChainEvent, activation: u64, i: nat)
    requires i < |owners| && HearsAlone(ds, owners[i], event, activation)
    ensures owners[i].ownerId in Listeners(ds, owners, event, activation)
  {
    hide HearsAlone;
    var front := owners[..|owners| - 1];
    if i < |front| { HearersListen(ds, front, event, activation, i); }
  }

  /** An event that is not broadcast is routed to exactly the owners that are
      active at its height and ask for it. */
  lemma RoutingIsExact(ds: DesiredState, event: ChainEvent, activation: u64, id: string)
    requires !AudienceOf(ds, event, activation).canonical
    ensures id in AudienceOf(ds, event, activation).ownerIds <==>
            exists i :: 0 <= i < |ds.owners| && HearsIt(ds, ds.owners[i], event, activation, id)
  {
    var ids := Listeners(ds, ds.owners, event, activation);
    CharOrderTotal();
    SortDedupCorrect(Lex(CharLess), ids);
    assert forall i :: 0 <= i < |ds.owners| ==> !HearsAsEveryone(ds, ds.owners[i], event, activation);
    hide Lex, SortDedup, Hears, Listeners;
    if id in ids {
      ListenersHear(ds, ds.owners, event, activation, id);
      var i :| 0 <= i < |ds.owners| && ds.owners[i].ownerId == id && HearsAlone(ds, ds.owners[i], event, activation);
      assert HearsIt(ds, ds.owners[i], event, activation, id);
    }
    if i :| 0 <= i < |ds.owners| && HearsIt(ds, ds.owners[i], event, activation, id) {
      assert HearsAlone(ds, ds.owners[i], event, activation);
      HearersListen(ds, ds.owners, event, activation, i);
    }
  }

  lemma LogEventsKept(ds: DesiredState, page: Page, from: u64, to: u64, activation: u64, t: Tagged)
    requires PageOk(page, from, to) && Events(ds, page, activation).Ok?
    ensures var logs := AllLogEvents(ds, page.blocks, StableSort(LogLeq, page.logs), activation);
            logs.Ok? && (t in logs.value ==> t in Events(ds, page, activation).value)
  {
    BlocksSorted(page, from, to);
    hide PageOk, AllBlockEvents, AllLogEvents, TaggedLeq, BlockLeq, LogLeq;
    var logs := StableSort(LogLeq, page.logs);
    SortMembers(TaggedLeq, AllBlockEvents(ds, page.blocks, activation).value + AllLogEvents(ds, page.blocks, logs, activation).value);
  }

  lemma LogEmitted(ds: DesiredState, page: Page, from: u64, to: u64, activation: u64, log: RawLog)
    requires PageOk(page, from, to) && Events(ds, page, activation).Ok? && log in page.logs
    ensures LogOk(log, from, Refs(page.blocks))
    ensures EventOfLog(ds, Refs(page.blocks), from, activation, log) in Events(ds, page, activation).value
  {
    var refs := Refs(page.blocks);
    var logs := StableSort(LogLeq, page.logs);
    RefsContiguous(page, from, to);
    SortedLogs(page.logs, from, refs);
    SortMembers(LogLeq, page.logs);
    LogsEmitted(ds, page.blocks, from, activation, logs);
    hide PageOk, Events, AllLogEvents, StableSort, LogLeq, LogOk;
    var i :| 0 <= i < |logs| && logs[i] == log;
    var t := EventOfLog(ds, refs, from, activation, log);
    assert AllLogEvents(ds, page.blocks, logs, activation).value[i] == t;
    LogEventsKept(ds, page, from, to, activation, t);
  }

  /** Every log of an admitted page that anybody hears is among the records. */
  lemma HeardLogsRecorded(ds: DesiredState, page: Page, from: u64, to: u64, activation: u64, log: RawLog)
    requires PageOk(page, from, to) && Events(ds, page, activation).Ok? && log in page.logs
    ensures LogOk(log, from, Refs(page.blocks))
    ensures var r := RecordOf(ds, EventOfLog(ds, Refs(page.blocks), from, activation, log), activation);
            r.Some? ==> r.value in RecordsOf(ds, Events(ds, page, activation).value, activation)
  {
    LogEmitted(ds, page, from, to, activation, log);
    hide PageOk, Events, RecordOf, RecordsOf, LogOk;
    var t := EventOfLog(ds, Refs(page.blocks), from, activation, log);
    var r := RecordOf(ds, t, activation);
    if r.Some? { TaggedRecorded(ds, Events(ds, page, activation).value, activation, t, r.value); }
  }
}
