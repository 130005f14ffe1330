/** The engine's deliveries against the session store's rules: payloads it
    accepts, and reorg promises it sees fulfilled
    (crates/hypersync/src/source_engine.rs, crates/event-service/src/session_store.rs). */
module Handshake {
  import opened Protocol
  import opened Canonical
  import opened PageRules
  import opened PayloadRules
  import opened ProgressRules
  import opened Normalize
  import opened Emission
  import opened SourceEngine
  import SourceCheckpoint
  import Ordering

  // ----- The shape of a prepared delivery -----

  function PageRecords(e: Engine, page: Page): seq<EventRecord>
    requires Events(e.ds, page, e.activation).Ok?
  {
    WithHead(RecordsOf(e.ds, Events(e.ds, page, e.activation).value, e.activation), CoveredHead(e.ds, page.blocks, e.activation))
  }

  lemma NormalizedShape(e: Engine, page: Page, from: u64, to: u64, sequence: u64)
    requires PageOk(page, from, to) && NormalizeAt(e.ds, sequence, page, e.activation).Ok?
    ensures Events(e.ds, page, e.activation).Ok?
    ensures var d := NormalizeAt(e.ds, sequence, page, e.activation).value;
            && d.cursor.Some? && d.queryRevision == e.ds.newRevision
            && d.cursor.value.nextBlock == page.nextBlock
            && d.cursor.value.canonicalHead == CoveredHead(e.ds, page.blocks, e.activation)
            && d.payload == Some(Data(PageRecords(e, page))) && !d.checkpointNeutral
  {
    BlocksSorted(page, from, to);
    hide Events, RecordsOf, CoveredHead, WithHead, PageOk, Ordering.StableSort;
  }

  lemma StampedShape(e: Engine, d: Delivery, checkpoint: Bytes)
    requires d.cursor.Some? && d.payload.Some? && d.payload.value.Data? && !d.checkpointNeutral
    ensures var s := Stamped(e, d, checkpoint);
            var rs := d.payload.value.records;
            && s.cursor.Some? && s.queryRevision == d.queryRevision
            && s.cursor.value.nextBlock == d.cursor.value.nextBlock
            && s.cursor.value.canonicalHead == OrElse(d.cursor.value.canonicalHead, e.coverage)
            && var at := if s.cursor.value.canonicalHead == e.coverage then None else s.cursor.value.canonicalHead;
            && s.payload == Some(if rs == [] then Barrier(ProgressId(e.ds.newRevision, d.cursor.value.nextBlock), at) else Data(rs))
            && s.checkpointNeutral == (rs == [] && at.None?)
  {
    hide ProgressId;
  }

  /** A prepared delivery is the stamped normalization of its page. */
  lemma PreparedIs(e: Engine, page: Page, sequence: u64, anchor: Option<BlockRef>) returns (checkpoint: Bytes)
    requires Prepare(e, page, sequence, anchor).Ok?
    ensures AllFieldsOk(page.blocks) && NormalizeAt(e.ds, sequence, page, e.activation).Ok?
    ensures NormalizeAt(e.ds, sequence, page, e.activation).value.cursor.Some?
    ensures var p := Prepare(e, page, sequence, anchor).value;
            && p.delivery == Stamped(e, NormalizeAt(e.ds, sequence, page, e.activation).value, checkpoint)
            && SourceCheckpoint.Encode(page.guard, e.activation, p.history) == Ok(checkpoint)
            && p.guard == page.guard
  {
    NormalizedHasCursor(e.ds, sequence, page, e.activation);
    hide NormalizeAt, Apply, SourceCheckpoint.Encode, CoverageAgrees, StartOf, Stamped;
    checkpoint := SourceCheckpoint.Encode(page.guard, e.activation, Prepare(e, page, sequence, anchor).value.history).value;
  }

  lemma PreparedShape(e: Engine, page: Page, from: u64, to: u64, sequence: u64, anchor: Option<BlockRef>)
    requires PageOk(page, from, to) && Prepare(e, page, sequence, anchor).Ok?
    ensures Events(e.ds, page, e.activation).Ok?
    ensures var d := Prepare(e, page, sequence, anchor).value.delivery;
            var rs := PageRecords(e, page);
            && d.cursor.Some? && d.queryRevision == e.ds.newRevision
            && d.cursor.value.nextBlock == page.nextBlock
            && d.cursor.value.canonicalHead == OrElse(CoveredHead(e.ds, page.blocks, e.activation), e.coverage)
            && var at := if d.cursor.value.canonicalHead == e.coverage then None else d.cursor.value.canonicalHead;
            && d.payload == Some(if rs == [] then Barrier(ProgressId(e.ds.newRevision, page.nextBlock), at) else Data(rs))
            && d.checkpointNeutral == (rs == [] && at.None?)
  {
    hide NormalizeAt, Prepare, Events, PageOk, Stamped, PageRecords, CoveredHead, SourceCheckpoint.Encode, ProgressId;
    var checkpoint := PreparedIs(e, page, sequence, anchor);
    NormalizedShape(e, page, from, to, sequence);
    StampedShape(e, NormalizeAt(e.ds, sequence, page, e.activation).value, checkpoint);
  }

  // ----- Payload acceptance -----

  /** The store's payload validator accepts a prepared page exactly when its
      library reads every header somebody wants as the header of its row. */
  lemma PreparedAccepted(o: Oracle, e: Engine, page: Page, from: u64, to: u64, sequence: u64, anchor: Option<BlockRef>)
    requires EngineOk(e) && DesiredStateOk(e.ds)
    requires PageOk(page, from, to) && Prepare(e, page, sequence, anchor).Ok?
    ensures PayloadOk(o, e.ds, Prepare(e, page, sequence, anchor).value.delivery) <==> HeadersMatch(o, e.ds, page.blocks, e.activation)
  {
    var checkpoint := PreparedIs(e, page, sequence, anchor);
    NormalizedAccepted(o, e.ds, sequence, page, from, to, e.activation);
    HeadWellFormed(e.ds, page, from, to, e.activation);
    PreparedShape(e, page, from, to, sequence, anchor);
    NormalizedShape(e, page, from, to, sequence);
    hide NormalizeAt, Prepare, Events, RecordsOf, CoveredHead, WithHead, RecordsOk, CoverageOk, PageOk, DesiredStateOk, ProgressId, ActivationId, PageRecords, HeadersMatch, HeadersPresent, Stamped, SourceCheckpoint.Encode;
    if PageRecords(e, page) == [] { NoRecordsOk(o, e.ds); }
  }

  lemma NoRecordsOk(o: Oracle, ds: DesiredState)
    ensures RecordsOk(o, ds, [])
  {
  }

  lemma HeadWellFormed(ds: DesiredState, page: Page, from: u64, to: u64, activation: u64)
    requires PageOk(page, from, to)
    ensures var head := CoveredHead(ds, page.blocks, activation); head.Some? ==> BlockRefOk(head.value)
  {
    if CoveredHead(ds, page.blocks, activation).Some? {
      var k := CoveredHeadIsRow(ds, page, from, to, activation);
      assert BlockRefOk(Refs(page.blocks)[k]);
    }
  }

  // ----- Certification of a promised tip -----

  lemma {:induction false} ExplicitBlocksCome(rs: seq<EventRecord>, b: BlockRef)
    ensures b in ExplicitBlocks(rs) <==> exists i :: 0 <= i < |rs| && RecordBlock(rs[i]) == Some(b)
  {
    if rs != [] {
      hide RecordBlock;
      var front := rs[..|rs| - 1];
      ExplicitBlocksCome(front, b);
      assert forall i :: 0 <= i < |front| ==> front[i] == rs[i];
    }
  }

  /** A record of the page has a known scope and names rows only. */
  ghost predicate RecordNames(ds: DesiredState, blocks: seq<RawBlock>, activation: u64, r: EventRecord) {
    && SCOPE_CANONICAL_PROGRESS <= r.scope <= SCOPE_OWNER_CATCHUP && r.event.Some?
    && (ExplicitBlock(r.event.value).Some? ==> NamesRow(ds, blocks, activation, ExplicitBlock(r.event.value).value, r.scope))
  }

  lemma RecordsName(e: Engine, page: Page, from: u64, to: u64, r: EventRecord)
    requires PageOk(page, from, to) && Events(e.ds, page, e.activation).Ok?
    requires r in RecordsOf(e.ds, Events(e.ds, page, e.activation).value, e.activation)
    ensures RecordNames(e.ds, page.blocks, e.activation, r)
  {
    var ts := Events(e.ds, page, e.activation).value;
    RecordsCome(e.ds, ts, e.activation, r);
    hide Events, RecordsOf, PageOk, AudienceOf, NamesRow;
    var i :| 0 <= i < |ts| && RecordOf(e.ds, ts[i], e.activation) == Some(r);
    EventsName(e.ds, page, from, to, e.activation, ts[i]);
  }

  lemma HeadCertified(e: Engine, page: Page, from: u64, to: u64, k: nat)
    requires PageOk(page, from, to) && Events(e.ds, page, e.activation).Ok? && k < |page.blocks|
    requires CanonicalAt(e.ds, Refs(page.blocks)[k].number, e.activation)
    ensures HeadRecord(Refs(page.blocks)[k]) in RecordsOf(e.ds, Events(e.ds, page, e.activation).value, e.activation)
    ensures HeadRecorded(RecordsOf(e.ds, Events(e.ds, page, e.activation).value, e.activation), Refs(page.blocks)[k])
  {
    var rs := RecordsOf(e.ds, Events(e.ds, page, e.activation).value, e.activation);
    var b := Refs(page.blocks)[k];
    CoveredRowRecorded(e.ds, page, from, to, e.activation, k);
    hide Events, RecordsOf, CanonicalAt, PageOk;
    var j :| 0 <= j < |rs| && rs[j] == HeadRecord(b);
    assert Certifying(rs[j], b);
  }

  /** The records are exactly the routed events, and non-empty under a head. */
  lemma RecordsWithHead(e: Engine, page: Page, from: u64, to: u64)
    requires PageOk(page, from, to) && Events(e.ds, page, e.activation).Ok?
    ensures PageRecords(e, page) == RecordsOf(e.ds, Events(e.ds, page, e.activation).value, e.activation)
    ensures PageRecords(e, page) == [] ==> CoveredHead(e.ds, page.blocks, e.activation).None?
  {
    hide Events, RecordsOf, CoveredHead, CanonicalAt, PageOk;
    if CoveredHead(e.ds, page.blocks, e.activation).Some? {
      var k := CoveredHeadIsRow(e.ds, page, from, to, e.activation);
      HeadCertified(e, page, from, to, k);
    }
  }

  lemma RowsByNumber(page: Page, from: u64, to: u64, ds: DesiredState, activation: u64, a: BlockRef, b: BlockRef, s: int, t: int)
    requires PageOk(page, from, to)
    requires NamesRow(ds, page.blocks, activation, a, s) && NamesRow(ds, page.blocks, activation, b, t)
    ensures from <= a.number < from + |page.blocks|
    ensures a.number == b.number ==> a == b
  {
    RefsContiguous(page, from, to);
    hide PageOk, CanonicalAt;
    var i :| 0 <= i < |page.blocks| && IsRow(ds, page.blocks[i], activation, a, s);
    var j :| 0 <= j < |page.blocks| && IsRow(ds, page.blocks[j], activation, b, t);
    assert Refs(page.blocks)[i] == a && Refs(page.blocks)[j] == b;
  }

  ghost predicate AllName(e: Engine, page: Page, rs: seq<EventRecord>) {
    forall r :: r in rs ==> RecordNames(e.ds, page.blocks, e.activation, r)
  }

  lemma NamedBlocks(e: Engine, page: Page, rs: seq<EventRecord>, b: BlockRef)
    requires AllName(e, page, rs) && b in ExplicitBlocks(rs)
    ensures NamesRow(e.ds, page.blocks, e.activation, b, SCOPE_CANONICAL_PROGRESS)
  {
    ExplicitBlocksCome(rs, b);
    hide ExplicitBlocks, CanonicalAt;
    var i :| 0 <= i < |rs| && RecordBlock(rs[i]) == Some(b);
    assert rs[i] in rs && RecordNames(e.ds, page.blocks, e.activation, rs[i]);
    var k :| 0 <= k < |page.blocks| && IsRow(e.ds, page.blocks[k], e.activation, b, rs[i].scope);
    assert IsRow(e.ds, page.blocks[k], e.activation, b, SCOPE_CANONICAL_PROGRESS);
  }

  lemma NamedFunctional(e: Engine, page: Page, from: u64, to: u64, rs: seq<EventRecord>)
    requires PageOk(page, from, to) && AllName(e, page, rs)
    ensures Functional(ExplicitBlocks(rs)) && RecordsReadable(rs)
    ensures forall b :: b in ExplicitBlocks(rs) ==> b.number < from + |page.blocks|
  {
    var bs := ExplicitBlocks(rs);
    hide PageOk, NamesRow, ExplicitBlocks;
    forall b | b in bs ensures b.number < from + |page.blocks| {
      NamedBlocks(e, page, rs, b);
      RowsByNumber(page, from, to, e.ds, e.activation, b, b, SCOPE_CANONICAL_PROGRESS, SCOPE_CANONICAL_PROGRESS);
    }
    forall i, j | 0 <= i < j < |bs| && bs[i].number == bs[j].number ensures bs[i] == bs[j] {
      assert bs[i] in bs && bs[j] in bs;
      NamedBlocks(e, page, rs, bs[i]);
      NamedBlocks(e, page, rs, bs[j]);
      RowsByNumber(page, from, to, e.ds, e.activation, bs[i], bs[j], SCOPE_CANONICAL_PROGRESS, SCOPE_CANONICAL_PROGRESS);
    }
    forall i | 0 <= i < |rs| ensures SCOPE_UNSPECIFIED <= rs[i].scope <= SCOPE_OWNER_CATCHUP && rs[i].event.Some? {
      assert rs[i] in rs && RecordNames(e.ds, page.blocks, e.activation, rs[i]);
    }
  }

  /** The page's last row, which an accepted page makes the tracker's tip. */
  function LastRow(page: Page): BlockRef
    requires AllFieldsOk(page.blocks) && page.blocks != []
  {
    Refs(page.blocks)[|page.blocks| - 1]
  }

  lemma LastRowIs(page: Page, from: u64, to: u64)
    requires PageOk(page, from, to) && page.nextBlock > from
    ensures AllFieldsOk(page.blocks) && page.blocks != [] && LastRow(page).number + 1 == page.nextBlock
  {
    RefsContiguous(page, from, to);
  }

  lemma HeadIsLastRow(ds: DesiredState, page: Page, from: u64, to: u64, activation: u64)
    requires PageOk(page, from, to) && page.nextBlock > from
    requires AllFieldsOk(page.blocks) && page.blocks != [] && CanonicalAt(ds, LastRow(page).number, activation)
    ensures CoveredHead(ds, page.blocks, activation) == Some(LastRow(page))
  {
    RefsContiguous(page, from, to);
    HeadOfRows(ds, page.blocks, from, activation, |page.blocks|);
    assert page.blocks[..|page.blocks|] == page.blocks;
  }

  lemma PageAllName(e: Engine, page: Page, from: u64, to: u64)
    requires PageOk(page, from, to) && Events(e.ds, page, e.activation).Ok?
    ensures AllName(e, page, PageRecords(e, page))
  {
    hide Events, RecordsOf, PageOk, RecordNames, CoveredHead, WithHead;
    RecordsWithHead(e, page, from, to);
    forall r | r in PageRecords(e, page) ensures RecordNames(e.ds, page.blocks, e.activation, r) {
      RecordsName(e, page, from, to, r);
    }
  }

  /** Under a canonical last row the records name it, and nothing above it. */
  lemma LastRowCertified(e: Engine, page: Page, from: u64, to: u64)
    requires PageOk(page, from, to) && page.nextBlock > from && Events(e.ds, page, e.activation).Ok?
    requires AllFieldsOk(page.blocks) && page.blocks != [] && CanonicalAt(e.ds, LastRow(page).number, e.activation)
    ensures var rs := PageRecords(e, page); var tip := LastRow(page);
            rs != [] && RecordsReadable(rs) && Functional(ExplicitBlocks(rs)) && RunsTo(ExplicitBlocks(rs), tip, tip)
  {
    hide PageOk, Events, RecordsOf, CanonicalAt, CoveredHead, PageRecords, ExplicitBlocks, Functional, RecordsReadable, AllName, Refs, HeadRecorded;
    var rs, tip := PageRecords(e, page), LastRow(page);
    LastRowIs(page, from, to);
    LengthOfPage(page, from, to);
    HeadCertified(e, page, from, to, |page.blocks| - 1);
    RecordsWithHead(e, page, from, to);
    PageAllName(e, page, from, to);
    NamedFunctional(e, page, from, to, rs);
    HeadRecordNames(rs, tip);
  }

  lemma LengthOfPage(page: Page, from: u64, to: u64)
    requires PageOk(page, from, to)
    ensures from + |page.blocks| == page.nextBlock
  {
  }

  lemma HeadRecordNames(rs: seq<EventRecord>, b: BlockRef)
    requires HeadRecord(b) in rs
    ensures b in ExplicitBlocks(rs)
  {
    ExplicitBlocksCome(rs, b);
    hide ExplicitBlocks;
    var j :| 0 <= j < |rs| && rs[j] == HeadRecord(b);
    assert RecordBlock(rs[j]) == Some(b);
  }

  /** A prepared page fulfils the promise of its own tip exactly when that tip
      is a height every audience sees. */
  lemma CertifiesIff(e: Engine, page: Page, from: u64, to: u64, sequence: u64, anchor: Option<BlockRef>)
    requires PageOk(page, from, to) && page.nextBlock > from && Prepare(e, page, sequence, anchor).Ok?
    ensures AllFieldsOk(page.blocks) && page.blocks != []
    ensures Certifies(Prepare(e, page, sequence, anchor).value.delivery, LastRow(page)) <==>
            CanonicalAt(e.ds, LastRow(page).number, e.activation)
  {
    LastRowIs(page, from, to);
    hide Prepare, Events, PageOk, PageRecords, CoveredHead, CanonicalAt, RunsTo, Functional, RecordsReadable, ExplicitBlocks, AllName, NamesRow, ProgressId, Refs;
    var tip := LastRow(page);
    PreparedShape(e, page, from, to, sequence, anchor);
    RecordsWithHead(e, page, from, to);
    PageAllName(e, page, from, to);
    var d := Prepare(e, page, sequence, anchor).value.delivery;
    if CanonicalAt(e.ds, tip.number, e.activation) {
      HeadIsLastRow(e.ds, page, from, to, e.activation);
      LastRowCertified(e, page, from, to);
    }
    if Certifies(d, tip) && d.payload.value.Data? {
      assert tip in ExplicitBlocks(PageRecords(e, page)) by { RunNamesTip(ExplicitBlocks(PageRecords(e, page)), tip, d.cursor.value.canonicalHead.value); }
      NamedBlocks(e, page, PageRecords(e, page), tip);
      NamedRowCanonical(e, page, tip);
    }
  }

  lemma RunNamesTip(bs: seq<BlockRef>, tip: BlockRef, head: BlockRef)
    requires RunsTo(bs, tip, head)
    ensures tip in bs
  {
  }

  lemma NamedRowCanonical(e: Engine, page: Page, b: BlockRef)
    requires NamesRow(e.ds, page.blocks, e.activation, b, SCOPE_CANONICAL_PROGRESS)
    ensures CanonicalAt(e.ds, b.number, e.activation)
  {
    hide CanonicalAt;
    var k :| 0 <= k < |page.blocks| && IsRow(e.ds, page.blocks[k], e.activation, b, SCOPE_CANONICAL_PROGRESS);
  }

  // ----- The staged pair -----

  lemma AdmittedPage(env: Env, e: Engine, from: u64, to: u64, l: QueryLimits)
    requires QueryPage(env, e, from, to, l).Ok?
    ensures var page := QueryPage(env, e, from, to, l).value; PageOk(page, from, to) && page.nextBlock > from
  {
  }

  lemma AnchorBelow(env: Env, e: Engine, page: Page, from: u64, to: u64)
    requires PageOk(page, from, to) && AnchorFor(env, e, page).Ok?
    ensures var a := AnchorFor(env, e, page).value; a.Some? ==> a.value.number + 1 == from
  {
    hide Admit;
    if AnchorFor(env, e, page).value.Some? {
      var n := page.guard.value.firstBlockNumber - 1;
      AdmittedIsValid(env, e, BlockQuery(n), n, n + 1);
      OneBlock(Admit(env, e, BlockQuery(n), n, n + 1).value, n);
    }
  }

  /** A successful attempt prepared one admitted page: the next one, or the
      replacement found by fork recovery. */
  lemma {:induction false} AttemptPrepares(env: Env, e: Engine, to: u64, sequence: u64, l: QueryLimits, anchor: Option<BlockRef>)
    returns (page: Page, from: u64, below: Option<BlockRef>)
    requires EngineOk(e) && Attempt(env, e, to, sequence, l, anchor).Ok?
    requires anchor.Some? ==> anchor.value.number + 1 == e.nextBlock
    ensures PageOk(page, from, to) && page.nextBlock > from
    ensures below.Some? ==> below.value.number + 1 == from
    ensures Prepare(e, page, sequence, below) == Attempt(env, e, to, sequence, l, anchor)
    ensures from == e.nextBlock || below.None?
    decreases l.maxBlocks + l.maxLogs
  {
    hide QueryPage, AnchorFor, RollbackDetected, CommonAncestor, Prepare, PageOk, EngineOk;
    var first := QueryPage(env, e, e.nextBlock, to, l).value;
    AdmittedPage(env, e, e.nextBlock, to, l);
    var under := (if anchor.Some? then Ok(anchor) else AnchorFor(env, e, first)).value;
    if anchor.None? { AnchorBelow(env, e, first, e.nextBlock, to); }
    var prepared := if RollbackDetected(e, first) then Recover(env, e, to, sequence, l) else Prepare(e, first, sequence, under);
    if env.encodedLen(prepared.value.delivery) > e.maxDeliveryBytes {
      page, from, below := AttemptPrepares(env, e, to, sequence, Shrink(l).value, under);
    } else if RollbackDetected(e, first) {
      from := CommonAncestor(env, e).value + 1;
      page := QueryPage(env, e, from, to, l).value;
      AdmittedPage(env, e, from, to, l);
      below := None;
    } else {
      page, from, below := first, e.nextBlock, under;
    }
  }

  lemma DisplacedNeedsTwo(s: seq<BlockRef>, b: BlockRef)
    requires |s| <= 1
    ensures Displaced(s, b).None?
  {
    if |s| == 1 {
      assert s[1..] == [] && Find(s[1..], b.number).None? && Find(s[1..], b.number - 1).None?;
    }
  }

  lemma StartOfEmpty(e: Engine, anchor: Option<BlockRef>)
    requires EngineOk(e) && e.history == [] && StartOf(e.history, e.depth, anchor).Ok?
    ensures var s := StartOf(e.history, e.depth, anchor).value; |s| <= 1 && Retained(s, e.depth)
  {
    if anchor.Some? {
      ApplyMeaning([], e.depth, [anchor.value]);
      assert Agreeing([], [anchor.value]) == 0;
    }
  }

  /** A reported reorg displaces the retained tip below an ancestor in history,
      and its new tip is the page's last row. */
  lemma ReorgIs(s: seq<BlockRef>, depth: nat, refs: seq<BlockRef>)
    requires depth >= 1 && Retained(s, depth) && Apply(s, depth, refs).Ok? && Apply(s, depth, refs).value.reorg.Some?
    ensures |s| > 1 && refs != []
    ensures var delta := Apply(s, depth, refs).value.reorg.value;
            && delta.newTip == refs[|refs| - 1] && delta.oldTip == s[|s| - 1]
            && Find(s, delta.commonAncestor.number) == Some(delta.commonAncestor)
            && refs[Agreeing(s, refs)..] != [] && refs[Agreeing(s, refs)].number == delta.commonAncestor.number + 1
  {
    ApplyMeaning(s, depth, refs);
    hide Apply, Attaches, Contiguous, LastN, Rebase;
    var rest := refs[Agreeing(s, refs)..];
    if |s| <= 1 { DisplacedNeedsTwo(s, rest[0]); }
    DisplacedIs(s, depth, rest[0]);
  }

  lemma DisplacedIs(s: seq<BlockRef>, depth: nat, b: BlockRef)
    requires Retained(s, depth) && Displaced(s, b).Some?
    ensures var a := Displaced(s, b).value; a.number == b.number - 1 && Find(s, a.number) == Some(a)
  {
    LinkedContiguous(s);
    FindContiguous(s, b.number - 1);
  }

  /** What the tracker did for a prepared page. */
  lemma PreparedApplies(e: Engine, page: Page, sequence: u64, anchor: Option<BlockRef>)
    requires Prepare(e, page, sequence, anchor).Ok?
    ensures AllFieldsOk(page.blocks)
    ensures StartOf(e.history, e.depth, anchor).Ok?
    ensures var p := Prepare(e, page, sequence, anchor).value;
            Apply(StartOf(e.history, e.depth, anchor).value, e.depth, Refs(page.blocks)) == Ok(Tracked(p.history, p.reorg))
  {
    hide NormalizeAt, Apply, SourceCheckpoint.Encode, CoverageAgrees, Stamped, StartOf;
  }

  lemma PreparedReorg(e: Engine, page: Page, from: u64, to: u64, sequence: u64, anchor: Option<BlockRef>)
    requires EngineOk(e) && PageOk(page, from, to) && page.nextBlock > from
    requires Prepare(e, page, sequence, anchor).Ok? && Prepare(e, page, sequence, anchor).value.reorg.Some?
    ensures e.history != [] && AllFieldsOk(page.blocks) && page.blocks != []
    ensures var delta := Prepare(e, page, sequence, anchor).value.reorg.value;
            && delta.newTip == LastRow(page) && delta.oldTip == e.history[|e.history| - 1]
            && Find(e.history, delta.commonAncestor.number) == Some(delta.commonAncestor)
  {
    hide Prepare, Apply, PageOk, Find, Retained;
    LastRowIs(page, from, to);
    PreparedApplies(e, page, sequence, anchor);
    if e.history == [] { StartOfEmpty(e, anchor); }
    ReorgIs(StartOf(e.history, e.depth, anchor).value, e.depth, Refs(page.blocks));
  }

  /** The control and the queued replacement of a staged reorg. */
  ghost predicate StagedPair(e: Engine, after: Engine, control: Delivery, delta: ReorgDelta) {
    && control.payload == Some(Reorg(Some(delta.commonAncestor), Some(delta.oldTip), Some(delta.newTip)))
    && control.cursor.Some?
    && control.cursor.value.canonicalHead == Some(delta.commonAncestor)
    && control.cursor.value.nextBlock == delta.commonAncestor.number + 1
    && control.sequence == e.sequence + 1 && control.token == Token(control.sequence)
    && control.cursor.value.batchSequence == control.sequence
    && after.pending.Some? && after.pending.value.delivery == control && !after.pending.value.advances
    && after.queued.Some? && after.queued.value.advances
    && var d := after.queued.value.delivery;
    && d.cursor.Some? && d.sequence == control.sequence + 1 && d.token == Token(d.sequence)
    && d.cursor.value.batchSequence == d.sequence
  }

  lemma RenumberKeepsMeaning(d: Delivery, sequence: u64, tip: BlockRef)
    requires Renumber(d, sequence).Ok?
    ensures Certifies(Renumber(d, sequence).value, tip) <==> Certifies(d, tip)
  {
    hide RunsTo, Functional, RecordsReadable, ExplicitBlocks, Token;
  }

  lemma StagedShape(env: Env, e: Engine, p: Prepared)
    requires e.sequence < U64_MAX && p.reorg.Some? && Stage(env, e, e.sequence + 1, p).Ok?
    ensures e.sequence + 2 <= U64_MAX && Renumber(p.delivery, e.sequence + 2).Ok?
    ensures var step := Stage(env, e, e.sequence + 1, p).value;
            && step.emitted.Some?
            && StagedPair(e, step.engine, step.emitted.value, p.reorg.value)
            && step.engine.queued.value.delivery == Renumber(p.delivery, e.sequence + 2).value
            && CanonicalAt(e.ds, p.reorg.value.oldTip.number, e.activation)
  {
    hide CanonicalAt, Token, SourceCheckpoint.Encode, UpTo;
  }

  /** When the next batch stages a reorg, the control rewinds to the common
      ancestor in the retained history, and the store's promise of the new tip is
      fulfilled by the queued replacement exactly when that tip is at or past the
      activation boundary or inside a global backfill. */
  lemma StagedReorgHandshake(env: Env, e: Engine, to: u64) returns (delta: ReorgDelta)
    requires EngineOk(e) && e.pending.None? && e.queued.None?
    requires Produce(env, e, to).Ok? && Produce(env, e, to).value.engine.queued.Some?
    ensures Produce(env, e, to).value.emitted.Some?
    ensures var step := Produce(env, e, to).value;
            var control := step.emitted.value;
            && StagedPair(e, step.engine, control, delta)
            && e.history != [] && delta.oldTip == e.history[|e.history| - 1]
            && Find(e.history, delta.commonAncestor.number) == Some(delta.commonAncestor)
            && PromiseAfterAck(None, control) == Some(delta.newTip)
            && (PromiseAfterAck(Some(delta.newTip), step.engine.queued.value.delivery).None? <==>
                CanonicalAt(e.ds, delta.newTip.number, e.activation))
  {
    hide Attempt, Prepare, PageOk, EngineOk, CanonicalAt, Certifies, Find, Renumber;
    var l := LimitsFor(e.nextBlock, to);
    var p := Attempt(env, e, to, e.sequence + 1, l, None).value;
    var page, from, below := AttemptPrepares(env, e, to, e.sequence + 1, l, None);
    delta := p.reorg.value;
    StagedShape(env, e, p);
    hide Stage;
    PreparedReorg(e, page, from, to, e.sequence + 1, below);
    CertifiesIff(e, page, from, to, e.sequence + 1, below);
    RenumberKeepsMeaning(p.delivery, e.sequence + 2, delta.newTip);
    NotAReorg(e, page, from, to, e.sequence + 1, below, e.sequence + 2);
  }

  lemma NotAReorg(e: Engine, page: Page, from: u64, to: u64, sequence: u64, anchor: Option<BlockRef>, renumbered: u64)
    requires PageOk(page, from, to) && Prepare(e, page, sequence, anchor).Ok?
    requires Renumber(Prepare(e, page, sequence, anchor).value.delivery, renumbered).Ok?
    ensures var d := Renumber(Prepare(e, page, sequence, anchor).value.delivery, renumbered).value;
            d.payload.Some? && !d.payload.value.Reorg?
  {
    hide Prepare, PageOk, Events, PageRecords, CoveredHead, ProgressId, Token;
    PreparedShape(e, page, from, to, sequence, anchor);
  }

  // ----- Everything the engine stages is accepted -----

  lemma RenumberKeepsPayload(o: Oracle, ds: DesiredState, d: Delivery, sequence: u64)
    requires Renumber(d, sequence).Ok?
    ensures PayloadOk(o, ds, Renumber(d, sequence).value) <==> PayloadOk(o, ds, d)
  {
    hide RecordsOk, CoverageOk, ControlOk, Token, ActivationId, ProgressId;
  }

  /** Both tips are later than the ancestor and the three hashes differ. */
  predicate Distinguishable(delta: ReorgDelta) {
    var a, o, n := delta.commonAncestor, delta.oldTip, delta.newTip;
    && a.timestamp < o.timestamp && a.timestamp < n.timestamp
    && o.hash != n.hash && o.hash != a.hash && n.hash != a.hash
  }

  /** The retained tip above an ancestor is well formed, and its child when it is
      the next one. */
  lemma OldTipShape(s: seq<BlockRef>, depth: nat, a: BlockRef, b: BlockRef)
    requires Retained(s, depth) && Displaced(s, b) == Some(a)
    ensures s != [] && BlockRefOk(a) && BlockRefOk(s[|s| - 1]) && s[|s| - 1].number > a.number
    ensures s[|s| - 1].number == a.number + 1 ==> s[|s| - 1].parentHash == a.hash
  {
    LinkedContiguous(s);
    FindContiguous(s, b.number);
    FindContiguous(s, b.number - 1);
    var k := a.number - s[0].number;
    assert s[k] == a && Follows(s[k], s[k + 1]);
  }

  lemma NewTipShape(s: seq<BlockRef>, rest: seq<BlockRef>, a: BlockRef)
    requires s != [] && rest != [] && Attaches(s, rest) && Displaced(s, rest[0]) == Some(a) && a.number == rest[0].number - 1
    ensures var n := rest[|rest| - 1];
            BlockRefOk(n) && n.number > a.number && (n.number == a.number + 1 ==> n.parentHash == a.hash)
  {
    LinkedContiguous(rest);
  }

  /** What the tracker reports is a fork of well-formed blocks; only clocks and
      hash collisions are left for the store to object to. */
  lemma DeltaShape(s: seq<BlockRef>, depth: nat, refs: seq<BlockRef>)
    requires depth >= 1 && Retained(s, depth) && Apply(s, depth, refs).Ok? && Apply(s, depth, refs).value.reorg.Some?
    ensures var delta := Apply(s, depth, refs).value.reorg.value;
            && BlockRefOk(delta.commonAncestor) && BlockRefOk(delta.oldTip) && BlockRefOk(delta.newTip)
            && delta.commonAncestor.number < delta.oldTip.number && delta.commonAncestor.number < delta.newTip.number
            && (ReorgShapeOk(delta.commonAncestor, delta.oldTip, delta.newTip) <==> Distinguishable(delta))
  {
    ApplyMeaning(s, depth, refs);
    hide Apply, Retained, Contiguous, Attaches, LastN, Rebase, Displaced;
    var rest := refs[Agreeing(s, refs)..];
    var a := Displaced(s, rest[0]).value;
    DisplacedIs(s, depth, rest[0]);
    OldTipShape(s, depth, a, rest[0]);
    NewTipShape(s, rest, a);
  }

  lemma PreparedDelta(e: Engine, page: Page, sequence: u64, anchor: Option<BlockRef>)
    requires EngineOk(e) && Prepare(e, page, sequence, anchor).Ok? && Prepare(e, page, sequence, anchor).value.reorg.Some?
    ensures var delta := Prepare(e, page, sequence, anchor).value.reorg.value;
            && BlockRefOk(delta.commonAncestor) && BlockRefOk(delta.oldTip) && BlockRefOk(delta.newTip)
            && delta.commonAncestor.number < delta.oldTip.number && delta.commonAncestor.number < delta.newTip.number
            && (ReorgShapeOk(delta.commonAncestor, delta.oldTip, delta.newTip) <==> Distinguishable(delta))
  {
    hide Prepare, Apply, Retained, Distinguishable, ReorgShapeOk;
    PreparedApplies(e, page, sequence, anchor);
    if e.history == [] { StartOfEmpty(e, anchor); }
    DeltaShape(StartOf(e.history, e.depth, anchor).value, e.depth, Refs(page.blocks));
  }

  /** Of a staged page, data or scan progress, the store's payload validator asks
      only that its library reads every wanted header as its row's. Of a staged
      control it asks exactly that both tips are later than the ancestor and no
      two of the three blocks share a hash: the source never orders timestamps,
      the store does. */
  lemma StagedDeliveriesAccepted(o: Oracle, env: Env, e: Engine, to: u64) returns (page: Page, from: u64, anchor: Option<BlockRef>)
    requires EngineOk(e) && e.pending.None? && e.queued.None? && DesiredStateOk(e.ds)
    requires Produce(env, e, to).Ok? && Produce(env, e, to).value.emitted.Some?
    ensures PageOk(page, from, to) && e.sequence < U64_MAX && Prepare(e, page, e.sequence + 1, anchor).Ok?
    ensures Produce(env, e, to) == Stage(env, e, e.sequence + 1, Prepare(e, page, e.sequence + 1, anchor).value)
    ensures var step := Produce(env, e, to).value;
            if step.engine.queued.None? then PayloadOk(o, e.ds, step.emitted.value) <==> HeadersMatch(o, e.ds, page.blocks, e.activation)
            else
              && (PayloadOk(o, e.ds, step.engine.queued.value.delivery) <==> HeadersMatch(o, e.ds, page.blocks, e.activation))
              && var p := step.emitted.value.payload;
              && p.Some? && p.value.Reorg? && p.value.commonAncestor.Some? && p.value.oldTip.Some? && p.value.newTip.Some?
              && (PayloadOk(o, e.ds, step.emitted.value) <==>
                  Distinguishable(ReorgDelta(p.value.commonAncestor.value, p.value.oldTip.value, p.value.newTip.value)))
  {
    hide Attempt, Prepare, PageOk, CanonicalAt, Renumber, HeadersMatch, DesiredStateOk, PayloadOk, ReorgShapeOk, EngineOk, Distinguishable;
    var l := LimitsFor(e.nextBlock, to);
    var p := Attempt(env, e, to, e.sequence + 1, l, None).value;
    page, from, anchor := AttemptPrepares(env, e, to, e.sequence + 1, l, None);
    PreparedAccepted(o, e, page, from, to, e.sequence + 1, anchor);
    if p.reorg.Some? {
      StagedShape(env, e, p);
      RenumberKeepsPayload(o, e.ds, p.delivery, e.sequence + 2);
      PreparedDelta(e, page, e.sequence + 1, anchor);
      ControlPayload(o, e, e.sequence + 1, p.reorg.value);
    }
  }

  lemma ControlPayload(o: Oracle, e: Engine, sequence: u64, delta: ReorgDelta)
    requires ReorgControl(e, sequence, delta).Ok?
    requires BlockRefOk(delta.commonAncestor) && BlockRefOk(delta.oldTip) && BlockRefOk(delta.newTip)
    ensures PayloadOk(o, e.ds, ReorgControl(e, sequence, delta).value) <==>
            ReorgShapeOk(delta.commonAncestor, delta.oldTip, delta.newTip)
  {
    hide ReorgShapeOk, SourceCheckpoint.Encode, UpTo, Token;
  }
}
