/** The source engine and the session store as one pipeline: what the engine
    stages, the store saves, and the two stay at the same position
    (crates/hypersync/src/source_engine.rs, crates/event-service/src/session_store.rs,
    crates/hypersync/src/managed_provider.rs). */
module Pipeline {
  import opened Protocol
  import opened Canonical
  import opened PageRules
  import opened PayloadRules
  import opened ProgressRules
  import opened Normalize
  import opened Emission
  import opened SourceEngine
  import opened Handshake
  import opened Restart
  import opened RestartRuns
  import SourceCheckpoint
  import Ordering
  import S = SessionStore

  // ----- The blocks a page's records declare -----

  lemma BlockOfRecord(r: EventRecord, b: BlockRef)
    requires RecordBlock(r) == Some(b)
    ensures r.event.Some? && EventNumber(r.event.value) == b.number
  {
  }

  lemma OrderedBlocks(a: EventRecord, b: EventRecord, x: BlockRef, y: BlockRef)
    requires PairOk(a, b) && RecordBlock(a) == Some(x) && RecordBlock(b) == Some(y)
    ensures x.number <= y.number
  {
    BlockOfRecord(a, x);
    BlockOfRecord(b, y);
  }

  /** Every earlier named block is at or below the last one. */
  lemma {:induction false} RecordsAscend(rs: seq<EventRecord>)
    requires forall i, j :: 0 <= i < j < |rs| ==> PairOk(rs[i], rs[j])
    ensures Ascending(ExplicitBlocks(rs))
    ensures forall b :: b in ExplicitBlocks(rs) ==> b.number <= ExplicitBlocks(rs)[|ExplicitBlocks(rs)| - 1].number
  {
    if rs != [] {
      var front, last := rs[..|rs| - 1], rs[|rs| - 1];
      assert forall i :: 0 <= i < |front| ==> front[i] == rs[i];
      hide PairOk, RecordBlock;
      RecordsAscend(front);
      if RecordBlock(last).Some? {
        forall b | b in ExplicitBlocks(front) ensures b.number <= RecordBlock(last).value.number {
          ExplicitBlocksCome(front, b);
          var i :| 0 <= i < |front| && RecordBlock(front[i]) == Some(b);
          OrderedBlocks(rs[i], last, b, RecordBlock(last).value);
        }
      }
    }
  }

  /** The covered head is the highest canonical row. */
  lemma {:induction false} CoveredIsHighest(ds: DesiredState, blocks: seq<RawBlock>, from: u64, activation: u64, n: nat, k: nat)
    requires AllFieldsOk(blocks) && k < n <= |blocks|
    requires forall i :: 0 <= i < |blocks| ==> Refs(blocks)[i].number == from + i
    requires CanonicalAt(ds, Refs(blocks)[k].number, activation)
    ensures var head := CoveredHead(ds, blocks[..n], activation); head.Some? && head.value.number >= Refs(blocks)[k].number
    decreases n
  {
    hide CanonicalAt;
    assert blocks[..n][..n - 1] == blocks[..n - 1];
    assert Refs(blocks)[n - 1] == RefOf(blocks[n - 1]);
    if k < n - 1 { CoveredIsHighest(ds, blocks, from, activation, n - 1, k); }
  }

  lemma NamedBelowHead(e: Engine, page: Page, from: u64, to: u64, b: BlockRef)
    requires PageOk(page, from, to) && NamesRow(e.ds, page.blocks, e.activation, b, SCOPE_CANONICAL_PROGRESS)
    ensures var head := CoveredHead(e.ds, page.blocks, e.activation); head.Some? && b.number <= head.value.number
  {
    RefsContiguous(page, from, to);
    NamedRowCanonical(e, page, b);
    hide PageOk, CanonicalAt, CoveredHead;
    var k :| 0 <= k < |page.blocks| && IsRow(e.ds, page.blocks[k], e.activation, b, SCOPE_CANONICAL_PROGRESS);
    assert Refs(page.blocks)[k] == b;
    CoveredIsHighest(e.ds, page.blocks, from, e.activation, |page.blocks|, k);
    assert page.blocks[..|page.blocks|] == page.blocks;
  }

  /** With a covered head, the last block the records name is that head. */
  lemma DeclaresHead(e: Engine, page: Page, from: u64, to: u64, rs: seq<EventRecord>)
    requires PageOk(page, from, to) && Events(e.ds, page, e.activation).Ok? && rs == PageRecords(e, page)
    requires CoveredHead(e.ds, page.blocks, e.activation).Some? && Ascending(ExplicitBlocks(rs))
    requires forall b :: b in ExplicitBlocks(rs) ==> b.number <= ExplicitBlocks(rs)[|ExplicitBlocks(rs)| - 1].number
    ensures rs != [] && Last(ExplicitBlocks(rs)) == CoveredHead(e.ds, page.blocks, e.activation)
  {
    hide PageOk, Events, RecordsOf, CanonicalAt, CoveredHead, PageRecords, ExplicitBlocks, Ascending, RecordsReadable, AllName, Refs, HeadRecorded, NamesRow;
    var k := CoveredHeadIsRow(e.ds, page, from, to, e.activation);
    var h := CoveredHead(e.ds, page.blocks, e.activation).value;
    HeadCertified(e, page, from, to, k);
    RecordsWithHead(e, page, from, to);
    PageAllName(e, page, from, to);
    NamedFunctional(e, page, from, to, rs);
    HeadRecordNames(rs, h);
    var bs := ExplicitBlocks(rs);
    var last := bs[|bs| - 1];
    assert last in bs;
    NamedBlocks(e, page, rs, last);
    NamedBelowHead(e, page, from, to, last);
    var i :| 0 <= i < |bs| && bs[i] == h;
  }

  /** Without one, the records name no block and are all owner catch-up. */
  lemma DeclaresNothing(e: Engine, page: Page, from: u64, to: u64, rs: seq<EventRecord>)
    requires PageOk(page, from, to) && Events(e.ds, page, e.activation).Ok? && rs == PageRecords(e, page)
    requires CoveredHead(e.ds, page.blocks, e.activation).None?
    ensures ExplicitBlocks(rs) == [] && AllOwnerCatchup(rs)
  {
    hide PageOk, Events, RecordsOf, CanonicalAt, CoveredHead, PageRecords, AllName, Refs, NamesRow, PageEmits, ExplicitBlocks;
    RecordsWithHead(e, page, from, to);
    PageAllName(e, page, from, to);
    if ExplicitBlocks(rs) != [] {
      var b := ExplicitBlocks(rs)[0];
      NamedBlocks(e, page, rs, b);
      NamedBelowHead(e, page, from, to, b);
    }
    forall i | 0 <= i < |rs| ensures rs[i].scope == SCOPE_OWNER_CATCHUP {
      if rs[i].scope != SCOPE_OWNER_CATCHUP { CanonicalRecordCovered(e, page, from, to, rs[i]); }
    }
  }

  lemma CanonicalRecordCovered(e: Engine, page: Page, from: u64, to: u64, r: EventRecord)
    requires PageOk(page, from, to) && Events(e.ds, page, e.activation).Ok?
    requires r in RecordsOf(e.ds, Events(e.ds, page, e.activation).value, e.activation) && r.scope != SCOPE_OWNER_CATCHUP
    ensures CoveredHead(e.ds, page.blocks, e.activation).Some?
  {
    hide Events, RecordsOf, CanonicalAt, CoveredHead, Good, RecordOf;
    PageNormalizes(e.ds, page, from, to, e.activation);
    var t := EveryRecordCovered(e.ds, Refs(page.blocks), from, e.activation, Events(e.ds, page, e.activation).value, r);
    RefsContiguous(page, from, to);
    var k := EventNumber(r.event.value) - from;
    CoveredIsHighest(e.ds, page.blocks, from, e.activation, |page.blocks|, k);
    assert page.blocks[..|page.blocks|] == page.blocks;
  }

  lemma PageRecordsOk(e: Engine, page: Page, from: u64, to: u64)
    requires PageOk(page, from, to) && Events(e.ds, page, e.activation).Ok?
    ensures RecordsReadable(PageRecords(e, page)) && Ordering.Pairwise(PairOk, PageRecords(e, page))
  {
    hide PageOk, Events, RecordsOf, CoveredHead, RecordsReadable, PageRecords, AllName, Ordering.Pairwise, AllGood;
    RecordsWithHead(e, page, from, to);
    PageNormalizes(e.ds, page, from, to, e.activation);
    RecordPairs(e.ds, Events(e.ds, page, e.activation).value, e.activation);
    PageAllName(e, page, from, to);
    NamedFunctional(e, page, from, to, PageRecords(e, page));
  }

  // ----- Progress of a prepared page -----

  lemma IdsDiffer(revision: u64, nextBlock: u64, other: u64)
    ensures ProgressId(revision, nextBlock) != ActivationId(other)
  {
    assert ProgressId(revision, nextBlock)[0] == 's' && ActivationId(other)[0] == 'd';
  }

  /** The delivery of a round under some sequence number. */
  predicate Carries(p: Prepared, d: Delivery) {
    && p.delivery.cursor.Some? && d.cursor.Some? && SameCursor(p.delivery.cursor, d.cursor.value)
    && d.payload == p.delivery.payload && d.queryRevision == p.delivery.queryRevision
  }

  /** What the store reads off a round's delivery. */
  ghost predicate Reads(base: Engine, page: Page, d: Delivery)
    requires Events(base.ds, page, base.activation).Ok?
  {
    var covered, rs := CoveredHead(base.ds, page.blocks, base.activation), PageRecords(base, page);
    && d.cursor.Some? && d.queryRevision == base.ds.newRevision && d.cursor.value.nextBlock == page.nextBlock
    && d.cursor.value.canonicalHead == OrElse(covered, base.coverage) && d.cursor.value.activationBoundary == base.ownerActivation
    && d.payload == Some(if rs == [] then Barrier(ProgressId(base.ds.newRevision, page.nextBlock), None) else Data(rs))
    && (covered.Some? ==> rs != [] && covered.value.number < page.nextBlock)
    && RecordsReadable(rs) && Ascending(ExplicitBlocks(rs))
    && (if covered.Some? then Last(ExplicitBlocks(rs)) == covered else ExplicitBlocks(rs) == [] && AllOwnerCatchup(rs))
  }

  lemma CoveredBelowNext(e: Engine, page: Page, from: u64, to: u64)
    requires PageOk(page, from, to) && CoveredHead(e.ds, page.blocks, e.activation).Some?
    ensures CoveredHead(e.ds, page.blocks, e.activation).value.number < page.nextBlock
  {
    var k := CoveredHeadIsRow(e.ds, page, from, to, e.activation);
    RefsContiguous(page, from, to);
  }

  lemma RoundReads(base: Engine, r: Round, d: Delivery)
    requires EngineOk(base) && Prepares(base, r) && Carries(r.prepared, d)
    ensures Events(base.ds, r.page, base.activation).Ok? && Reads(base, r.page, d)
  {
    hide Prepare, PageOk, EngineOk, Events, RecordsOf, CoveredHead, PageRecords, ExplicitBlocks, Ascending, AllOwnerCatchup, RecordsReadable, ProgressId, SourceCheckpoint.Encode, PairOk;
    var page, from, to := r.page, r.from, r.to;
    PreparedShape(base, page, from, to, base.sequence + 1, r.anchor);
    PreparedCursor(base, page, base.sequence + 1, r.anchor, r.prepared);
    PageRecordsOk(base, page, from, to);
    RecordsWithHead(base, page, from, to);
    var rs := PageRecords(base, page);
    RecordsAscend(rs);
    if CoveredHead(base.ds, page.blocks, base.activation).Some? {
      DeclaresHead(base, page, from, to, rs);
      CoveredBelowNext(base, page, from, to);
    } else {
      DeclaresNothing(base, page, from, to, rs);
    }
  }

  /** The acknowledged cursor a round's delivery follows. */
  predicate Succeeds(c: Cursor, base: Engine, page: Page) {
    && c.queryRevision == base.ds.newRevision && c.activationBoundary == base.ownerActivation
    && (c.canonicalHead == base.coverage || CoveredHead(base.ds, page.blocks, base.activation).Some?)
  }

  /** The page goes on from the cursor, and its head from the cursor's head. */
  predicate GoesOn(c: Cursor, base: Engine, page: Page) {
    page.nextBlock >= c.nextBlock && !HeadRegresses(c.canonicalHead, OrElse(CoveredHead(base.ds, page.blocks, base.activation), base.coverage))
  }

  /** A round's delivery may follow the cursor exactly when its page goes on. */
  lemma ProgressIff(base: Engine, page: Page, c: Cursor, d: Delivery)
    requires Events(base.ds, page, base.activation).Ok? && Reads(base, page, d) && Succeeds(c, base, page)
    requires d.cursor.value.queryRevision == base.ds.newRevision
    ensures ProgressOk(Some(c), base.ds, d) <==> GoesOn(c, base, page)
  {
    IdsDiffer(base.ds.newRevision, page.nextBlock, base.ds.newRevision);
    hide Events, CoveredHead, PageRecords, ExplicitBlocks, Ascending, RecordsReadable, ProgressId, ActivationId, HasOpenBackfill;
  }

  // ----- What the store saves -----

  ghost predicate Saves(o: Oracle, rows: S.Rows, ds: DesiredState, d: Delivery) {
    S.Save(o, rows, ds, d).Ok?
  }

  /** The delivery is addressed to the session and numbered for the row. */
  predicate Numbered(row: S.Row, ds: DesiredState, d: Delivery) {
    && S.AddressedTo(ds, d) && d.payload.Some? && d.sequence == d.cursor.value.batchSequence && d.token == Token(d.sequence)
    && S.NextSequence(row.acked) == Some(d.sequence)
  }

  lemma SaveWhen(o: Oracle, rows: S.Rows, ds: DesiredState, d: Delivery)
    requires S.KeyOf(ds) in rows
    requires var row := rows[S.KeyOf(ds)];
             S.RowValid(o, S.KeyOf(ds), row) && row.desired == Some(ds) && row.pending.None? && Numbered(row, ds, d)
    ensures var row := rows[S.KeyOf(ds)];
            Saves(o, rows, ds, d) <==>
              && o.frameLen(d) <= MAX_MESSAGE_SIZE_BYTES && PayloadOk(o, ds, d) && ProgressOk(row.acked, ds, d)
              && (row.promise.Some? ==> Certifies(d, row.promise.value))
    ensures Saves(o, rows, ds, d) ==> S.Save(o, rows, ds, d).value.rows == rows[S.KeyOf(ds) := rows[S.KeyOf(ds)].(pending := Some(d))]
  {
    hide S.RowValid, PayloadOk, ProgressOk, Certifies, Token;
  }

  /** Acknowledging the saved delivery commits its cursor. */
  lemma AckWhen(o: Oracle, rows: S.Rows, ds: DesiredState, d: Delivery)
    requires S.StoreInv(o, rows) && S.KeyOf(ds) in rows && rows[S.KeyOf(ds)].pending == Some(d)
    ensures var key := S.KeyOf(ds);
            var r := S.Ack(o, rows, ds.chainId, Acknowledge(ds.sessionId, d.sequence, d.token));
            && d.cursor.Some? && r.Ok? && r.value.rows == rows[key := S.AckedRow(rows[key], d, d.cursor.value)]
  {
    hide S.StoreInv, S.AckedRow, S.Ack;
    S.AckEffect(o, rows, ds.chainId, Acknowledge(ds.sessionId, d.sequence, d.token), S.KeyOf(ds));
  }

  // ----- Engine and row at one position -----

  /** The row's acknowledged cursor is the engine's committed position. */
  predicate AtCursor(base: Engine, row: S.Row) {
    && row.desired == Some(base.ds) && row.pending.None? && row.promise.None? && row.acked.Some?
    && var c := row.acked.value;
    && c.nextBlock == base.nextBlock && c.canonicalHead == base.coverage && c.batchSequence == base.sequence
    && c.queryRevision == base.ds.newRevision && c.activationBoundary == base.ownerActivation
  }

  /** Between a control and its replacement the row holds the control's cursor and
      the promise of the new tip. */
  ghost predicate RowAt(base: Engine, ph: Phase, row: S.Row) {
    if ph.Controlled? then
      && Replaces(base, ph.round.prepared)
      && row.desired == Some(base.ds) && row.pending.None?
      && row.acked == Control(base, ph.round.prepared).cursor && row.promise == Some(ph.round.prepared.reorg.value.newTip)
    else AtCursor(base, row)
  }

  /** A canonical tip is covered, and no canonical height is left behind. */
  ghost predicate Abreast(base: Engine) {
    && (base.history != [] && CanonicalAt(base.ds, base.history[|base.history| - 1].number, base.activation) ==>
          base.coverage == Some(base.history[|base.history| - 1]))
    && (base.coverage.Some? ==>
          forall n: u64 :: base.nextBlock <= n <= base.coverage.value.number ==> !CanonicalAt(base.ds, n, base.activation))
  }

  datatype Link = Link(engine: Engine, rows: S.Rows)

  ghost predicate Linked(o: Oracle, s: Link, base: Engine, ph: Phase) {
    && S.StoreInv(o, s.rows) && S.KeyOf(base.ds) in s.rows
    && EngineOk(s.engine) && Explains(s.engine, base, ph) && Abreast(base)
    && RowAt(base, ph, s.rows[S.KeyOf(base.ds)])
  }

  lemma PreparedAddressed(base: Engine, r: Round)
    requires Prepares(base, r)
    ensures var d := r.prepared.delivery;
            && S.AddressedTo(base.ds, d) && d.payload.Some? && d.sequence == base.sequence + 1
            && d.cursor.value.batchSequence == d.sequence && d.token == Token(d.sequence)
  {
    hide Prepare, PageOk, Events, RecordsOf, CoveredHead, WithHead, ProgressId, SourceCheckpoint.Encode, Token, Ordering.StableSort, EncodedGuard;
    var checkpoint := PreparedIs(base, r.page, base.sequence + 1, r.anchor);
  }

  lemma RowDesired(o: Oracle, rows: S.Rows, key: S.SessionKey, ds: DesiredState)
    requires S.StoreInv(o, rows) && key in rows && rows[key].desired == Some(ds)
    ensures DesiredStateOk(ds) && S.RowValid(o, key, rows[key])
  {
    assert S.RowInv(o, key, rows[key]);
    hide S.PendingOk;
  }

  /** A data page is saved exactly when its frame fits, its headers match and it
      goes on. */
  lemma DataSaved(o: Oracle, rows: S.Rows, base: Engine, r: Round)
    requires S.StoreInv(o, rows) && S.KeyOf(base.ds) in rows && AtCursor(base, rows[S.KeyOf(base.ds)])
    requires Ready(base) && Prepares(base, r)
    ensures var d := r.prepared.delivery;
            && (Saves(o, rows, base.ds, d) <==>
                  o.frameLen(d) <= MAX_MESSAGE_SIZE_BYTES && HeadersMatch(o, base.ds, r.page.blocks, base.activation)
                  && GoesOn(rows[S.KeyOf(base.ds)].acked.value, base, r.page))
            && (Saves(o, rows, base.ds, d) ==>
                  S.Save(o, rows, base.ds, d).value.rows == rows[S.KeyOf(base.ds) := rows[S.KeyOf(base.ds)].(pending := Some(d))])
  {
    hide S.StoreInv, S.RowValid, Prepare, PageOk, EngineOk, Steady, PayloadOk, ProgressOk, Certifies, GoesOn, Reads, Saves, Token, Events, CoveredHead, DesiredStateOk, S.Save;
    var d, key := r.prepared.delivery, S.KeyOf(base.ds);
    RowDesired(o, rows, key, base.ds);
    PreparedAddressed(base, r);
    RoundReads(base, r, d);
    ProgressIff(base, r.page, rows[key].acked.value, d);
    PreparedAccepted(o, base, r.page, r.from, r.to, base.sequence + 1, r.anchor);
    SaveWhen(o, rows, base.ds, d);
  }

  // ----- Controls and replacements -----

  lemma ControlAddressed(base: Engine, p: Prepared)
    requires Replaces(base, p)
    ensures var d := Control(base, p); var delta := p.reorg.value;
            && S.AddressedTo(base.ds, d) && d.sequence == base.sequence + 1
            && d.cursor.value.batchSequence == d.sequence && d.token == Token(d.sequence)
            && d.payload == Some(Reorg(Some(delta.commonAncestor), Some(delta.oldTip), Some(delta.newTip)))
            && d.cursor.value.nextBlock == delta.commonAncestor.number + 1 && d.cursor.value.canonicalHead == Some(delta.commonAncestor)
            && d.cursor.value.activationBoundary == base.ownerActivation
  {
    hide SourceCheckpoint.Encode, UpTo, Token, GuardAt, CanonicalAt;
  }

  /** A control may follow the cursor exactly when it takes back its head. */
  lemma ControlProgress(base: Engine, c: Cursor, d: Delivery, delta: ReorgDelta)
    requires c.queryRevision == base.ds.newRevision && c.activationBoundary == base.ownerActivation
    requires d.payload == Some(Reorg(Some(delta.commonAncestor), Some(delta.oldTip), Some(delta.newTip))) && d.cursor.Some?
    requires d.cursor.value.nextBlock == delta.commonAncestor.number + 1 && d.cursor.value.canonicalHead == Some(delta.commonAncestor)
    requires d.cursor.value.activationBoundary == base.ownerActivation
    requires delta.commonAncestor.number < delta.oldTip.number && delta.commonAncestor.number < delta.newTip.number
    ensures ProgressOk(Some(c), base.ds, d) <==> c.canonicalHead == Some(delta.oldTip)
  {
    hide HasOpenBackfill, ActivationId, ProgressId, ExplicitBlocks, RecordsReadable;
  }

  lemma DeltaHeights(base: Engine, r: Round)
    requires Ready(base) && Prepares(base, r) && r.prepared.reorg.Some?
    ensures base.history != []
    ensures var delta := r.prepared.reorg.value;
            && delta.commonAncestor.number < delta.oldTip.number && delta.commonAncestor.number < delta.newTip.number
            && delta.oldTip == base.history[|base.history| - 1]
            && AllFieldsOk(r.page.blocks) && r.page.blocks != [] && delta.newTip == LastRow(r.page)
            && LastRow(r.page).number + 1 == r.page.nextBlock
  {
    hide Prepare, PageOk, EngineOk, Steady, LastRow;
    PreparedReorg(base, r.page, r.from, r.to, base.sequence + 1, r.anchor);
    PreparedDelta(base, r.page, base.sequence + 1, r.anchor);
    LastRowIs(r.page, r.from, r.to);
  }

  /** A control is saved exactly when its frame fits and its blocks can be told
      apart: being covered, the displaced tip is the head it takes back. */
  lemma ControlSaved(o: Oracle, rows: S.Rows, base: Engine, r: Round)
    requires S.StoreInv(o, rows) && S.KeyOf(base.ds) in rows && AtCursor(base, rows[S.KeyOf(base.ds)])
    requires Ready(base) && Prepares(base, r) && Replaces(base, r.prepared) && Abreast(base)
    ensures var d := Control(base, r.prepared);
            && (Saves(o, rows, base.ds, d) <==> o.frameLen(d) <= MAX_MESSAGE_SIZE_BYTES && Distinguishable(r.prepared.reorg.value))
            && (Saves(o, rows, base.ds, d) ==>
                  S.Save(o, rows, base.ds, d).value.rows == rows[S.KeyOf(base.ds) := rows[S.KeyOf(base.ds)].(pending := Some(d))])
  {
    hide S.StoreInv, S.RowValid, Prepare, PageOk, EngineOk, Steady, PayloadOk, ProgressOk, Certifies, Saves, Token, S.Save, ReorgControl, Renumber, Distinguishable, ReorgShapeOk, DesiredStateOk, CanonicalAt;
    var d, key, delta := Control(base, r.prepared), S.KeyOf(base.ds), r.prepared.reorg.value;
    RowDesired(o, rows, key, base.ds);
    ControlAddressed(base, r.prepared);
    DeltaHeights(base, r);
    PreparedDelta(base, r.page, base.sequence + 1, r.anchor);
    ControlPayload(o, base, base.sequence + 1, delta);
    ControlProgress(base, rows[key].acked.value, d, delta);
    SaveWhen(o, rows, base.ds, d);
  }

  lemma ReplacementCarries(base: Engine, r: Round)
    requires Prepares(base, r) && Replaces(base, r.prepared)
    ensures var d := Replacement(base, r.prepared);
            && Carries(r.prepared, d) && S.AddressedTo(base.ds, d) && d.payload.Some? && d.sequence == base.sequence + 2
            && d.cursor.value.batchSequence == d.sequence && d.token == Token(d.sequence)
  {
    hide Prepare, PageOk, ReorgControl, Token, CanonicalAt;
    PreparedAddressed(base, r);
  }

  /** The replacement goes on from the ancestor when its tip is canonical. */
  lemma ReplacementGoesOn(base: Engine, r: Round, c: Cursor)
    requires Ready(base) && Prepares(base, r) && Replaces(base, r.prepared) && c == Control(base, r.prepared).cursor.value
    requires CanonicalAt(base.ds, r.prepared.reorg.value.newTip.number, base.activation)
    ensures Succeeds(c, base, r.page) && GoesOn(c, base, r.page)
  {
    hide Prepare, PageOk, EngineOk, Steady, ReorgControl, Renumber, LastRow, CanonicalAt, CoveredHead, Token;
    DeltaHeights(base, r);
    ControlAddressed(base, r.prepared);
    HeadIsLastRow(base.ds, r.page, r.from, r.to, base.activation);
  }

  lemma ReplacementCertifies(base: Engine, r: Round)
    requires Ready(base) && Prepares(base, r) && Replaces(base, r.prepared)
    ensures Certifies(Replacement(base, r.prepared), r.prepared.reorg.value.newTip) <==>
            CanonicalAt(base.ds, r.prepared.reorg.value.newTip.number, base.activation)
  {
    hide Prepare, PageOk, EngineOk, Steady, ReorgControl, Renumber, LastRow, CanonicalAt, Certifies;
    DeltaHeights(base, r);
    CertifiesIff(base, r.page, r.from, r.to, base.sequence + 1, r.anchor);
    RenumberKeepsMeaning(r.prepared.delivery, base.sequence + 2, r.prepared.reorg.value.newTip);
  }

  /** A replacement is saved exactly when its frame fits, its headers match and its
      tip is canonical for every audience. */
  lemma ReplacementSaved(o: Oracle, rows: S.Rows, base: Engine, r: Round)
    requires S.StoreInv(o, rows) && S.KeyOf(base.ds) in rows && RowAt(base, Controlled(r), rows[S.KeyOf(base.ds)])
    requires Ready(base) && Prepares(base, r)
    ensures var d := Replacement(base, r.prepared);
            && (Saves(o, rows, base.ds, d) <==>
                  o.frameLen(d) <= MAX_MESSAGE_SIZE_BYTES && HeadersMatch(o, base.ds, r.page.blocks, base.activation)
                  && CanonicalAt(base.ds, r.prepared.reorg.value.newTip.number, base.activation))
            && (Saves(o, rows, base.ds, d) ==>
                  S.Save(o, rows, base.ds, d).value.rows == rows[S.KeyOf(base.ds) := rows[S.KeyOf(base.ds)].(pending := Some(d))])
  {
    hide S.StoreInv, S.RowValid, Prepare, PageOk, EngineOk, Steady, PayloadOk, ProgressOk, Certifies, GoesOn, Succeeds, Reads, Saves, Token, S.Save, ReorgControl, Renumber, DesiredStateOk, CanonicalAt, Events, CoveredHead;
    var d, key := Replacement(base, r.prepared), S.KeyOf(base.ds);
    RowDesired(o, rows, key, base.ds);
    ControlAddressed(base, r.prepared);
    ReplacementCarries(base, r);
    ReplacementCertifies(base, r);
    PreparedAccepted(o, base, r.page, r.from, r.to, base.sequence + 1, r.anchor);
    RenumberKeepsPayload(o, base.ds, r.prepared.delivery, base.sequence + 2);
    SaveWhen(o, rows, base.ds, d);
    if CanonicalAt(base.ds, r.prepared.reorg.value.newTip.number, base.activation) {
      RoundReads(base, r, d);
      ReplacementGoesOn(base, r, rows[key].acked.value);
      ProgressIff(base, r.page, rows[key].acked.value, d);
    }
  }

  // ----- One delivery through both -----

  /** Saves what is in flight, acknowledges it in the store, then to the engine;
      a refused call leaves the rest alone. */
  ghost function Deliver(o: Oracle, s: Link): (t: Link)
    requires EngineOk(s.engine) && s.engine.pending.Some?
    ensures EngineOk(t.engine)
  {
    var ds, d := s.engine.ds, s.engine.pending.value.delivery;
    var saved := S.Save(o, s.rows, ds, d);
    if saved.Err? then s
    else
      var acked := S.Ack(o, saved.value.rows, ds.chainId, Acknowledge(ds.sessionId, d.sequence, d.token));
      if acked.Err? then s.(rows := saved.value.rows) else Link(Next(s.engine, Acked(d.token)), acked.value.rows)
  }

  ghost function Exchange(o: Oracle, s: Link, env: Env, to: u64): (t: Link)
    requires EngineOk(s.engine)
    ensures EngineOk(t.engine)
  {
    var polled := Next(s.engine, Poll(env, to));
    if polled.pending.None? then Link(polled, s.rows) else Deliver(o, Link(polled, s.rows))
  }

  function RowAfter(row: S.Row, d: Delivery, promise: Option<BlockRef>): S.Row
    requires d.cursor.Some?
  {
    row.(acked := d.cursor, runtime := if d.checkpointNeutral then row.runtime else d.cursor, pending := None, promise := promise)
  }

  lemma Delivered(o: Oracle, s: Link, d: Delivery)
    requires EngineOk(s.engine) && s.engine.pending.Some? && s.engine.pending.value.delivery == d
    requires S.StoreInv(o, s.rows) && S.KeyOf(s.engine.ds) in s.rows && Saves(o, s.rows, s.engine.ds, d)
    requires S.Save(o, s.rows, s.engine.ds, d).value.rows == s.rows[S.KeyOf(s.engine.ds) := s.rows[S.KeyOf(s.engine.ds)].(pending := Some(d))]
    ensures d.cursor.Some?
    ensures var key := S.KeyOf(s.engine.ds); var t := Deliver(o, s);
            && t.engine == Next(s.engine, Acked(d.token)) && S.StoreInv(o, t.rows)
            && t.rows == s.rows[key := RowAfter(s.rows[key], d, PromiseAfterAck(s.rows[key].promise, d))]
  {
    hide EngineOk, Next, S.Save, S.StoreInv, PromiseAfterAck, S.Ack;
    var ds, key := s.engine.ds, S.KeyOf(s.engine.ds);
    var saved := S.Save(o, s.rows, ds, d).value.rows;
    S.SaveKeepsStore(o, s.rows, ds, d);
    AckWhen(o, saved, ds, d);
    S.AckKeepsStore(o, saved, ds.chainId, Acknowledge(ds.sessionId, d.sequence, d.token));
  }

  /** After an acknowledged page the engine is abreast of its coverage again. */
  lemma AfterAbreast(base: Engine, r: Round, d: Delivery)
    requires Ready(base) && Prepares(base, r) && Abreast(base) && Lands(base, r.page, r.prepared)
    requires Carries(r.prepared, d)
    requires CoveredHead(base.ds, r.page.blocks, base.activation).Some? || r.page.nextBlock >= base.nextBlock
    ensures Abreast(After(base, r.prepared.(delivery := d)))
  {
    hide Prepare, PageOk, EngineOk, DesiredStateOk, Events, CoveredHead, PageRecords, ExplicitBlocks, Ascending, RecordsReadable, ProgressId, CanonicalAt, Lands, LastRow, Retained;
    PreparedTip(base, r.page, r.from, r.to, base.sequence + 1, r.anchor, r.prepared);
    LastRowIs(r.page, r.from, r.to);
    RoundReads(base, r, d);
    if CanonicalAt(base.ds, LastRow(r.page).number, base.activation) { HeadIsLastRow(base.ds, r.page, r.from, r.to, base.activation); }
  }

  lemma AfterAtCursor(base: Engine, r: Round, d: Delivery, row: S.Row)
    requires Ready(base) && Prepares(base, r) && Carries(r.prepared, d)
    requires S.AddressedTo(base.ds, d) && d.cursor.value.batchSequence == d.sequence && row.desired == Some(base.ds)
    ensures AtCursor(After(base, r.prepared.(delivery := d)), RowAfter(row, d, None))
  {
    hide Prepare, PageOk, EngineOk, Steady, DesiredStateOk, Events, CoveredHead, PageRecords, ExplicitBlocks, Ascending, RecordsReadable, ProgressId;
    RoundReads(base, r, d);
  }

  /** A page that goes on lands. */
  lemma GoesOnLands(base: Engine, r: Round, row: S.Row)
    requires AtCursor(base, row) && GoesOn(row.acked.value, base, r.page)
    ensures Lands(base, r.page, r.prepared) && r.page.nextBlock >= base.nextBlock
  {
    hide CoveredHead, HeadRegresses;
  }

  lemma NotReorgKeepsNone(base: Engine, r: Round)
    requires Prepares(base, r)
    ensures PromiseAfterAck(None, r.prepared.delivery).None?
  {
    hide Prepare, PageOk, Certifies, Events, PageRecords, CoveredHead, ProgressId;
    PreparedShape(base, r.page, r.from, r.to, base.sequence + 1, r.anchor);
  }

  lemma SelfCarries(base: Engine, r: Round)
    requires Prepares(base, r)
    ensures Carries(r.prepared, r.prepared.delivery)
  {
    hide Prepare, PageOk;
    PreparedNext(base, r.page, r.from, r.to, base.sequence + 1, r.anchor);
  }

  /** The engine rests again, at the position of the row. */
  ghost predicate Rests(o: Oracle, s: Link, base: Engine) {
    Linked(o, s, base, Resting) && s.engine == base
  }

  lemma RestsAt(o: Oracle, t: Link, base: Engine)
    requires S.StoreInv(o, t.rows) && S.KeyOf(base.ds) in t.rows
    requires t.engine == base && Ready(base) && Abreast(base) && AtCursor(base, t.rows[S.KeyOf(base.ds)])
    ensures Rests(o, t, base)
  {
    hide S.StoreInv, EngineOk, Steady, Abreast, AtCursor;
  }

  /** The token in flight always commits. */
  lemma AcksInFlight(live: Engine, base: Engine, ph: Phase)
    requires Explains(live, base, ph) && !ph.Resting? && EngineOk(live)
    ensures live.pending.Some? && live.pending.value.delivery.cursor.Some?
    ensures Commit(live, live.pending.value.delivery.token).Ok?
    ensures Next(live, Acked(live.pending.value.delivery.token)) == Commit(live, live.pending.value.delivery.token).value
  {
    hide EngineOk, Steady, Prepare, PageOk, SourceCheckpoint.Encode, UpTo, Token, GuardAt, CanonicalAt;
    var r := ph.round;
    PreparedNext(base, r.page, r.from, r.to, base.sequence + 1, r.anchor);
  }

  lemma DataDelivered(o: Oracle, s: Link, base: Engine, r: Round) returns (base': Engine)
    requires Linked(o, s, base, Sent(r)) && r.prepared.reorg.None? && Saves(o, s.rows, base.ds, r.prepared.delivery)
    ensures s.engine.pending.Some? && s.engine.ds == base.ds && Rests(o, Deliver(o, s), base') && base'.ds == base.ds
  {
    hide S.StoreInv, EngineOk, Steady, Abreast, Prepares, DesiredStateOk, GoesOn, Lands, S.Save, Saves, Next, Commit, Deliver, PromiseAfterAck, S.AddressedTo, Token, Carries;
    var key, d := S.KeyOf(base.ds), r.prepared.delivery;
    var row := s.rows[key];
    RowDesired(o, s.rows, key, base.ds);
    DataSaved(o, s.rows, base, r);
    AcksInFlight(s.engine, base, Sent(r));
    CommitIs(s.engine, base, Sent(r), d.token);
    Delivered(o, s, d);
    GoesOnLands(base, r, row);
    SelfCarries(base, r);
    PreparedAddressed(base, r);
    NotReorgKeepsNone(base, r);
    base' := After(base, r.prepared.(delivery := d));
    AfterIsReady(base, r, d);
    AfterAbreast(base, r, d);
    AfterAtCursor(base, r, d, row);
    RestsAt(o, Deliver(o, s), base');
  }

  lemma ControlDelivered(o: Oracle, s: Link, base: Engine, r: Round)
    requires Linked(o, s, base, Sent(r)) && r.prepared.reorg.Some? && Replaces(base, r.prepared) && Saves(o, s.rows, base.ds, Control(base, r.prepared))
    ensures s.engine.pending.Some? && s.engine.ds == base.ds && Linked(o, Deliver(o, s), base, Controlled(r))
  {
    hide S.StoreInv, EngineOk, Steady, Abreast, Prepares, DesiredStateOk, S.Save, Saves, Next, Commit, Deliver, Certifies, S.AddressedTo, Token, Distinguishable, ReorgControl, Renumber;
    var d := Control(base, r.prepared);
    ControlSaved(o, s.rows, base, r);
    AcksInFlight(s.engine, base, Sent(r));
    CommitIs(s.engine, base, Sent(r), d.token);
    Delivered(o, s, d);
    ControlAddressed(base, r.prepared);
    ControlledService(Deliver(o, s).engine, base, r);
  }

  lemma ReplacementDelivered(o: Oracle, s: Link, base: Engine, r: Round) returns (base': Engine)
    requires Linked(o, s, base, Controlled(r)) && Saves(o, s.rows, base.ds, Replacement(base, r.prepared))
    ensures s.engine.pending.Some? && s.engine.ds == base.ds && Rests(o, Deliver(o, s), base') && base'.ds == base.ds
  {
    hide S.StoreInv, EngineOk, Steady, Abreast, Prepares, DesiredStateOk, GoesOn, Succeeds, S.Save, Saves, Next, Commit, Deliver, Certifies, S.AddressedTo, Token, Carries, ReorgControl, Renumber, CanonicalAt, CoveredHead, LastRow;
    var key, d := S.KeyOf(base.ds), Replacement(base, r.prepared);
    var row := s.rows[key];
    RowDesired(o, s.rows, key, base.ds);
    ReplacementSaved(o, s.rows, base, r);
    AcksInFlight(s.engine, base, Controlled(r));
    CommitIs(s.engine, base, Controlled(r), d.token);
    Delivered(o, s, d);
    ReplacementCarries(base, r);
    ReplacementCertifies(base, r);
    FulfilsPromise(base, r);
    ReplacementCovers(base, r);
    base' := After(base, r.prepared.(delivery := d));
    CarriedCursor(r.prepared, d);
    AfterIsReady(base, r, d);
    AfterAbreast(base, r, d);
    AfterAtCursor(base, r, d, row);
    RestsAt(o, Deliver(o, s), base');
  }

  lemma CarriedCursor(p: Prepared, d: Delivery)
    requires Carries(p, d)
    ensures d.cursor.Some? && SameCursor(p.delivery.cursor, d.cursor.value)
  {
  }

  lemma ReplacementCovers(base: Engine, r: Round)
    requires Ready(base) && Prepares(base, r) && Replaces(base, r.prepared)
    requires CanonicalAt(base.ds, r.prepared.reorg.value.newTip.number, base.activation)
    ensures CoveredHead(base.ds, r.page.blocks, base.activation).Some?
  {
    hide Prepare, PageOk, EngineOk, Steady, ReorgControl, Renumber, LastRow, CanonicalAt, CoveredHead;
    DeltaHeights(base, r);
    HeadIsLastRow(base.ds, r.page, r.from, r.to, base.activation);
  }

  lemma FulfilsPromise(base: Engine, r: Round)
    requires Ready(base) && Prepares(base, r) && Replaces(base, r.prepared)
    requires Certifies(Replacement(base, r.prepared), r.prepared.reorg.value.newTip)
    ensures PromiseAfterAck(Some(r.prepared.reorg.value.newTip), Replacement(base, r.prepared)).None?
  {
    hide Prepare, PageOk, EngineOk, Steady, ReorgControl, CanonicalAt, Certifies, Token;
    NotAReorg(base, r.page, r.from, r.to, base.sequence + 1, r.anchor, base.sequence + 2);
  }

  // ----- Exactly what is refused -----

  /** What the store asks of the delivery in flight, besides a frame that fits. */
  ghost predicate Welcome(o: Oracle, base: Engine, ph: Phase, c: Cursor)
    requires !ph.Resting?
  {
    var p, page := ph.round.prepared, ph.round.page;
    if ph.Sent? && p.reorg.Some? then Distinguishable(p.reorg.value)
    else
      && HeadersMatch(o, base.ds, page.blocks, base.activation)
      && (if ph.Controlled? then p.reorg.Some? && CanonicalAt(base.ds, p.reorg.value.newTip.number, base.activation) else GoesOn(c, base, page))
  }

  /** The store saves the delivery in flight if and only if its frame fits and: a
      page has matching headers and goes on from the cursor; a control's blocks can
      be told apart; a replacement has matching headers and ends in a block
      canonical for every audience. */
  lemma SavedIff(o: Oracle, s: Link, base: Engine, ph: Phase)
    requires Linked(o, s, base, ph) && !ph.Resting?
    ensures s.engine.pending.Some? && s.rows[S.KeyOf(base.ds)].acked.Some?
    ensures var d := s.engine.pending.value.delivery;
            Saves(o, s.rows, base.ds, d) <==>
              o.frameLen(d) <= MAX_MESSAGE_SIZE_BYTES && Welcome(o, base, ph, s.rows[S.KeyOf(base.ds)].acked.value)
  {
    hide S.StoreInv, EngineOk, Steady, Abreast, Prepares, GoesOn, S.Save, Saves, Distinguishable, ReorgControl, Renumber, CanonicalAt, Token;
    var r := ph.round;
    if ph.Controlled? {
      ControlAddressed(base, r.prepared);
      ReplacementSaved(o, s.rows, base, r);
    } else if r.prepared.reorg.Some? {
      ControlSaved(o, s.rows, base, r);
    } else {
      DataSaved(o, s.rows, base, r);
    }
  }

  /** A page fetched at the cursor always goes on. */
  lemma PageAtCursorGoesOn(base: Engine, r: Round, row: S.Row)
    requires Ready(base) && Prepares(base, r) && Abreast(base) && AtCursor(base, row) && r.from == base.nextBlock
    ensures GoesOn(row.acked.value, base, r.page)
  {
    hide Prepare, EngineOk, Steady, CanonicalAt, CoveredHead;
    if CoveredHead(base.ds, r.page.blocks, base.activation).Some? {
      var k := CoveredHeadIsRow(base.ds, r.page, r.from, r.to, base.activation);
      RefsContiguous(r.page, r.from, r.to);
    }
  }

  // ----- Whole runs -----

  /** Either the delivery in flight is refused and nothing changes, or both sides
      move on together. */
  lemma DeliverKeeps(o: Oracle, s: Link, base: Engine, ph: Phase) returns (base': Engine, ph': Phase)
    requires Linked(o, s, base, ph) && !ph.Resting?
    ensures s.engine.pending.Some? && Linked(o, Deliver(o, s), base', ph') && base'.ds == base.ds
  {
    hide S.StoreInv, EngineOk, Steady, Abreast, Prepares, Next, S.Ack, S.Save, RowAt, SameService, ReorgControl, Renumber, CanonicalAt, Rests;
    SavedIff(o, s, base, ph);
    base', ph' := base, ph;
    if Saves(o, s.rows, base.ds, s.engine.pending.value.delivery) {
      hide Deliver, Saves;
      base', ph' := DeliverSaved(o, s, base, ph);
    } else {
      LinkedService(o, s, base, ph);
    }
  }

  lemma LinkedService(o: Oracle, s: Link, base: Engine, ph: Phase)
    requires Linked(o, s, base, ph)
    ensures s.engine.ds == base.ds
  {
  }

  lemma DeliverSaved(o: Oracle, s: Link, base: Engine, ph: Phase) returns (base': Engine, ph': Phase)
    requires Linked(o, s, base, ph) && !ph.Resting? && s.engine.pending.Some?
    requires Saves(o, s.rows, base.ds, s.engine.pending.value.delivery)
    ensures Linked(o, Deliver(o, s), base', ph') && base'.ds == base.ds
  {
    var r := ph.round;
    base', ph' := base, ph;
    hide S.StoreInv, EngineOk, Steady, Abreast, Prepares, Next, Saves, RowAt, Deliver, ReorgControl, Renumber, CanonicalAt;
    if ph.Controlled? {
      base' := ReplacementDelivered(o, s, base, r);
      ph' := Resting;
    } else if r.prepared.reorg.Some? {
      ControlDelivered(o, s, base, r);
      ph' := Controlled(r);
    } else {
      base' := DataDelivered(o, s, base, r);
      ph' := Resting;
    }
  }

  /** One exchange keeps engine and store at the same position. */
  lemma ExchangeKeeps(o: Oracle, s: Link, base: Engine, ph: Phase, env: Env, to: u64) returns (base': Engine, ph': Phase)
    requires Linked(o, s, base, ph)
    ensures EngineOk(s.engine) && Linked(o, Exchange(o, s, env, to), base', ph') && base'.ds == base.ds
  {
    hide S.StoreInv, EngineOk, Abreast, Next, Deliver, AtCursor, Ready, InPhase;
    ph' := PollStep(s.engine, base, ph, env, to);
    base' := base;
    var polled := Link(Next(s.engine, Poll(env, to)), s.rows);
    assert Linked(o, polled, base, ph');
    PhaseOf(polled.engine, base, ph');
    if polled.engine.pending.Some? { base', ph' := DeliverKeeps(o, polled, base, ph'); }
  }

  /** Nothing is in flight exactly at rest. */
  lemma PhaseOf(live: Engine, base: Engine, ph: Phase)
    requires Explains(live, base, ph)
    ensures live.pending.None? <==> ph.Resting?
  {
    hide EngineOk, Steady, Prepares, Replaces;
  }

  /** The engine built for a row whose activation is acknowledged and that covers
      nothing yet. */
  function Activated(ds: DesiredState, c: Cursor, activation: u64, depth: nat): Engine {
    Engine(ds, c.nextBlock, c.batchSequence, activation, Some(activation), None, [], depth, None, MAX_DELIVERY_SIZE_BYTES, DEFAULT_LIMITS, None, None)
  }

  /** Every activated row starts such a run. */
  lemma StartsLinked(o: Oracle, rows: S.Rows, ds: DesiredState, c: Cursor, activation: u64, depth: nat)
    requires S.StoreInv(o, rows) && S.KeyOf(ds) in rows && depth >= 1
    requires var row := rows[S.KeyOf(ds)];
             row.desired == Some(ds) && row.pending.None? && row.promise.None? && row.acked == Some(c)
    requires c.queryRevision == ds.newRevision && c.canonicalHead.None? && c.activationBoundary == Some(activation)
    ensures var e := Activated(ds, c, activation, depth); Linked(o, Link(e, rows), e, Resting)
  {
    hide S.StoreInv, CanonicalAt;
    EmptyRetained(depth);
  }

  datatype Call = Call(env: Env, to: u64)

  /** A run of exchanges, with a provider that may change between them. */
  ghost function Exchanges(o: Oracle, s: Link, calls: seq<Call>): (t: Link)
    requires EngineOk(s.engine)
    ensures EngineOk(t.engine)
  {
    if calls == [] then s
    else Exchange(o, Exchanges(o, s, calls[..|calls| - 1]), calls[|calls| - 1].env, calls[|calls| - 1].to)
  }

  /** Over every run of exchanges: the store's acknowledged cursor is the engine's
      committed position, the promise stands exactly between a control and its
      replacement, and every row loads. */
  lemma {:induction false} StaysLinked(o: Oracle, s: Link, base: Engine, ph: Phase, calls: seq<Call>) returns (base': Engine, ph': Phase)
    requires Linked(o, s, base, ph)
    ensures EngineOk(s.engine) && Linked(o, Exchanges(o, s, calls), base', ph') && base'.ds == base.ds
  {
    LinkedOk(o, s, base, ph);
    hide Linked, EngineOk, Exchange;
    base', ph' := base, ph;
    if calls != [] {
      var front, last := calls[..|calls| - 1], calls[|calls| - 1];
      var b, p := StaysLinked(o, s, base, ph, front);
      base', ph' := ExchangeKeeps(o, Exchanges(o, s, front), b, p, last.env, last.to);
    }
  }

  lemma LinkedOk(o: Oracle, s: Link, base: Engine, ph: Phase)
    requires Linked(o, s, base, ph)
    ensures EngineOk(s.engine)
  {
  }

  /** So wherever such a run has come to, the next delivery is refused only for
      what `SavedIff` names, and a page fetched at the cursor only for its size or its
      headers. */
  lemma NextIsWelcome(o: Oracle, s: Link, base: Engine, ph: Phase, calls: seq<Call>) returns (base': Engine, ph': Phase)
    requires Linked(o, s, base, ph)
    ensures EngineOk(s.engine) && Linked(o, Exchanges(o, s, calls), base', ph')
    ensures !ph'.Resting? ==>
            var t := Exchanges(o, s, calls);
            && t.engine.pending.Some? && t.rows[S.KeyOf(base'.ds)].acked.Some?
            && var d := t.engine.pending.value.delivery;
            && (Saves(o, t.rows, base'.ds, d) <==>
                  o.frameLen(d) <= MAX_MESSAGE_SIZE_BYTES && Welcome(o, base', ph', t.rows[S.KeyOf(base'.ds)].acked.value))
            && (ph'.Sent? && ph'.round.prepared.reorg.None? && ph'.round.from == base'.nextBlock ==>
                  (Welcome(o, base', ph', t.rows[S.KeyOf(base'.ds)].acked.value) <==>
                   HeadersMatch(o, base'.ds, ph'.round.page.blocks, base'.activation)))
  {
    base', ph' := StaysLinked(o, s, base, ph, calls);
    hide S.StoreInv, EngineOk, Steady, Abreast, Prepares, GoesOn, Saves, Distinguishable, CanonicalAt, Exchanges, ReorgControl, Renumber;
    if !ph'.Resting? {
      var t := Exchanges(o, s, calls);
      SavedIff(o, t, base', ph');
      if ph'.Sent? && ph'.round.prepared.reorg.None? && ph'.round.from == base'.nextBlock {
        PageAtCursorGoesOn(base', ph'.round, t.rows[S.KeyOf(base'.ds)]);
      }
    }
  }
}
