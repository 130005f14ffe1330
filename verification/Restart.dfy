/** Restart from a durable cursor refines the engine that never stopped
    (crates/hypersync/src/source_engine.rs, crates/hypersync/src/managed_provider.rs). */
module Restart {
  import opened Protocol
  import opened Canonical
  import opened PageRules
  import opened Normalize
  import opened Emission
  import opened SourceEngine
  import opened Handshake
  import opened SourceCheckpoint
  import Ordering

  datatype ResumeError = Undecodable(codec: CodecError) | ConflictingActivation

  /** The checkpoint a durable cursor carries, completed by its portable fields. */
  function CheckpointFrom(c: Cursor): Result<Decoded, ResumeError> {
    var r := Decode(c.providerCheckpoint);
    if r.Err? then Err(Undecodable(r.error))
    else
      var d := r.value;
      if d.activationBlock.Some? && c.activationBoundary.Some? && d.activationBlock != c.activationBoundary then Err(ConflictingActivation)
      else
        var tail := if d.blocks == [] && c.canonicalHead.Some? && c.canonicalHead.value.number + 1 == c.nextBlock
                    then [c.canonicalHead.value] else d.blocks;
        Ok(Decoded(d.guard, OrElse(d.activationBlock, c.activationBoundary), tail))
  }

  function ResumeFrom(c: Cursor, activation: u64): Result<Resume, ResumeError> {
    var r := CheckpointFrom(c);
    if r.Err? then Err(r.error)
    else
      var d := r.value;
      Ok(Resume(c.nextBlock, c.batchSequence, if d.activationBlock.Some? then d.activationBlock.value else activation,
                c.activationBoundary, d.blocks, d.guard, c.canonicalHead))
  }

  /** The engine after a prepared page is acknowledged. */
  function After(e: Engine, p: Prepared): Engine
    requires p.delivery.cursor.Some?
  {
    var c := p.delivery.cursor.value;
    e.(nextBlock := c.nextBlock, sequence := p.delivery.sequence, coverage := c.canonicalHead, guard := p.guard,
       history := p.history, pending := None, queued := None)
  }

  /** Everything but the locally configured response limits agrees. */
  predicate SameEngine(a: Engine, b: Engine) {
    a.(maxDeliveryBytes := b.maxDeliveryBytes, limits := b.limits) == b
  }

  /** Restoring from the cursor gives the live engine. */
  predicate RestoresTo(ds: DesiredState, depth: nat, activation: u64, c: Cursor, live: Engine) {
    var resume := ResumeFrom(c, activation);
    && resume.Ok?
    && Restore(ds, resume.value, depth).Ok?
    && SameEngine(Restore(ds, resume.value, depth).value, live)
  }

  /** What any restart needs, whatever the cursor: with retained blocks the live
      engine must hold a guard, because restoring makes one up at the tip, its
      cursor must be the tip's successor, and its coverage must fit both. */
  lemma RestoresOnlyIf(ds: DesiredState, depth: nat, activation: u64, c: Cursor, live: Engine)
    requires RestoresTo(ds, depth, activation, c, live)
    ensures live.history != [] ==> live.guard.Some? && live.nextBlock == live.history[|live.history| - 1].number + 1
    ensures CoverageError(live.history, live.nextBlock, live.coverage).None?
  {
    hide Apply, Decode, CoverageError;
    var r := Restore(ds, ResumeFrom(c, activation).value, depth).value;
    assert r.history == live.history && r.guard == live.guard && r.nextBlock == live.nextBlock && r.coverage == live.coverage;
  }

  /** The cursor is the tip's successor and the metadata is consistent. */
  predicate Steady(e: Engine) {
    && (e.history != [] ==> e.history[|e.history| - 1].number + 1 == e.nextBlock)
    && (e.coverage.Some? ==> e.coverage.value.number < U64_MAX)
    && (e.ownerActivation.Some? ==> e.ownerActivation.value == e.activation)
  }

  /** Every engine restored from a durable cursor is steady. */
  lemma RestoredSteady(ds: DesiredState, depth: nat, activation: u64, c: Cursor)
    requires ResumeFrom(c, activation).Ok? && Restore(ds, ResumeFrom(c, activation).value, depth).Ok?
    ensures var e := Restore(ds, ResumeFrom(c, activation).value, depth).value;
            EngineOk(e) && Steady(e) && e.pending.None? && e.queued.None?
  {
    RestoreKeeps(ds, ResumeFrom(c, activation).value, depth);
    hide Apply, Decode, Retained, GuardAt;
  }

  // ----- Restoring a chain -----

  /** Replaying a retained history into an empty tracker rebuilds it. */
  lemma ReapplyRetained(s: seq<BlockRef>, depth: nat)
    requires depth >= 1 && Retained(s, depth) && s != []
    ensures Apply([], depth, s).Ok? && Apply([], depth, s).value.blocks == s
  {
    LinkedContiguous(s);
    EmptyRetained(depth);
    ApplyMeaning([], depth, s);
    assert Agreeing([], s) == 0 && s[0..] == s;
    assert PopAbove([], s[0].number - 1) + s == s;
  }

  /** A decoded checkpoint restores exactly when its parts fit together. */
  lemma RestoreRetained(ds: DesiredState, resume: Resume, depth: nat)
    requires depth >= 1 && Retained(resume.blocks, depth) && resume.blocks != []
    requires ResumeGuard(resume.blocks, resume.nextBlock, resume.guard) == Ok(resume.guard)
    requires CoverageError(resume.blocks, resume.nextBlock, resume.coverage).None?
    ensures Restore(ds, resume, depth) ==
            Ok(Engine(ds, resume.nextBlock, resume.sequence, resume.activation, resume.ownerActivation, resume.coverage,
                      resume.blocks, depth, resume.guard, MAX_DELIVERY_SIZE_BYTES, DEFAULT_LIMITS, None, None))
  {
    ReapplyRetained(resume.blocks, depth);
    hide Apply, ResumeGuard, CoverageError;
  }

  /** The cursor's checkpoint bytes give back what was encoded. */
  lemma ResumeDecodes(c: Cursor, guard: Option<RollbackGuard>, activation: u64, blocks: seq<BlockRef>)
    requires blocks != [] && Encode(guard, activation, blocks) == Ok(c.providerCheckpoint)
    requires c.activationBoundary.Some? ==> c.activationBoundary.value == activation
    ensures ResumeFrom(c, activation) ==
            Ok(Resume(c.nextBlock, c.batchSequence, activation, c.activationBoundary, blocks, guard, c.canonicalHead))
  {
    DecodeEncode(guard, activation, blocks);
    hide Decode;
  }

  // ----- After a data page -----

  /** Rows right above a retained block become the new tip. */
  lemma NewTip(s: seq<BlockRef>, depth: nat, refs: seq<BlockRef>)
    requires depth >= 1 && Retained(s, depth) && refs != [] && Apply(s, depth, refs).Ok?
    requires refs[Agreeing(s, refs)..] != []
    ensures var h := Apply(s, depth, refs).value.blocks;
            Retained(h, depth) && h != [] && h[|h| - 1] == refs[|refs| - 1]
  {
    ApplyMeaning(s, depth, refs);
    hide Apply, Attaches, Contiguous;
    RebasedTip(s, depth, refs[Agreeing(s, refs)..]);
  }

  /** Rows that are all retained already change nothing. */
  lemma NothingNew(s: seq<BlockRef>, depth: nat, refs: seq<BlockRef>)
    requires depth >= 1 && Retained(s, depth) && Apply(s, depth, refs).Ok? && refs[Agreeing(s, refs)..] == []
    ensures Apply(s, depth, refs).value.blocks == s
    ensures refs != [] ==> refs[|refs| - 1] in s
  {
    ApplyMeaning(s, depth, refs);
    hide Apply, Attaches, Contiguous;
  }

  /** Without a displaced block, new rows start right above the tip. */
  lemma NewRowsAboveTip(s: seq<BlockRef>, depth: nat, refs: seq<BlockRef>)
    requires depth >= 1 && Retained(s, depth) && s != [] && Apply(s, depth, refs).Ok? && Apply(s, depth, refs).value.reorg.None?
    requires refs[Agreeing(s, refs)..] != []
    ensures refs[|refs| - 1].number > s[|s| - 1].number
  {
    ApplyMeaning(s, depth, refs);
    hide Apply, LastN, Rebase;
    var k := Agreeing(s, refs);
    LinkedContiguous(s);
    FindContiguous(s, refs[k].number);
    FindContiguous(s, refs[k].number - 1);
    assert refs[|refs| - 1].number >= refs[k].number;
  }

  lemma TipByNumber(s: seq<BlockRef>, depth: nat, b: BlockRef)
    requires Retained(s, depth) && b in s && b.number >= s[|s| - 1].number
    ensures b == s[|s| - 1]
  {
    LinkedContiguous(s);
  }

  /** An empty history starts from at most the anchor below the page. */
  lemma StartsFresh(e: Engine, page: Page, from: u64, to: u64, anchor: Option<BlockRef>)
    requires EngineOk(e) && e.history == [] && PageOk(page, from, to) && AllFieldsOk(page.blocks) && page.blocks != []
    requires StartOf(e.history, e.depth, anchor).Ok? && (anchor.Some? ==> anchor.value.number + 1 == from)
    ensures var s := StartOf(e.history, e.depth, anchor).value;
            Retained(s, e.depth) && Refs(page.blocks)[Agreeing(s, Refs(page.blocks))..] != []
  {
    RefsContiguous(page, from, to);
    StartOfEmpty(e, anchor);
    if anchor.Some? {
      ApplyMeaning([], e.depth, [anchor.value]);
      assert Agreeing([], [anchor.value]) == 0;
      assert LastN(PopAbove([], anchor.value.number - 1) + [anchor.value], e.depth) == [anchor.value];
    }
    assert Refs(page.blocks)[0] !in StartOf(e.history, e.depth, anchor).value;
  }

  /** The page reaches the cursor, replaces a branch, or starts a history. */
  predicate Lands(e: Engine, page: Page, p: Prepared) {
    page.nextBlock >= e.nextBlock || p.reorg.Some? || e.history == []
  }

  /** The retained tip is the page's last row exactly when the page lands; a page
      that does not leaves the history as it was. */
  lemma PreparedTip(e: Engine, page: Page, from: u64, to: u64, sequence: u64, anchor: Option<BlockRef>, p: Prepared)
    requires EngineOk(e) && Steady(e) && PageOk(page, from, to) && page.nextBlock > from
    requires Prepare(e, page, sequence, anchor) == Ok(p) && (anchor.Some? ==> anchor.value.number + 1 == from)
    ensures AllFieldsOk(page.blocks) && page.blocks != [] && Retained(p.history, e.depth) && p.history != []
    ensures if Lands(e, page, p) then p.history[|p.history| - 1] == LastRow(page) else p.history == e.history
  {
    hide Prepare, PageOk, Apply, Retained, HeadsOk, Agreeing;
    LastRowIs(page, from, to);
    PreparedApplies(e, page, sequence, anchor);
    var refs := Refs(page.blocks);
    if e.history == [] {
      StartsFresh(e, page, from, to, anchor);
      NewTip(StartOf(e.history, e.depth, anchor).value, e.depth, refs);
    } else {
      AppliedTip(e.history, e.depth, refs);
    }
  }

  /** What rows make of a retained history: they end it when they reach its tip or
      replace a branch, and otherwise change nothing. */
  lemma AppliedTip(s: seq<BlockRef>, depth: nat, refs: seq<BlockRef>)
    requires depth >= 1 && Retained(s, depth) && s != [] && refs != [] && Apply(s, depth, refs).Ok?
    ensures var r := Apply(s, depth, refs).value;
            var last := refs[|refs| - 1];
            && Retained(r.blocks, depth) && r.blocks != []
            && if last.number >= s[|s| - 1].number || r.reorg.Some? then r.blocks[|r.blocks| - 1] == last else r.blocks == s
  {
    hide Apply, Retained, Agreeing;
    if refs[Agreeing(s, refs)..] != [] {
      NewTip(s, depth, refs);
      if Apply(s, depth, refs).value.reorg.None? { NewRowsAboveTip(s, depth, refs); }
    } else {
      NothingNew(s, depth, refs);
      if Apply(s, depth, refs).value.reorg.Some? { ReorgIs(s, depth, refs); }
      if refs[|refs| - 1].number >= s[|s| - 1].number { TipByNumber(s, depth, refs[|refs| - 1]); }
    }
  }

  lemma GuardResumes(page: Page, from: u64, to: u64, h: seq<BlockRef>)
    requires PageOk(page, from, to) && page.nextBlock > from && page.guard.Some?
    requires AllFieldsOk(page.blocks) && page.blocks != [] && h != [] && h[|h| - 1] == LastRow(page)
    ensures ResumeGuard(h, page.nextBlock, page.guard) == Ok(page.guard)
  {
    LastRowIs(page, from, to);
    RefsContiguous(page, from, to);
  }

  lemma TipFound(h: seq<BlockRef>, depth: nat, n: int)
    requires Retained(h, depth) && h != [] && n >= h[|h| - 1].number
    ensures Find(h, n) == if n == h[|h| - 1].number then Some(h[|h| - 1]) else None
  {
    LinkedContiguous(h);
    FindContiguous(h, n);
  }

  /** A head that is the retained tip always fits. */
  lemma HeadFits(h: seq<BlockRef>, depth: nat, nextBlock: u64)
    requires Retained(h, depth) && h != [] && h[|h| - 1].number + 1 == nextBlock
    ensures CoverageError(h, nextBlock, Some(h[|h| - 1])).None?
  {
    TipFound(h, depth, h[|h| - 1].number);
  }

  /** The new coverage is the page's last row, or no row is canonical and the old
      coverage is that row or above it. */
  predicate CoverageFollows(e: Engine, page: Page)
    requires AllFieldsOk(page.blocks) && page.blocks != []
  {
    var last := LastRow(page);
    || CanonicalAt(e.ds, last.number, e.activation)
    || (CoveredHead(e.ds, page.blocks, e.activation).None? &&
        (e.coverage.Some? ==> e.coverage.value == last || last.number < e.coverage.value.number))
  }

  lemma OldCoverageFits(h: seq<BlockRef>, depth: nat, nextBlock: u64, c: BlockRef)
    requires Retained(h, depth) && h != [] && h[|h| - 1].number + 1 == nextBlock && BlockRefOk(c) && c.number < U64_MAX
    ensures CoverageError(h, nextBlock, Some(c)).None? <==> c == h[|h| - 1] || h[|h| - 1].number < c.number
  {
    if c.number >= h[|h| - 1].number { TipFound(h, depth, c.number); }
  }

  lemma LowCoverage(h: seq<BlockRef>, nextBlock: u64, c: BlockRef)
    requires c.number + 1 < nextBlock
    ensures CoverageError(h, nextBlock, Some(c)).Some?
  {
  }

  /** A canonical row below a last row that is not canonical is too low. */
  lemma CoveredBelow(e: Engine, page: Page, from: u64, to: u64)
    requires PageOk(page, from, to) && page.nextBlock > from && CoveredHead(e.ds, page.blocks, e.activation).Some?
    requires AllFieldsOk(page.blocks) && page.blocks != [] && !CanonicalAt(e.ds, LastRow(page).number, e.activation)
    ensures CoveredHead(e.ds, page.blocks, e.activation).value.number < LastRow(page).number
  {
    hide CoveredHead, CanonicalAt;
    var k := CoveredHeadIsRow(e.ds, page, from, to, e.activation);
    RefsContiguous(page, from, to);
  }

  lemma CoverageFits(e: Engine, page: Page, from: u64, to: u64, h: seq<BlockRef>)
    requires EngineOk(e) && Steady(e) && PageOk(page, from, to) && page.nextBlock > from
    requires AllFieldsOk(page.blocks) && page.blocks != []
    requires Retained(h, e.depth) && h != [] && h[|h| - 1] == LastRow(page)
    ensures CoverageError(h, page.nextBlock, OrElse(CoveredHead(e.ds, page.blocks, e.activation), e.coverage)).None? <==>
            CoverageFollows(e, page)
  {
    hide PageOk, CoverageError, CoveredHead, CanonicalAt, Retained;
    LastRowIs(page, from, to);
    if CanonicalAt(e.ds, LastRow(page).number, e.activation) {
      HeadIsLastRow(e.ds, page, from, to, e.activation);
      HeadFits(h, e.depth, page.nextBlock);
    } else if CoveredHead(e.ds, page.blocks, e.activation).Some? {
      CoveredBelow(e, page, from, to);
      LowCoverage(h, page.nextBlock, CoveredHead(e.ds, page.blocks, e.activation).value);
    } else if e.coverage.Some? {
      OldCoverageFits(h, e.depth, page.nextBlock, e.coverage.value);
    } else {
      NothingToFit(h, page.nextBlock);
    }
  }

  lemma NothingToFit(h: seq<BlockRef>, nextBlock: u64)
    ensures CoverageError(h, nextBlock, None).None?
  {
  }

  lemma StampedCursor(e: Engine, d: Delivery, checkpoint: Bytes)
    requires d.cursor.Some?
    ensures var s := Stamped(e, d, checkpoint);
            && s.cursor.Some? && s.sequence == d.sequence
            && s.cursor.value.providerCheckpoint == checkpoint && s.cursor.value.activationBoundary == e.ownerActivation
            && s.cursor.value.batchSequence == d.cursor.value.batchSequence
  {
    hide ProgressId;
  }

  lemma NormalizedSequence(ds: DesiredState, sequence: u64, page: Page, activation: u64)
    requires NormalizeAt(ds, sequence, page, activation).Ok?
    ensures var d := NormalizeAt(ds, sequence, page, activation).value;
            d.cursor.Some? && d.sequence == sequence && d.cursor.value.batchSequence == sequence
  {
    hide Events, CoveredHead, WithHead, RecordsOf, Ordering.StableSort, Token;
  }

  /** The cursor of a prepared page carries the checkpoint of its history. */
  lemma PreparedCursor(e: Engine, page: Page, sequence: u64, anchor: Option<BlockRef>, p: Prepared)
    requires Prepare(e, page, sequence, anchor) == Ok(p)
    ensures p.delivery.cursor.Some? && p.delivery.sequence == sequence && p.guard == page.guard
    ensures var c := p.delivery.cursor.value;
            && c.batchSequence == sequence && c.activationBoundary == e.ownerActivation
            && Encode(page.guard, e.activation, p.history) == Ok(c.providerCheckpoint)
  {
    hide Prepare, NormalizeAt, Stamped, Encode;
    var checkpoint := PreparedIs(e, page, sequence, anchor);
    NormalizedSequence(e.ds, sequence, page, e.activation);
    StampedCursor(e, NormalizeAt(e.ds, sequence, page, e.activation).value, checkpoint);
  }

  /** What a restart asks of an acknowledged page: a rollback guard, a page that
      lands, and coverage that follows it. */
  predicate Resumes(e: Engine, page: Page, p: Prepared) {
    page.guard.Some? && Lands(e, page, p) && AllFieldsOk(page.blocks) && page.blocks != [] && CoverageFollows(e, page)
  }

  lemma RestoredIs(e: Engine, p: Prepared, d: Delivery, resume: Resume)
    requires d.cursor.Some? && ResumeFrom(d.cursor.value, e.activation) == Ok(resume)
    requires var c := d.cursor.value;
             && c.batchSequence == d.sequence
             && Restore(e.ds, resume, e.depth) ==
                Ok(Engine(e.ds, c.nextBlock, c.batchSequence, e.activation, e.ownerActivation, c.canonicalHead, p.history, e.depth,
                          p.guard, MAX_DELIVERY_SIZE_BYTES, DEFAULT_LIMITS, None, None))
    ensures RestoresTo(e.ds, e.depth, e.activation, d.cursor.value, After(e, p.(delivery := d)))
  {
    hide ResumeFrom, Restore;
  }

  /** The parts of a page's cursor fit together exactly as restoring asks. */
  lemma PartsFit(e: Engine, page: Page, from: u64, to: u64, sequence: u64, anchor: Option<BlockRef>, p: Prepared)
    requires EngineOk(e) && Steady(e) && PageOk(page, from, to) && page.nextBlock > from
    requires Prepare(e, page, sequence, anchor) == Ok(p) && (anchor.Some? ==> anchor.value.number + 1 == from) && Resumes(e, page, p)
    ensures p.delivery.cursor.Some? && Retained(p.history, e.depth) && p.history != []
    ensures var c := p.delivery.cursor.value;
            && c.activationBoundary == e.ownerActivation && Encode(page.guard, e.activation, p.history) == Ok(c.providerCheckpoint)
            && ResumeGuard(p.history, c.nextBlock, page.guard) == Ok(page.guard)
            && CoverageError(p.history, c.nextBlock, c.canonicalHead).None?
  {
    hide Prepare, PageOk, CoverageError, ResumeGuard, Encode, Retained, CoveredHead, CoverageFollows, ProgressId, PageRecords, LastRow, Events, EngineOk, Steady;
    PreparedCursor(e, page, sequence, anchor, p);
    PreparedShape(e, page, from, to, sequence, anchor);
    PreparedTip(e, page, from, to, sequence, anchor, p);
    GuardResumes(page, from, to, p.history);
    CoverageFits(e, page, from, to, p.history);
  }

  lemma RestoresAfter(e: Engine, page: Page, from: u64, to: u64, sequence: u64, anchor: Option<BlockRef>, p: Prepared, d: Delivery)
    requires EngineOk(e) && Steady(e) && PageOk(page, from, to) && page.nextBlock > from
    requires Prepare(e, page, sequence, anchor) == Ok(p) && (anchor.Some? ==> anchor.value.number + 1 == from)
    requires Resumes(e, page, p) && d.cursor.Some? && SameCursor(p.delivery.cursor, d.cursor.value) && d.cursor.value.batchSequence == d.sequence
    ensures RestoresTo(e.ds, e.depth, e.activation, d.cursor.value, After(e, p.(delivery := d)))
  {
    PartsFit(e, page, from, to, sequence, anchor, p);
    PreparedCursor(e, page, sequence, anchor, p);
    hide Prepare, PageOk, Restore, CoverageError, ResumeGuard, ResumeFrom, Encode, Retained, Resumes, RestoresTo, After, HeadsOk;
    var c := d.cursor.value;
    ResumeDecodes(c, page.guard, e.activation, p.history);
    RestoreRetained(e.ds, ResumeFrom(c, e.activation).value, e.depth);
    RestoredIs(e, p, d, ResumeFrom(c, e.activation).value);
  }

  /** Renumbering changes the sequence of a cursor only. */
  predicate SameCursor(a: Option<Cursor>, b: Cursor) {
    a.Some? && a.value.(batchSequence := b.batchSequence) == b
  }

  lemma ResumesOnlyIf(e: Engine, page: Page, from: u64, to: u64, sequence: u64, anchor: Option<BlockRef>, p: Prepared, d: Delivery)
    requires EngineOk(e) && Steady(e) && PageOk(page, from, to) && page.nextBlock > from
    requires Prepare(e, page, sequence, anchor) == Ok(p) && (anchor.Some? ==> anchor.value.number + 1 == from)
    requires d.cursor.Some? && SameCursor(p.delivery.cursor, d.cursor.value)
    requires RestoresTo(e.ds, e.depth, e.activation, d.cursor.value, After(e, p.(delivery := d)))
    ensures Resumes(e, page, p)
  {
    hide Prepare, PageOk, RestoresTo, CoverageError, Retained, CoveredHead, CoverageFollows, Encode, ProgressId, PageRecords, LastRow;
    PreparedCursor(e, page, sequence, anchor, p);
    PreparedShape(e, page, from, to, sequence, anchor);
    PreparedTip(e, page, from, to, sequence, anchor, p);
    RestoresOnlyIf(e.ds, e.depth, e.activation, d.cursor.value, After(e, p.(delivery := d)));
    CoverageFits(e, page, from, to, p.history);
  }

  /** Restoring from the acknowledged cursor of a prepared page gives the engine
      that acknowledged it, exactly when the page resumes. */
  lemma RestartAfterData(e: Engine, page: Page, from: u64, to: u64, sequence: u64, anchor: Option<BlockRef>, p: Prepared, renumbered: u64)
    requires EngineOk(e) && Steady(e) && PageOk(page, from, to) && page.nextBlock > from
    requires Prepare(e, page, sequence, anchor) == Ok(p) && (anchor.Some? ==> anchor.value.number + 1 == from)
    ensures Renumber(p.delivery, renumbered).Ok? && Renumber(p.delivery, renumbered).value.cursor.Some?
    ensures var d := Renumber(p.delivery, renumbered).value;
            RestoresTo(e.ds, e.depth, e.activation, d.cursor.value, After(e, p.(delivery := d))) <==> Resumes(e, page, p)
  {
    hide Prepare, PageOk, RestoresTo, Resumes, Encode, Token, EngineOk, Steady, After;
    PreparedCursor(e, page, sequence, anchor, p);
    var d := Renumber(p.delivery, renumbered).value;
    if Resumes(e, page, p) { RestoresAfter(e, page, from, to, sequence, anchor, p, d); }
    if RestoresTo(e.ds, e.depth, e.activation, d.cursor.value, After(e, p.(delivery := d))) {
      ResumesOnlyIf(e, page, from, to, sequence, anchor, p, d);
    }
  }

  // ----- After a reorg control -----

  lemma {:induction false} UpToContiguous(s: seq<BlockRef>, n: u64)
    requires Contiguous(s) && s != [] && s[0].number <= n < s[0].number + |s|
    ensures UpTo(s, n) == s[..n - s[0].number + 1]
  {
    if n == s[0].number {
      assert |s| > 1 ==> s[1].number == n + 1;
      assert UpTo(s[1..], n) == [];
    } else {
      var rest := s[1..];
      assert forall i :: 0 <= i < |rest| ==> rest[i] == s[i + 1];
      UpToContiguous(rest, n);
      assert s[..n - s[0].number + 1] == [s[0]] + rest[..n - rest[0].number + 1];
    }
  }

  lemma PrefixRetained(s: seq<BlockRef>, depth: nat, k: nat)
    requires Retained(s, depth) && k <= |s|
    ensures Retained(s[..k], depth)
  {
    var t := s[..k];
    forall i | 0 <= i < |t| - 1 ensures Follows(t[i], t[i + 1]) { assert Follows(s[i], s[i + 1]); }
  }

  lemma RetainedPosition(s: seq<BlockRef>, depth: nat, a: BlockRef) returns (k: nat)
    requires Retained(s, depth) && Find(s, a.number) == Some(a)
    ensures 0 < k <= |s| && s[k - 1] == a && UpTo(s, a.number) == s[..k] && PopAbove(s, a.number) == s[..k]
  {
    LinkedContiguous(s);
    FindContiguous(s, a.number);
    UpToContiguous(s, a.number);
    PopContiguous(s, a.number);
    k := a.number - s[0].number + 1;
  }

  /** The history up to a retained block is linked and ends with it. */
  lemma RewoundTo(s: seq<BlockRef>, depth: nat, a: BlockRef)
    requires Retained(s, depth) && Find(s, a.number) == Some(a)
    ensures var t := UpTo(s, a.number);
            && Retained(t, depth) && t != [] && t[|t| - 1] == a && t == PopAbove(s, a.number)
            && |t| <= |s| && t == s[..|t|] && Find(t, a.number) == Some(a) && Find(t, a.number + 1).None?
  {
    hide Retained, Find, UpTo, PopAbove;
    var k := RetainedPosition(s, depth, a);
    PrefixRetained(s, depth, k);
    TipFound(s[..k], depth, a.number);
    TipFound(s[..k], depth, a.number + 1);
  }

  lemma {:induction false} AgreeingBelow(s: seq<BlockRef>, t: seq<BlockRef>, refs: seq<BlockRef>)
    requires forall b :: b in t ==> b in s
    requires forall i :: 0 <= i < Agreeing(s, refs) ==> refs[i] in t
    ensures Agreeing(t, refs) == Agreeing(s, refs)
  {
    if refs != [] && refs[0] in s {
      assert refs[0] in t;
      forall i | 0 <= i < Agreeing(s, refs[1..]) ensures refs[1..][i] in t { assert refs[i + 1] in t; }
      AgreeingBelow(s, t, refs[1..]);
    }
  }

  lemma InPrefix(s: seq<BlockRef>, depth: nat, a: BlockRef, b: BlockRef)
    requires Retained(s, depth) && Find(s, a.number) == Some(a) && b in s && b.number <= a.number
    ensures b in UpTo(s, a.number)
  {
    var k := RetainedPosition(s, depth, a);
    LinkedContiguous(s);
    hide Retained, Find, UpTo, PopAbove;
    var j :| 0 <= j < |s| && s[j] == b;
    assert s[j].number == s[0].number + j && s[k - 1].number == s[0].number + k - 1;
    assert s[..k][j] == b;
  }

  lemma AgreeingRowsBelow(s: seq<BlockRef>, depth: nat, refs: seq<BlockRef>, a: BlockRef, i: nat)
    requires Retained(s, depth) && Find(s, a.number) == Some(a) && Contiguous(refs)
    requires i < Agreeing(s, refs) < |refs| && refs[Agreeing(s, refs)].number == a.number + 1
    ensures refs[i] in UpTo(s, a.number)
  {
    var k := Agreeing(s, refs);
    assert refs[i].number == refs[0].number + i && refs[k].number == refs[0].number + k;
    hide Retained, Find, UpTo;
    InPrefix(s, depth, a, refs[i]);
  }

  lemma SameAgreement(s: seq<BlockRef>, depth: nat, refs: seq<BlockRef>, a: BlockRef)
    requires Retained(s, depth) && Find(s, a.number) == Some(a) && Contiguous(refs)
    requires Agreeing(s, refs) < |refs| && refs[Agreeing(s, refs)].number == a.number + 1
    ensures Agreeing(UpTo(s, a.number), refs) == Agreeing(s, refs)
  {
    RewoundTo(s, depth, a);
    var t := UpTo(s, a.number);
    assert forall b :: b in t ==> b in s;
    hide Retained, Contiguous, UpTo, Find;
    forall i | 0 <= i < Agreeing(s, refs) ensures refs[i] in t { AgreeingRowsBelow(s, depth, refs, a, i); }
    AgreeingBelow(s, t, refs);
  }

  lemma AttachesRewound(s: seq<BlockRef>, depth: nat, rest: seq<BlockRef>, a: BlockRef)
    requires Retained(s, depth) && Find(s, a.number) == Some(a) && rest != [] && rest[0].number == a.number + 1 && Attaches(s, rest)
    ensures var t := UpTo(s, a.number);
            Attaches(t, rest) && DeltaFor(t, rest).None? && Rebase(t, rest) == Rebase(s, rest)
  {
    hide Linked, AllOk, Retained, UpTo, Find, PopAbove;
    RewoundTo(s, depth, a);
    PopIdempotent(UpTo(s, a.number), a.number);
    NonEmptyFind(s, a.number);
  }

  lemma NonEmptyFind(s: seq<BlockRef>, n: int)
    requires Find(s, n).Some?
    ensures s != []
  {
  }

  lemma PopIdempotent(t: seq<BlockRef>, n: int)
    requires t != [] && t[|t| - 1].number <= n
    ensures PopAbove(t, n) == t
  {
  }

  /** Rewinding to the common ancestor first and applying the same rows gives the
      same history without a reorg. */
  lemma RewindThenApply(s: seq<BlockRef>, depth: nat, refs: seq<BlockRef>)
    requires depth >= 1 && Retained(s, depth) && Apply(s, depth, refs).Ok? && Apply(s, depth, refs).value.reorg.Some?
    ensures var t := Apply(s, depth, refs).value;
            var a := t.reorg.value.commonAncestor;
            Apply(UpTo(s, a.number), depth, refs) == Ok(Tracked(t.blocks, None))
  {
    ReorgIs(s, depth, refs);
    ApplyMeaning(s, depth, refs);
    hide Apply, Retained, UpTo, Find, Contiguous, Attaches, Rebase, DeltaFor, LastN;
    var a := Apply(s, depth, refs).value.reorg.value.commonAncestor;
    RewoundTo(s, depth, a);
    SameAgreement(s, depth, refs, a);
    AttachesRewound(s, depth, refs[Agreeing(s, refs)..], a);
    ApplyMeaning(UpTo(s, a.number), depth, refs);
  }

  /** The engine restored from an acknowledged reorg control. */
  function Rewound(e: Engine, sequence: u64, delta: ReorgDelta): Engine
    requires delta.commonAncestor.number < U64_MAX && GuardAt(delta.commonAncestor).Ok?
  {
    Engine(e.ds, delta.commonAncestor.number + 1, sequence, e.activation, e.ownerActivation, Some(delta.commonAncestor),
           UpTo(e.history, delta.commonAncestor.number), e.depth, Some(GuardAt(delta.commonAncestor).value),
           MAX_DELIVERY_SIZE_BYTES, DEFAULT_LIMITS, None, None)
  }

  lemma AncestorGuardResumes(h: seq<BlockRef>, a: BlockRef)
    requires h != [] && h[|h| - 1] == a && a.number < U64_MAX && GuardAt(a).Ok?
    ensures ResumeGuard(h, a.number + 1, Some(GuardAt(a).value)) == Ok(Some(GuardAt(a).value))
  {
  }

  lemma ControlCursor(e: Engine, sequence: u64, delta: ReorgDelta)
    requires ReorgControl(e, sequence, delta).Ok?
    ensures delta.commonAncestor.number < U64_MAX && GuardAt(delta.commonAncestor).Ok?
    ensures var d := ReorgControl(e, sequence, delta).value;
            && d.cursor.Some?
            && var c := d.cursor.value;
            && c.nextBlock == delta.commonAncestor.number + 1 && c.canonicalHead == Some(delta.commonAncestor)
            && c.batchSequence == sequence && c.activationBoundary == e.ownerActivation
            && Encode(Some(GuardAt(delta.commonAncestor).value), e.activation, UpTo(e.history, delta.commonAncestor.number)) ==
               Ok(c.providerCheckpoint)
  {
    hide Encode, UpTo, Token;
  }

  lemma RestoreControl(e: Engine, sequence: u64, delta: ReorgDelta)
    requires EngineOk(e) && Steady(e) && ReorgControl(e, sequence, delta).Ok?
    requires Find(e.history, delta.commonAncestor.number) == Some(delta.commonAncestor)
    ensures delta.commonAncestor.number < U64_MAX && GuardAt(delta.commonAncestor).Ok?
    ensures ReorgControl(e, sequence, delta).value.cursor.Some?
    ensures var resume := ResumeFrom(ReorgControl(e, sequence, delta).value.cursor.value, e.activation);
            resume.Ok? && Restore(e.ds, resume.value, e.depth) == Ok(Rewound(e, sequence, delta))
  {
    hide ReorgControl, Restore, CoverageError, ResumeGuard, ResumeFrom, Encode, Retained, UpTo, Find, GuardAt;
    ControlCursor(e, sequence, delta);
    var a := delta.commonAncestor;
    var c := ReorgControl(e, sequence, delta).value.cursor.value;
    var h := UpTo(e.history, a.number);
    RewoundTo(e.history, e.depth, a);
    AncestorGuardResumes(h, a);
    HeadFits(h, e.depth, a.number + 1);
    ResumeDecodes(c, Some(GuardAt(a).value), e.activation, h);
    RestoreRetained(e.ds, ResumeFrom(c, e.activation).value, e.depth);
  }

  lemma NormalizeRenumbers(ds: DesiredState, sequence: u64, renumbered: u64, page: Page, activation: u64)
    requires NormalizeAt(ds, sequence, page, activation).Ok?
    ensures Renumber(NormalizeAt(ds, sequence, page, activation).value, renumbered).Ok?
    ensures NormalizeAt(ds, renumbered, page, activation) == Ok(Renumber(NormalizeAt(ds, sequence, page, activation).value, renumbered).value)
  {
    hide Events, CoveredHead, WithHead, RecordsOf, Ordering.StableSort, Token;
  }

  lemma StampRenumbers(e: Engine, r: Engine, d: Delivery, checkpoint: Bytes, renumbered: u64)
    requires d.cursor.Some? && (d.cursor.value.canonicalHead.Some? ==> d.payload != Some(Data([])))
    requires r.ownerActivation == e.ownerActivation && r.ds == e.ds
    ensures Stamped(r, Renumber(d, renumbered).value, checkpoint) == Renumber(Stamped(e, d, checkpoint), renumbered).value <==>
            d.cursor.value.canonicalHead.Some? || r.coverage == e.coverage
  {
    hide ProgressId, Token;
  }

  lemma PrepareOf(r: Engine, page: Page, sequence: u64, checkpoint: Bytes, after: Tracked)
    requires AllFieldsOk(page.blocks) && !BoundaryUntracked(r) && NormalizeAt(r.ds, sequence, page, r.activation).Ok?
    requires NormalizeAt(r.ds, sequence, page, r.activation).value.cursor.Some?
    requires Apply(r.history, r.depth, Refs(page.blocks)) == Ok(after)
    requires Encode(page.guard, r.activation, after.blocks) == Ok(checkpoint)
    ensures Prepare(r, page, sequence, None) ==
            Ok(Prepared(Stamped(r, NormalizeAt(r.ds, sequence, page, r.activation).value, checkpoint), page.guard, after.blocks, after.reorg))
  {
    hide NormalizeAt, Apply, Encode, Stamped, CoverageAgrees;
  }

  /** After a crash between the control and its replacement, the restored engine
      retains the same blocks and prepares the same page without a reorg; the
      delivery is exactly the queued one when some row is canonical, and otherwise
      only if the coverage was the common ancestor already. */
  lemma RestartAfterControl(e: Engine, page: Page, from: u64, to: u64, sequence: u64, anchor: Option<BlockRef>, p: Prepared)
    requires EngineOk(e) && Steady(e) && PageOk(page, from, to) && page.nextBlock > from && sequence < U64_MAX
    requires Prepare(e, page, sequence, anchor) == Ok(p) && p.reorg.Some? && ReorgControl(e, sequence, p.reorg.value).Ok?
    ensures p.delivery.cursor.Some? && ReorgControl(e, sequence, p.reorg.value).value.cursor.Some?
    ensures var resume := ResumeFrom(ReorgControl(e, sequence, p.reorg.value).value.cursor.value, e.activation);
            && resume.Ok?
            && var restored := Restore(e.ds, resume.value, e.depth);
            && restored.Ok?
            && var again := Prepare(restored.value, page, sequence + 1, None);
            && again.Ok? && again.value == Prepared(again.value.delivery, p.guard, p.history, None)
            && (again.value.delivery == Renumber(p.delivery, sequence + 1).value <==>
                CoveredHead(e.ds, page.blocks, e.activation).Some? || e.coverage == Some(p.reorg.value.commonAncestor))
  {
    hide Prepare, PageOk, NormalizeAt, Apply, Encode, Retained, UpTo, Find, GuardAt, Restore, ResumeFrom, ReorgControl, Stamped, CoveredHead, Renumber, PageRecords, Events;
    var delta := p.reorg.value;
    PreparedReorg(e, page, from, to, sequence, anchor);
    RestoreControl(e, sequence, delta);
    PreparedApplies(e, page, sequence, anchor);
    var checkpoint := PreparedIs(e, page, sequence, anchor);
    RewindThenApply(e.history, e.depth, Refs(page.blocks));
    var r := Rewound(e, sequence, delta);
    RewoundTo(e.history, e.depth, delta.commonAncestor);
    NormalizeRenumbers(e.ds, sequence, sequence + 1, page, e.activation);
    NormalizedShape(e, page, from, to, sequence);
    RecordsWithHead(e, page, from, to);
    var d := NormalizeAt(e.ds, sequence, page, e.activation).value;
    StampRenumbers(e, r, d, checkpoint, sequence + 1);
    NormalizedHasCursor(r.ds, sequence + 1, page, r.activation);
    PrepareOf(r, page, sequence + 1, checkpoint, Tracked(p.history, None));
    PreparedCursor(e, page, sequence, anchor, p);
  }
}
