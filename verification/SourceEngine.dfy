/** The one-in-flight source engine
    (crates/hypersync/src/source_engine.rs). */
module SourceEngine {
  import opened Protocol
  import opened Canonical
  import opened SourceCheckpoint
  import opened PageRules
  import opened Normalize
  import Ordering
  import QueryPlan

  const MAX_DELIVERY_SIZE_BYTES := MAX_MESSAGE_SIZE_BYTES - 64 * 1024
  const MAX_BLOCKS_PER_QUERY := 1000
  const MAX_LOGS_PER_QUERY := 5000
  const DEFAULT_LIMITS := ResponseLimits(2 * MAX_BLOCKS_PER_QUERY, 2 * MAX_LOGS_PER_QUERY, 16 * 1024 * 1024)

  datatype ResponseLimits = ResponseLimits(maxBlocks: nat, maxLogs: nat, maxDynamicBytes: nat)

  /** What lies outside the engine during one call: the provider's answers, the
      encoded length of a delivery and the memory a decoded page occupies. */
  datatype Env = Env(
    provider: QueryPlan.Query -> Option<Page>,
    encodedLen: Delivery -> nat,
    dynamicBytes: Page -> nat)

  datatype EngineError =
    | SequenceExhausted
    | PlanFailed(plan: QueryPlan.PlanError)
    | SourceFailed
    | ResponseLimitExceeded
    | NoProgress(fromBlock: u64, nextBlock: u64)
    | InvalidPage
    | CanonicalFailed(canonical: CanonicalError)
    | NormalizeFailed(normalize: NormalizeError)
    | CheckpointFailed(codec: CodecError)
    | CoverageBoundaryConflict(number: u64)
    | CoverageCursorMismatch(successor: u64, received: u64)
    | ResumeGuardMismatch
    | ResumeCursorMismatch(expected: u64, received: u64)
    | DeliveryTooLarge
    | OwnerCatchupReorg
    | BlockNumberOverflow
    | BlockTimestampOverflow(timestamp: u64)
    | MissingRollbackGuard
    | NoPendingDelivery
    | DeliveryTokenMismatch
    | MissingCursor
    | PendingDelivery
    | SequenceRegression(committed: u64, received: u64)

  /** An in-flight delivery; reorg controls do not advance the source. */
  datatype Pending = Pending(delivery: Delivery, guard: Option<RollbackGuard>, advances: bool)

  datatype Engine = Engine(
    ds: DesiredState,
    nextBlock: u64,
    sequence: u64,
    activation: u64,
    ownerActivation: Option<u64>,
    coverage: Option<BlockRef>,
    history: seq<BlockRef>,
    depth: nat,
    guard: Option<RollbackGuard>,
    maxDeliveryBytes: nat,
    limits: ResponseLimits,
    pending: Option<Pending>,
    queued: Option<Pending>)

  predicate HeadOk(head: Option<BlockRef>) {
    head.Some? ==> BlockRefOk(head.value)
  }

  predicate FlightOk(p: Option<Pending>) {
    p.Some? && p.value.delivery.cursor.Some? ==> HeadOk(p.value.delivery.cursor.value.canonicalHead)
  }

  /** Coverage, committed or in flight, names well-formed blocks. */
  predicate HeadsOk(e: Engine) {
    HeadOk(e.coverage) && FlightOk(e.pending) && FlightOk(e.queued)
  }

  /** What every engine operation keeps: a bounded linked history and well-formed
      coverage heads. */
  ghost predicate EngineOk(e: Engine) {
    e.depth >= 1 && Retained(e.history, e.depth) && HeadsOk(e)
  }

  // ----- Queries -----

  type pos = n: int | n >= 1 witness 1

  datatype QueryLimits = QueryLimits(maxBlocks: pos, maxLogs: pos)

  function LimitsFor(fromBlock: u64, toBlockExcl: u64): QueryLimits {
    var span := if toBlockExcl > fromBlock then toBlockExcl - fromBlock else 0;
    QueryLimits(if span < 1 then 1 else if span > MAX_BLOCKS_PER_QUERY then MAX_BLOCKS_PER_QUERY else span, MAX_LOGS_PER_QUERY)
  }

  function HalfUp(n: pos): pos {
    (n + 1) / 2
  }

  /** Halves both targets, unless both are already one. */
  function Shrink(l: QueryLimits): Option<QueryLimits> {
    if l.maxBlocks == 1 && l.maxLogs == 1 then None else Some(QueryLimits(HalfUp(l.maxBlocks), HalfUp(l.maxLogs)))
  }

  predicate CountsOk(env: Env, page: Page, limits: ResponseLimits) {
    |page.blocks| <= limits.maxBlocks && |page.logs| <= limits.maxLogs && env.dynamicBytes(page) <= limits.maxDynamicBytes
  }

  /** A provider answer, admitted only when bounded, progressing and valid. */
  ghost function Admit(env: Env, e: Engine, query: QueryPlan.Query, from: u64, to: u64): Result<Page, EngineError> {
    var page := env.provider(query);
    if page.None? then Err(SourceFailed)
    else if !CountsOk(env, page.value, e.limits) then Err(ResponseLimitExceeded)
    else if page.value.nextBlock <= from then Err(NoProgress(from, page.value.nextBlock))
    else if !PageOk(page.value, from, to) then Err(InvalidPage)
    else Ok(page.value)
  }

  ghost function QueryPage(env: Env, e: Engine, from: u64, to: u64, l: QueryLimits): Result<Page, EngineError> {
    var query := QueryPlan.Compile(e.ds.owners, from, Some(to), l.maxBlocks, l.maxLogs);
    if query.Err? then Err(PlanFailed(query.error)) else Admit(env, e, query.value, from, to)
  }

  /** One block by number, without any log. */
  function BlockQuery(number: u64): QueryPlan.Query
    requires number < U64_MAX
  {
    QueryPlan.Query(number, Some(number + 1), 1, 1, [], false)
  }

  lemma OneBlock(page: Page, number: u64)
    requires number < U64_MAX && PageOk(page, number, number + 1) && page.nextBlock > number
    ensures |page.blocks| == 1 && BlockFieldsOk(page.blocks[0]) && RefOf(page.blocks[0]).number == number
  {
    assert Refs(page.blocks)[0] == RefOf(page.blocks[0]);
  }

  ghost function Probe(env: Env, e: Engine, number: u64): Result<BlockRef, EngineError> {
    if number == U64_MAX then Err(EngineError.BlockNumberOverflow)
    else
      var page := Admit(env, e, BlockQuery(number), number, number + 1);
      if page.Err? then Err(page.error)
      else
        OneBlock(page.value, number);
        Ok(RefOf(page.value.blocks[0]))
  }

  /** The block below a guarded first page, fetched while nothing is retained. */
  ghost function AnchorFor(env: Env, e: Engine, page: Page): Result<Option<BlockRef>, EngineError> {
    if e.history != [] || page.guard.None? || page.guard.value.firstBlockNumber == 0 then Ok(None)
    else
      var g := page.guard.value;
      var anchor := Probe(env, e, g.firstBlockNumber - 1);
      if anchor.Err? then Err(anchor.error)
      else if anchor.value.hash != g.firstParentHash
      then Err(CanonicalFailed(UnknownParent(g.firstBlockNumber, g.firstParentHash)))
      else Ok(Some(anchor.value))
  }

  predicate RollbackDetected(e: Engine, page: Page) {
    && e.guard.Some? && page.guard.Some?
    && page.guard.value.firstBlockNumber <= SaturatingSuccessor(e.guard.value.blockNumber)
    && page.guard.value.firstParentHash != e.guard.value.hash
  }

  // ----- Preparing a delivery -----

  datatype Prepared = Prepared(delivery: Delivery, guard: Option<RollbackGuard>, history: seq<BlockRef>, reorg: Option<ReorgDelta>)

  predicate BoundaryUntracked(e: Engine) {
    e.coverage.Some? && (e.history == [] || e.nextBlock <= e.coverage.value.number)
  }

  /** The durable coverage head agrees with the rows around it. */
  predicate CoverageAgrees(coverage: Option<BlockRef>, refs: seq<BlockRef>, anchor: Option<BlockRef>) {
    coverage.Some? ==>
      var c := coverage.value;
      var observed := OrElse(Find(refs, c.number), if anchor.Some? && anchor.value.number == c.number then anchor else None);
      && (observed.Some? ==> observed.value == c)
      && (refs != [] && refs[0].number == SaturatingSuccessor(c.number) ==> refs[0].parentHash == c.hash)
  }

  /** The history a page is applied to: an empty one starts at the anchor. */
  function StartOf(history: seq<BlockRef>, depth: nat, anchor: Option<BlockRef>): Result<seq<BlockRef>, CanonicalError> {
    if history == [] && anchor.Some? then
      var r := Apply(history, depth, [anchor.value]);
      if r.Err? then Err(r.error) else Ok(r.value.blocks)
    else Ok(history)
  }

  /** Replaces an empty data payload by a scan-progress barrier. */
  function OrBarrier(e: Engine, d: Delivery): Delivery
    requires d.cursor.Some?
  {
    if d.payload == Some(Data([])) then
      var head := d.cursor.value.canonicalHead;
      var at := if head == e.coverage then None else head;
      d.(payload := Some(Barrier(ProgressId(e.ds.newRevision, d.cursor.value.nextBlock), at)), checkpointNeutral := at.None?)
    else d
  }

  /** The normalized delivery with the engine's own cursor metadata. */
  function Stamped(e: Engine, d: Delivery, checkpoint: Bytes): Delivery
    requires d.cursor.Some?
  {
    var c := d.cursor.value;
    var head := OrElse(c.canonicalHead, e.coverage);
    OrBarrier(e, d.(cursor := Some(c.(providerCheckpoint := checkpoint, activationBoundary := e.ownerActivation, canonicalHead := head))))
  }

  function Prepare(e: Engine, page: Page, sequence: u64, anchor: Option<BlockRef>): Result<Prepared, EngineError> {
    if !AllFieldsOk(page.blocks) then Err(NormalizeFailed(MalformedBlock))
    else
      var refs := Refs(page.blocks);
      if (anchor.Some? || BoundaryUntracked(e)) && !CoverageAgrees(e.coverage, refs, anchor) then Err(CoverageBoundaryConflict(e.coverage.value.number))
      else
        var normalized := NormalizeAt(e.ds, sequence, page, e.activation);
        if normalized.Err? then Err(NormalizeFailed(normalized.error))
        else
          var start := StartOf(e.history, e.depth, anchor);
          if start.Err? then Err(CanonicalFailed(start.error))
          else
            var applied := Apply(start.value, e.depth, refs);
            if applied.Err? then Err(CanonicalFailed(applied.error))
            else
              var checkpoint := Encode(page.guard, e.activation, applied.value.blocks);
              if checkpoint.Err? then Err(CheckpointFailed(checkpoint.error))
              else Ok(Prepared(Stamped(e, normalized.value, checkpoint.value), page.guard, applied.value.blocks, applied.value.reorg))
  }

  // ----- Fork recovery -----

  /** Every height of the interval is retained. */
  ghost predicate Inside(history: seq<BlockRef>, low: int, high: int) {
    Contiguous(history) && (low <= high ==> history != [] && history[0].number <= low && high < history[0].number + |history|)
  }

  ghost function RetainedAt(history: seq<BlockRef>, number: int): BlockRef
    requires Inside(history, number, number)
  {
    FindContiguous(history, number);
    Find(history, number).value
  }

  /** Binary search for the last retained height the provider still agrees with. */
  ghost function Search(env: Env, e: Engine, low: int, high: int, best: Option<u64>): Result<Option<u64>, EngineError>
    requires 0 <= low && high <= U64_MAX && Inside(e.history, low, high)
    decreases high - low
  {
    if low > high then Ok(best)
    else
      var candidate := low + (high - low) / 2;
      var observed := Probe(env, e, candidate);
      var expected := RetainedAt(e.history, candidate);
      if observed.Err? then Err(observed.error)
      else if observed.value.hash == expected.hash then
        if observed.value != expected then Err(CanonicalFailed(ConflictingBlockMetadata(candidate)))
        else Search(env, e, candidate + 1, high, Some(candidate))
      else if candidate == 0 then Ok(best)
      else Search(env, e, low, candidate - 1, best)
  }

  /** The newest height worth probing. */
  function Newest(e: Engine): u64
    requires e.history != [] && e.guard.Some?
  {
    var tip := e.history[|e.history| - 1].number;
    if tip <= e.guard.value.blockNumber then tip else e.guard.value.blockNumber
  }

  lemma ProbesInside(e: Engine)
    requires EngineOk(e) && e.history != [] && e.guard.Some?
    ensures Inside(e.history, e.history[0].number, Newest(e))
  {
    LinkedContiguous(e.history);
  }

  /** The greatest retained height the search confirms. */
  ghost function CommonAncestor(env: Env, e: Engine): Result<u64, EngineError>
    requires EngineOk(e) && e.guard.Some?
  {
    if e.history == [] then Err(CanonicalFailed(HistoryExhausted(e.guard.value.blockNumber)))
    else
      ProbesInside(e);
      var oldest := e.history[0].number;
      var found := Search(env, e, oldest, Newest(e), None);
      if found.Err? then Err(found.error)
      else if found.value.None? then Err(CanonicalFailed(HistoryExhausted(if oldest == 0 then 0 else oldest - 1)))
      else Ok(found.value.value)
  }

  ghost function Recover(env: Env, e: Engine, to: u64, sequence: u64, l: QueryLimits): Result<Prepared, EngineError>
    requires EngineOk(e)
  {
    if e.guard.None? then Err(MissingRollbackGuard)
    else
      var ancestor := CommonAncestor(env, e);
      if ancestor.Err? then Err(ancestor.error)
      else if ancestor.value == U64_MAX then Err(EngineError.BlockNumberOverflow)
      else
        var page := QueryPage(env, e, ancestor.value + 1, to, l);
        if page.Err? then Err(page.error) else Prepare(e, page.value, sequence, None)
  }

  // ----- The next batch -----

  /** Retries with smaller provider targets until the delivery fits. */
  ghost function Attempt(env: Env, e: Engine, to: u64, sequence: u64, l: QueryLimits, anchor: Option<BlockRef>): Result<Prepared, EngineError>
    requires EngineOk(e)
    decreases l.maxBlocks + l.maxLogs
  {
    var page := QueryPage(env, e, e.nextBlock, to, l);
    if page.Err? then Err(page.error)
    else
      var below := if anchor.Some? then Ok(anchor) else AnchorFor(env, e, page.value);
      if below.Err? then Err(below.error)
      else
        var prepared :=
          if RollbackDetected(e, page.value) then Recover(env, e, to, sequence, l)
          else Prepare(e, page.value, sequence, below.value);
        if prepared.Err? then prepared
        else if env.encodedLen(prepared.value.delivery) <= e.maxDeliveryBytes then prepared
        else
          var smaller := Shrink(l);
          if smaller.None? then Err(DeliveryTooLarge)
          else Attempt(env, e, to, sequence, smaller.value, below.value)
  }

  function Renumber(d: Delivery, sequence: u64): Result<Delivery, EngineError> {
    if d.cursor.None? then Err(MissingCursor)
    else Ok(d.(sequence := sequence, token := Token(sequence), cursor := Some(d.cursor.value.(batchSequence := sequence))))
  }

  /** A guard that describes a single block. */
  function GuardAt(b: BlockRef): Result<RollbackGuard, EngineError> {
    if |b.hash| != 32 then Err(CanonicalFailed(CanonicalError.InvalidHashWidth(|b.hash|)))
    else if |b.parentHash| != 32 then Err(CanonicalFailed(CanonicalError.InvalidHashWidth(|b.parentHash|)))
    else if b.timestamp > I64_MAX then Err(BlockTimestampOverflow(b.timestamp))
    else Ok(RollbackGuard(b.number, b.timestamp, b.hash, b.number, b.parentHash))
  }

  /** The leading blocks at or below a height. */
  function UpTo(s: seq<BlockRef>, number: u64): seq<BlockRef> {
    if s == [] || s[0].number > number then [] else [s[0]] + UpTo(s[1..], number)
  }

  function ReorgControl(e: Engine, sequence: u64, delta: ReorgDelta): Result<Delivery, EngineError> {
    if delta.commonAncestor.number == U64_MAX then Err(EngineError.BlockNumberOverflow)
    else
      var g := GuardAt(delta.commonAncestor);
      if g.Err? then Err(g.error)
      else
        var checkpoint := Encode(Some(g.value), e.activation, UpTo(e.history, delta.commonAncestor.number));
        if checkpoint.Err? then Err(CheckpointFailed(checkpoint.error))
        else
          var cursor := Cursor(e.ds.chainId, e.ds.newRevision, delta.commonAncestor.number + 1, Some(delta.commonAncestor),
                               sequence, checkpoint.value, e.ownerActivation);
          Ok(Delivery(e.ds.sessionId, sequence, e.ds.newRevision, Token(sequence), Some(cursor),
                      Some(Reorg(Some(delta.commonAncestor), Some(delta.oldTip), Some(delta.newTip))), false))
  }

  datatype Step = Step(engine: Engine, emitted: Option<Delivery>)

  /** Commits a prepared page: directly, or behind a reorg control. */
  function Stage(env: Env, e: Engine, sequence: u64, p: Prepared): Result<Step, EngineError> {
    if p.reorg.None? then
      Ok(Step(e.(history := p.history, pending := Some(Pending(p.delivery, p.guard, true))), Some(p.delivery)))
    else
      var delta := p.reorg.value;
      if !CanonicalAt(e.ds, delta.oldTip.number, e.activation) then Err(OwnerCatchupReorg)
      else if sequence == U64_MAX then Err(SequenceExhausted)
      else
        var replacement := Renumber(p.delivery, sequence + 1);
        if replacement.Err? then Err(replacement.error)
        else
          var control := ReorgControl(e, sequence, delta);
          if control.Err? then Err(control.error)
          else if env.encodedLen(control.value) > e.maxDeliveryBytes then Err(DeliveryTooLarge)
          else
            var queued := Some(Pending(replacement.value, p.guard, true));
            Ok(Step(e.(history := p.history, queued := queued, pending := Some(Pending(control.value, e.guard, false))), Some(control.value)))
  }

  ghost function Produce(env: Env, e: Engine, to: u64): Result<Step, EngineError>
    requires EngineOk(e)
  {
    if e.pending.Some? then Ok(Step(e, Some(e.pending.value.delivery)))
    else if e.nextBlock >= to then Ok(Step(e, None))
    else if e.sequence == U64_MAX then Err(SequenceExhausted)
    else
      var prepared := Attempt(env, e, to, e.sequence + 1, LimitsFor(e.nextBlock, to), None);
      if prepared.Err? then Err(prepared.error) else Stage(env, e, e.sequence + 1, prepared.value)
  }

  function Commit(e: Engine, token: Bytes): Result<Engine, EngineError> {
    if e.pending.None? then Err(NoPendingDelivery)
    else
      var p := e.pending.value;
      if p.delivery.token != token then Err(DeliveryTokenMismatch)
      else if p.delivery.cursor.None? then Err(MissingCursor)
      else
        var c := p.delivery.cursor.value;
        var moved := if p.advances then e.(nextBlock := c.nextBlock, guard := p.guard) else e;
        Ok(moved.(sequence := p.delivery.sequence, coverage := c.canonicalHead, pending := e.queued, queued := None))
  }

  function AcknowledgeControl(e: Engine, sequence: u64): Result<Engine, EngineError> {
    if e.pending.Some? then Err(PendingDelivery)
    else if sequence < e.sequence then Err(SequenceRegression(e.sequence, sequence))
    else Ok(e.(sequence := sequence))
  }

  // ----- Restart -----

  datatype Resume = Resume(
    nextBlock: u64,
    sequence: u64,
    activation: u64,
    ownerActivation: Option<u64>,
    blocks: seq<BlockRef>,
    guard: Option<RollbackGuard>,
    coverage: Option<BlockRef>)

  /** The guard describes the retained tip, and the cursor its successor. */
  function ResumeGuard(history: seq<BlockRef>, nextBlock: u64, guard: Option<RollbackGuard>): Result<Option<RollbackGuard>, EngineError> {
    if guard.Some? && guard.value.firstBlockNumber > guard.value.blockNumber then Err(ResumeGuardMismatch)
    else if history == [] then
      if guard.None? then Ok(None)
      else if guard.value.timestamp < 0 then Err(ResumeGuardMismatch)
      else if guard.value.blockNumber == U64_MAX then Err(EngineError.BlockNumberOverflow)
      else if nextBlock != guard.value.blockNumber + 1 then Err(ResumeCursorMismatch(guard.value.blockNumber + 1, nextBlock))
      else Ok(guard)
    else
      var tip := history[|history| - 1];
      if tip.number == U64_MAX then Err(EngineError.BlockNumberOverflow)
      else if nextBlock != tip.number + 1 then Err(ResumeCursorMismatch(tip.number + 1, nextBlock))
      else if guard.None? then
        var g := GuardAt(tip);
        if g.Err? then Err(g.error) else Ok(Some(g.value))
      else if guard.value.blockNumber != tip.number || guard.value.hash != tip.hash then Err(ResumeGuardMismatch)
      else if tip.timestamp > I64_MAX then Err(BlockTimestampOverflow(tip.timestamp))
      else if guard.value.timestamp != tip.timestamp then Err(ResumeGuardMismatch)
      else Ok(guard)
  }

  /** Why a coverage head does not fit the cursor and the retained chain. */
  function CoverageError(history: seq<BlockRef>, nextBlock: u64, coverage: Option<BlockRef>): Option<EngineError> {
    if coverage.None? then None
    else
      var c := coverage.value;
      if WidthError(c).Some? then Some(CanonicalFailed(WidthError(c).value))
      else if c.number == U64_MAX then Some(EngineError.BlockNumberOverflow)
      else if nextBlock > c.number + 1 then Some(CoverageCursorMismatch(c.number + 1, nextBlock))
      else if Find(history, c.number).Some? && Find(history, c.number).value != c then Some(CoverageBoundaryConflict(c.number))
      else None
  }

  function Restore(ds: DesiredState, resume: Resume, depth: nat): Result<Engine, EngineError> {
    var bound := if depth == 0 then 1 else depth;
    var applied := Apply([], bound, resume.blocks);
    if resume.blocks != [] && applied.Err? then Err(CanonicalFailed(applied.error))
    else
      var history := if resume.blocks == [] then [] else applied.value.blocks;
      var guard := ResumeGuard(history, resume.nextBlock, resume.guard);
      if guard.Err? then Err(guard.error)
      else if CoverageError(history, resume.nextBlock, resume.coverage).Some?
      then Err(CoverageError(history, resume.nextBlock, resume.coverage).value)
      else Ok(Engine(ds, resume.nextBlock, resume.sequence, resume.activation, resume.ownerActivation, resume.coverage,
                     history, bound, guard.value, MAX_DELIVERY_SIZE_BYTES, DEFAULT_LIMITS, None, None))
  }

  function Synchronize(e: Engine, resume: Resume): Result<Engine, EngineError> {
    if e.pending.Some? then Err(PendingDelivery)
    else if resume.sequence < e.sequence then Err(SequenceRegression(e.sequence, resume.sequence))
    else
      var applied := Apply([], e.depth, resume.blocks);
      if applied.Err? then Err(CanonicalFailed(applied.error))
      else
        var history := applied.value.blocks;
        var guard := ResumeGuard(history, resume.nextBlock, resume.guard);
        if guard.Err? then Err(guard.error)
        else if CoverageError(history, resume.nextBlock, resume.coverage).Some?
        then Err(CoverageError(history, resume.nextBlock, resume.coverage).value)
        else Ok(e.(history := history, nextBlock := resume.nextBlock, sequence := resume.sequence, activation := resume.activation,
                   guard := guard.value, coverage := resume.coverage, ownerActivation := resume.ownerActivation))
  }

  // ----- What every operation keeps -----

  lemma EmptyRetained(depth: nat)
    ensures Retained([], depth)
  {
  }

  lemma AppliedRetained(s: seq<BlockRef>, depth: nat, blocks: seq<BlockRef>)
    requires depth >= 1 && Retained(s, depth)
    ensures Apply(s, depth, blocks).Ok? ==> Retained(Apply(s, depth, blocks).value.blocks, depth)
  {
    ApplyMeaning(s, depth, blocks);
  }

  lemma {:induction false} CoveredHeadOk(ds: DesiredState, blocks: seq<RawBlock>, activation: u64)
    ensures HeadOk(CoveredHead(ds, blocks, activation))
  {
    if blocks != [] { CoveredHeadOk(ds, blocks[..|blocks| - 1], activation); }
  }

  lemma NormalizedHead(ds: DesiredState, sequence: u64, page: Page, activation: u64)
    requires NormalizeAt(ds, sequence, page, activation).Ok?
    ensures var c := NormalizeAt(ds, sequence, page, activation).value.cursor; c.Some? && HeadOk(c.value.canonicalHead)
  {
    CoveredHeadOk(ds, Ordering.StableSort(BlockLeq, page.blocks), activation);
    hide Events, CoveredHead, WithHead, RecordsOf, Ordering.StableSort;
  }

  /** What a prepared page adds to the engine is well formed. */
  ghost predicate PreparedOk(e: Engine, p: Prepared) {
    Retained(p.history, e.depth) && p.delivery.cursor.Some? && HeadOk(p.delivery.cursor.value.canonicalHead)
  }

  lemma PreparedKeeps(e: Engine, page: Page, sequence: u64, anchor: Option<BlockRef>)
    requires EngineOk(e)
    ensures var r := Prepare(e, page, sequence, anchor); r.Ok? ==> PreparedOk(e, r.value)
  {
    hide NormalizeAt, Apply, Encode, CoverageAgrees, Retained, ProgressId;
    if NormalizeAt(e.ds, sequence, page, e.activation).Ok? { NormalizedHead(e.ds, sequence, page, e.activation); }
    if AllFieldsOk(page.blocks) {
      if e.history == [] && anchor.Some? { AppliedRetained(e.history, e.depth, [anchor.value]); }
      var start := StartOf(e.history, e.depth, anchor);
      if start.Ok? { AppliedRetained(start.value, e.depth, Refs(page.blocks)); }
    }
  }

  lemma {:induction false} AttemptKeeps(env: Env, e: Engine, to: u64, sequence: u64, l: QueryLimits, anchor: Option<BlockRef>)
    requires EngineOk(e)
    ensures var r := Attempt(env, e, to, sequence, l, anchor); r.Ok? ==> PreparedOk(e, r.value)
    decreases l.maxBlocks + l.maxLogs
  {
    hide QueryPage, AnchorFor, RollbackDetected, CommonAncestor, Prepare, PreparedOk;
    var page := QueryPage(env, e, e.nextBlock, to, l);
    if page.Ok? {
      var below := if anchor.Some? then Ok(anchor) else AnchorFor(env, e, page.value);
      if below.Ok? {
        PreparedKeeps(e, page.value, sequence, below.value);
        if e.guard.Some? && CommonAncestor(env, e).Ok? && CommonAncestor(env, e).value < U64_MAX {
          var again := QueryPage(env, e, CommonAncestor(env, e).value + 1, to, l);
          if again.Ok? { PreparedKeeps(e, again.value, sequence, None); }
        }
        if Shrink(l).Some? { AttemptKeeps(env, e, to, sequence, Shrink(l).value, below.value); }
      }
    }
  }

  /** Every successful operation keeps the engine's invariant. */
  lemma NextBatchKeeps(env: Env, e: Engine, to: u64)
    requires EngineOk(e)
    ensures Produce(env, e, to).Ok? ==> EngineOk(Produce(env, e, to).value.engine)
  {
    hide Attempt, Retained, CanonicalAt, Encode, UpTo, Token;
    if e.sequence < U64_MAX { AttemptKeeps(env, e, to, e.sequence + 1, LimitsFor(e.nextBlock, to), None); }
  }

  lemma CoverageChecked(history: seq<BlockRef>, nextBlock: u64, coverage: Option<BlockRef>)
    requires CoverageError(history, nextBlock, coverage).None?
    ensures HeadOk(coverage)
  {
  }

  lemma RestoreKeeps(ds: DesiredState, resume: Resume, depth: nat)
    ensures Restore(ds, resume, depth).Ok? ==> EngineOk(Restore(ds, resume, depth).value)
  {
    hide Retained, Apply, ResumeGuard, CoverageError;
    var bound := if depth == 0 then 1 else depth;
    EmptyRetained(bound);
    AppliedRetained([], bound, resume.blocks);
    if Restore(ds, resume, depth).Ok? {
      CoverageChecked(Restore(ds, resume, depth).value.history, resume.nextBlock, resume.coverage);
    }
  }

  lemma SynchronizeKeeps(e: Engine, resume: Resume)
    requires EngineOk(e)
    ensures Synchronize(e, resume).Ok? ==> EngineOk(Synchronize(e, resume).value)
  {
    hide Retained, Apply, ResumeGuard, CoverageError;
    EmptyRetained(e.depth);
    AppliedRetained([], e.depth, resume.blocks);
    if Synchronize(e, resume).Ok? { CoverageChecked(Synchronize(e, resume).value.history, resume.nextBlock, resume.coverage); }
  }

  // ----- The engine as it runs -----

  method AdmitPage(env: Env, e: Engine, query: QueryPlan.Query, from: u64, to: u64) returns (r: Result<Page, EngineError>)
    ensures r == Admit(env, e, query, from, to)
  {
    hide PageOk;
    var page := env.provider(query);
    if page.None? { return Err(SourceFailed); }
    if !CountsOk(env, page.value, e.limits) { return Err(ResponseLimitExceeded); }
    if page.value.nextBlock <= from { return Err(NoProgress(from, page.value.nextBlock)); }
    var valid := ValidateSourcePage(page.value, from, to);
    if !valid { return Err(InvalidPage); }
    r := Ok(page.value);
  }

  method FetchPage(env: Env, e: Engine, from: u64, to: u64, l: QueryLimits) returns (r: Result<Page, EngineError>)
    ensures r == QueryPage(env, e, from, to, l)
  {
    hide QueryPlan.Compile, Admit;
    var query := QueryPlan.CompileQuery(e.ds.owners, from, Some(to), l.maxBlocks, l.maxLogs);
    if query.Err? { return Err(PlanFailed(query.error)); }
    r := AdmitPage(env, e, query.value, from, to);
  }

  lemma AdmittedIsValid(env: Env, e: Engine, query: QueryPlan.Query, from: u64, to: u64)
    requires Admit(env, e, query, from, to).Ok?
    ensures var page := Admit(env, e, query, from, to).value; PageOk(page, from, to) && page.nextBlock > from
  {
  }

  method ProbeBlock(env: Env, e: Engine, number: u64) returns (r: Result<BlockRef, EngineError>)
    ensures r == Probe(env, e, number)
  {
    if number == U64_MAX { return Err(EngineError.BlockNumberOverflow); }
    hide Admit, PageOk, BlockFieldsOk;
    var page := AdmitPage(env, e, BlockQuery(number), number, number + 1);
    if page.Err? { return Err(page.error); }
    AdmittedIsValid(env, e, BlockQuery(number), number, number + 1);
    OneBlock(page.value, number);
    r := Ok(RefOf(page.value.blocks[0]));
  }

  method FetchAnchor(env: Env, e: Engine, page: Page) returns (r: Result<Option<BlockRef>, EngineError>)
    ensures r == AnchorFor(env, e, page)
  {
    hide Probe;
    if e.history != [] || page.guard.None? || page.guard.value.firstBlockNumber == 0 { return Ok(None); }
    var g := page.guard.value;
    var anchor := ProbeBlock(env, e, g.firstBlockNumber - 1);
    if anchor.Err? { return Err(anchor.error); }
    if anchor.value.hash != g.firstParentHash {
      return Err(CanonicalFailed(UnknownParent(g.firstBlockNumber, g.firstParentHash)));
    }
    r := Ok(Some(anchor.value));
  }

  function Pow2(k: nat): nat {
    if k == 0 then 1 else 2 * Pow2(k - 1)
  }

  /** The bits of a number, one per halving: the k with 2^(k-1) <= n < 2^k. */
  function BitLength(n: nat): (k: nat)
    ensures n < Pow2(k) && (n > 0 ==> k > 0 && Pow2(k - 1) <= n)
  {
    if n == 0 then 0 else 1 + BitLength(n / 2)
  }

  lemma BitLengthHalves(n: nat)
    requires n > 0
    ensures BitLength(n) == 1 + BitLength(n / 2)
  {
    hide Pow2;
  }

  lemma {:induction false} BitLengthGrows(m: nat, n: nat)
    requires m <= n
    ensures BitLength(m) <= BitLength(n)
  {
    if m > 0 { BitLengthGrows(m / 2, n / 2); }
  }

  /** Probes left for an interval of heights. */
  function Width(low: int, high: int): nat {
    if low <= high then BitLength(high - low + 1) else 0
  }

  lemma WidthHalves(low: int, high: int, candidate: int)
    requires low <= high && candidate == low + (high - low) / 2
    ensures 1 + Width(candidate + 1, high) <= Width(low, high)
    ensures 1 + Width(low, candidate - 1) <= Width(low, high)
  {
    hide Pow2, BitLength;
    var half := (high - low + 1) / 2;
    BitLengthHalves(high - low + 1);
    BitLengthGrows(high - candidate, half);
    BitLengthGrows(candidate - low, half);
  }

  lemma SearchStep(env: Env, e: Engine, low: int, high: int, best: Option<u64>)
    requires 0 <= low <= high <= U64_MAX && Inside(e.history, low, high)
    ensures var candidate := low + (high - low) / 2;
            var observed := Probe(env, e, candidate);
            var expected := Find(e.history, candidate);
            && expected.Some?
            && Inside(e.history, candidate + 1, high) && Inside(e.history, low, candidate - 1)
            && Search(env, e, low, high, best) ==
               if observed.Err? then Err(observed.error)
               else if observed.value.hash == expected.value.hash then
                 if observed.value != expected.value then Err(CanonicalFailed(ConflictingBlockMetadata(candidate)))
                 else Search(env, e, candidate + 1, high, Some(candidate))
               else if candidate == 0 then Ok(best)
               else Search(env, e, low, candidate - 1, best)
  {
    hide Probe, Find, Contiguous;
    FoundInside(e.history, low + (high - low) / 2);
  }

  /** The binary search over retained heights: at most as many provider
      probes as their number has bits. */
  method FindAncestor(env: Env, e: Engine, oldest: u64, newest: u64) returns (r: Result<Option<u64>, EngineError>, probes: nat)
    requires Inside(e.history, oldest, newest)
    ensures r == Search(env, e, oldest, newest, None)
    ensures probes <= if oldest <= newest then BitLength(newest - oldest + 1) else 0
  {
    hide Probe, Find, Inside, Search, BitLength;
    var low: int, high: int := oldest, newest;
    var best: Option<u64> := None;
    probes := 0;
    while low <= high
      invariant 0 <= low && high <= U64_MAX && Inside(e.history, low, high)
      invariant Search(env, e, oldest, newest, None) == Search(env, e, low, high, best)
      invariant probes + Width(low, high) <= Width(oldest, newest)
      decreases high - low
    {
      var candidate: u64 := low + (high - low) / 2;
      SearchStep(env, e, low, high, best);
      WidthHalves(low, high, candidate);
      var observed := ProbeBlock(env, e, candidate);
      probes := probes + 1;
      if observed.Err? { return Err(observed.error), probes; }
      var expected := Find(e.history, candidate);
      if observed.value.hash == expected.value.hash {
        if observed.value != expected.value {
          return Err(CanonicalFailed(ConflictingBlockMetadata(candidate))), probes;
        }
        best := Some(candidate);
        low := candidate + 1;
      } else if candidate == 0 {
        return Ok(best), probes;
      } else {
        high := candidate - 1;
      }
    }
    SearchDone(env, e, low, high, best);
    r := Ok(best);
  }

  lemma SearchDone(env: Env, e: Engine, low: int, high: int, best: Option<u64>)
    requires 0 <= low && high < low && high <= U64_MAX && Inside(e.history, low, high)
    ensures Search(env, e, low, high, best) == Ok(best)
  {
  }

  lemma FoundInside(history: seq<BlockRef>, number: int)
    requires Inside(history, number, number)
    ensures Find(history, number) == Some(RetainedAt(history, number))
  {
    FindContiguous(history, number);
  }

  method PrepareBatch(e: Engine, page: Page, sequence: u64, anchor: Option<BlockRef>) returns (r: Result<Prepared, EngineError>)
    ensures r == Prepare(e, page, sequence, anchor)
  {
    hide NormalizeAt, Apply, Encode, Stamped, CoverageAgrees;
    if !AllFieldsOk(page.blocks) { return Err(NormalizeFailed(MalformedBlock)); }
    var refs := Refs(page.blocks);
    if (anchor.Some? || BoundaryUntracked(e)) && !CoverageAgrees(e.coverage, refs, anchor) {
      CoverageNamed(e.coverage, refs, anchor);
      return Err(CoverageBoundaryConflict(e.coverage.value.number));
    }
    var normalized := NormalizePage(e.ds, sequence, page, e.activation);
    if normalized.Err? { return Err(NormalizeFailed(normalized.error)); }
    var start := StartOf(e.history, e.depth, anchor);
    if start.Err? { return Err(CanonicalFailed(start.error)); }
    var applied := Apply(start.value, e.depth, refs);
    if applied.Err? { return Err(CanonicalFailed(applied.error)); }
    var checkpoint := EncodeSourceCheckpoint(page.guard, e.activation, applied.value.blocks);
    if checkpoint.Err? { return Err(CheckpointFailed(checkpoint.error)); }
    NormalizedHasCursor(e.ds, sequence, page, e.activation);
    r := Ok(Prepared(Stamped(e, normalized.value, checkpoint.value), page.guard, applied.value.blocks, applied.value.reorg));
  }

  lemma CoverageNamed(coverage: Option<BlockRef>, refs: seq<BlockRef>, anchor: Option<BlockRef>)
    requires !CoverageAgrees(coverage, refs, anchor)
    ensures coverage.Some?
  {
  }

  lemma NormalizedHasCursor(ds: DesiredState, sequence: u64, page: Page, activation: u64)
    ensures var r := NormalizeAt(ds, sequence, page, activation); r.Ok? ==> r.value.cursor.Some?
  {
  }

  method RecoverRollback(env: Env, e: Engine, to: u64, sequence: u64, l: QueryLimits) returns (r: Result<Prepared, EngineError>)
    requires EngineOk(e)
    ensures r == Recover(env, e, to, sequence, l)
  {
    hide EngineOk, Search, QueryPage, Prepare;
    if e.guard.None? { return Err(MissingRollbackGuard); }
    if e.history == [] { return Err(CanonicalFailed(HistoryExhausted(e.guard.value.blockNumber))); }
    ProbesInside(e);
    var oldest := e.history[0].number;
    var found, probes := FindAncestor(env, e, oldest, Newest(e));
    if found.Err? { return Err(found.error); }
    if found.value.None? { return Err(CanonicalFailed(HistoryExhausted(if oldest == 0 then 0 else oldest - 1))); }
    var ancestor := found.value.value;
    if ancestor == U64_MAX { return Err(EngineError.BlockNumberOverflow); }
    var page := FetchPage(env, e, ancestor + 1, to, l);
    if page.Err? { return Err(page.error); }
    r := PrepareBatch(e, page.value, sequence, None);
  }

  /** The retry loop: halve the provider targets while the delivery is too large. */
  method PrepareFitting(env: Env, e: Engine, to: u64, sequence: u64) returns (r: Result<Prepared, EngineError>)
    requires EngineOk(e)
    ensures r == Attempt(env, e, to, sequence, LimitsFor(e.nextBlock, to), None)
  {
    hide EngineOk, QueryPage, AnchorFor, RollbackDetected, Recover, Prepare;
    var l := LimitsFor(e.nextBlock, to);
    var anchor: Option<BlockRef> := None;
    while true
      invariant Attempt(env, e, to, sequence, LimitsFor(e.nextBlock, to), None) == Attempt(env, e, to, sequence, l, anchor)
      decreases l.maxBlocks + l.maxLogs
    {
      var page := FetchPage(env, e, e.nextBlock, to, l);
      if page.Err? { return Err(page.error); }
      if anchor.None? {
        var below := FetchAnchor(env, e, page.value);
        if below.Err? { return Err(below.error); }
        anchor := below.value;
      }
      if RollbackDetected(e, page.value) {
        r := RecoverRollback(env, e, to, sequence, l);
      } else {
        r := PrepareBatch(e, page.value, sequence, anchor);
      }
      if r.Err? || env.encodedLen(r.value.delivery) <= e.maxDeliveryBytes { return; }
      var smaller := Shrink(l);
      if smaller.None? { return Err(DeliveryTooLarge); }
      l := smaller.value;
    }
  }

  /** Staging touches the retained chain and the two delivery slots only. */
  lemma StageFrame(env: Env, e: Engine, sequence: u64, p: Prepared)
    requires Stage(env, e, sequence, p).Ok?
    ensures var after := Stage(env, e, sequence, p).value.engine;
            after == e.(history := after.history, queued := after.queued, pending := after.pending)
  {
    hide CanonicalAt, ReorgControl;
  }

  lemma ProduceFrame(env: Env, e: Engine, to: u64)
    requires EngineOk(e) && Produce(env, e, to).Ok?
    ensures var after := Produce(env, e, to).value.engine;
            after == e.(history := after.history, queued := after.queued, pending := after.pending)
  {
    hide Attempt, Stage;
    if e.pending.None? && e.nextBlock < to {
      StageFrame(env, e, e.sequence + 1, Attempt(env, e, to, e.sequence + 1, LimitsFor(e.nextBlock, to), None).value);
    }
  }

  /** What the engine would do next, before any field changes. */
  method Decide(env: Env, e: Engine, to: u64) returns (r: Result<Step, EngineError>)
    requires EngineOk(e)
    ensures r == Produce(env, e, to)
  {
    hide EngineOk, Attempt, Stage;
    if e.pending.Some? { return Ok(Step(e, Some(e.pending.value.delivery))); }
    if e.nextBlock >= to { return Ok(Step(e, None)); }
    if e.sequence == U64_MAX { return Err(SequenceExhausted); }
    var prepared := PrepareFitting(env, e, to, e.sequence + 1);
    if prepared.Err? { return Err(prepared.error); }
    r := Stage(env, e, e.sequence + 1, prepared.value);
  }

  class LiveEngine {
    const ds: DesiredState
    const depth: nat
    const maxDeliveryBytes: nat
    const limits: ResponseLimits
    var committedNextBlock: u64
    var committedSequence: u64
    var activationBlock: u64
    var ownerActivation: Option<u64>
    var coverageHead: Option<BlockRef>
    var canonical: seq<BlockRef>
    var previousGuard: Option<RollbackGuard>
    var pending: Option<Pending>
    var queued: Option<Pending>

    function State(): Engine
      reads this
    {
      Engine(ds, committedNextBlock, committedSequence, activationBlock, ownerActivation, coverageHead, canonical, depth,
             previousGuard, maxDeliveryBytes, limits, pending, queued)
    }

    ghost predicate Valid()
      reads this
    {
      EngineOk(State())
    }

    /** A fresh engine at an acknowledged block cursor. */
    constructor (ds: DesiredState, nextBlock: u64, activation: u64, reorgDepth: nat)
      ensures Valid()
      ensures State() == Engine(ds, nextBlock, 0, activation, Some(activation), None, [], if reorgDepth == 0 then 1 else reorgDepth,
                                None, MAX_DELIVERY_SIZE_BYTES, DEFAULT_LIMITS, None, None)
    {
      this.ds, depth := ds, if reorgDepth == 0 then 1 else reorgDepth;
      maxDeliveryBytes, limits := MAX_DELIVERY_SIZE_BYTES, DEFAULT_LIMITS;
      committedNextBlock, committedSequence, activationBlock := nextBlock, 0, activation;
      ownerActivation, coverageHead, canonical, previousGuard := Some(activation), None, [], None;
      pending, queued := None, None;
    }

    /** Replays the in-flight delivery, or stages the next one; a failure changes nothing. */
    method NextBatch(env: Env, to: u64) returns (r: Result<Option<Delivery>, EngineError>)
      requires Valid()
      modifies this`canonical, this`pending, this`queued
      ensures Valid()
      ensures match Produce(env, old(State()), to)
              case Ok(step) => State() == step.engine && r == Ok(step.emitted)
              case Err(error) => State() == old(State()) && r == Err(error)
    {
      NextBatchKeeps(env, State(), to);
      if Produce(env, State(), to).Ok? { ProduceFrame(env, State(), to); }
      hide EngineOk, Produce;
      var step := Decide(env, State(), to);
      if step.Err? { return Err(step.error); }
      var after := step.value.engine;
      canonical, queued, pending := after.history, after.queued, after.pending;
      r := Ok(step.value.emitted);
    }

    method Acknowledge(token: Bytes) returns (r: Result<(), EngineError>)
      requires Valid()
      modifies this
      ensures Valid()
      ensures match Commit(old(State()), token)
              case Ok(after) => State() == after && r == Ok(())
              case Err(error) => State() == old(State()) && r == Err(error)
    {
      if pending.None? { return Err(NoPendingDelivery); }
      var p := pending.value;
      if p.delivery.token != token { return Err(DeliveryTokenMismatch); }
      if p.delivery.cursor.None? { return Err(MissingCursor); }
      var cursor := p.delivery.cursor.value;
      if p.advances {
        committedNextBlock := cursor.nextBlock;
        previousGuard := p.guard;
      }
      committedSequence := p.delivery.sequence;
      coverageHead := cursor.canonicalHead;
      pending := queued;
      queued := None;
      r := Ok(());
    }

    method AcknowledgeExternalControl(sequence: u64) returns (r: Result<(), EngineError>)
      requires Valid()
      modifies this`committedSequence
      ensures Valid()
      ensures match AcknowledgeControl(old(State()), sequence)
              case Ok(after) => State() == after && r == Ok(())
              case Err(error) => State() == old(State()) && r == Err(error)
    {
      if pending.Some? { return Err(PendingDelivery); }
      if sequence < committedSequence { return Err(SequenceRegression(committedSequence, sequence)); }
      committedSequence := sequence;
      r := Ok(());
    }

    /** Validates the whole replacement before any field changes. */
    method SynchronizeCommittedCursor(resume: Resume) returns (r: Result<(), EngineError>)
      requires Valid()
      modifies this
      ensures Valid()
      ensures match Synchronize(old(State()), resume)
              case Ok(after) => State() == after && r == Ok(())
              case Err(error) => State() == old(State()) && r == Err(error)
    {
      SynchronizeKeeps(State(), resume);
      hide EngineOk, Apply, ResumeGuard, CoverageError;
      if pending.Some? { return Err(PendingDelivery); }
      if resume.sequence < committedSequence { return Err(SequenceRegression(committedSequence, resume.sequence)); }
      var applied := Apply([], depth, resume.blocks);
      if applied.Err? { return Err(CanonicalFailed(applied.error)); }
      var guard := ResumeGuard(applied.value.blocks, resume.nextBlock, resume.guard);
      if guard.Err? { return Err(guard.error); }
      var conflict := CoverageError(applied.value.blocks, resume.nextBlock, resume.coverage);
      if conflict.Some? { return Err(conflict.value); }
      canonical, committedNextBlock, committedSequence := applied.value.blocks, resume.nextBlock, resume.sequence;
      activationBlock, previousGuard := resume.activation, guard.value;
      coverageHead, ownerActivation := resume.coverage, resume.ownerActivation;
      r := Ok(());
    }
  }
}
