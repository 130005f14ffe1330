/** The block below a guarded first page, and the fork it makes recoverable
    (crates/hypersync/src/source_engine.rs, `query_canonical_anchor`, `prepare_batch`,
    `recover_rollback`). */
module Anchoring {
  import opened Protocol
  import opened Canonical
  import opened SourceCheckpoint
  import opened PageRules
  import opened Normalize
  import opened SourceEngine
  import opened ForkSearch
  import opened Handshake
  import opened Restart
  import QueryPlan

  /** The provider answers a query for the one block at a height with that block. */
  ghost predicate Reports(env: Env, e: Engine, n: u64, b: BlockRef) {
    && n < U64_MAX
    && var page := env.provider(QueryPlan.Query(n, Some(n + 1), 1, 1, [], false));
    && page.Some? && CountsOk(env, page.value, e.limits) && PageOk(page.value, n, n + 1) && page.value.nextBlock == n + 1
    && RefOf(page.value.blocks[0]) == b
  }

  lemma ProbeReports(env: Env, e: Engine, n: u64, b: BlockRef)
    ensures Reports(env, e, n, b) <==> Probe(env, e, n) == Ok(b)
  {
    hide LogsOk, GuardOk;
    if n < U64_MAX {
      var page := env.provider(BlockQuery(n));
      if page.Some? && PageOk(page.value, n, n + 1) && page.value.nextBlock > n { OneBlock(page.value, n); }
    }
  }

  /** Nothing is retained or in flight, and no earlier guard is held. */
  predicate Fresh(e: Engine) {
    e.history == [] && e.guard.None? && e.pending.None? && e.queued.None?
  }

  lemma GuardedFrom(page: Page, from: u64, to: u64)
    requires PageOk(page, from, to) && page.guard.Some?
    ensures page.guard.value.firstBlockNumber == from
  {
  }

  /** The first page of a fresh engine, as it is fetched. */
  ghost function First(env: Env, e: Engine, to: u64): Result<Page, EngineError> {
    QueryPage(env, e, e.nextBlock, to, LimitsFor(e.nextBlock, to))
  }

  /** With an anchor at hand every retry prepares its page above it. */
  lemma {:induction false} AnchoredAttempt(env: Env, e: Engine, to: u64, sequence: u64, l: QueryLimits, b: BlockRef) returns (page: Page)
    requires EngineOk(e) && Fresh(e) && b.number + 1 == e.nextBlock && Attempt(env, e, to, sequence, l, Some(b)).Ok?
    ensures PageOk(page, e.nextBlock, to) && page.nextBlock > e.nextBlock
    ensures Prepare(e, page, sequence, Some(b)) == Attempt(env, e, to, sequence, l, Some(b))
    decreases l.maxBlocks + l.maxLogs
  {
    hide QueryPage, AnchorFor, Recover, Prepare, PageOk, EngineOk;
    page := QueryPage(env, e, e.nextBlock, to, l).value;
    AdmittedPage(env, e, e.nextBlock, to, l);
    assert !RollbackDetected(e, page);
    if env.encodedLen(Prepare(e, page, sequence, Some(b)).value.delivery) > e.maxDeliveryBytes {
      page := AnchoredAttempt(env, e, to, sequence, Shrink(l).value, b);
    }
  }

  /** A retry with an anchor is the same as the first try that found it. */
  lemma FirstAttempt(env: Env, e: Engine, to: u64, sequence: u64, l: QueryLimits, b: BlockRef)
    requires EngineOk(e) && Fresh(e) && QueryPage(env, e, e.nextBlock, to, l).Ok?
    requires AnchorFor(env, e, QueryPage(env, e, e.nextBlock, to, l).value) == Ok(Some(b))
    ensures Attempt(env, e, to, sequence, l, None) == Attempt(env, e, to, sequence, l, Some(b))
  {
    hide QueryPage, AnchorFor, Recover, Prepare, EngineOk;
  }

  lemma AnchorIs(env: Env, e: Engine, page: Page, from: u64, to: u64, b: BlockRef)
    requires e.history == [] && PageOk(page, from, to) && page.guard.Some? && from > 0 && Reports(env, e, from - 1, b)
    ensures AnchorFor(env, e, page) ==
            if b.hash == page.guard.value.firstParentHash then Ok(Some(b))
            else Err(CanonicalFailed(UnknownParent(from, page.guard.value.firstParentHash)))
    ensures b.number + 1 == from
  {
    GuardedFrom(page, from, to);
    ProbeReports(env, e, from - 1, b);
    ReportedNumber(env, e, from - 1, b);
    hide PageOk, Probe, Reports;
  }

  lemma ReportedNumber(env: Env, e: Engine, n: u64, b: BlockRef)
    requires Reports(env, e, n, b)
    ensures b.number == n && BlockRefOk(b)
  {
    OneBlock(env.provider(BlockQuery(n)).value, n);
  }

  /** What the tracker makes of a page above its anchor. */
  lemma AnchoredHistory(depth: nat, b: BlockRef, refs: seq<BlockRef>)
    requires depth >= 1 && refs != [] && Apply([], depth, [b]).Ok? && refs[0].number == b.number + 1
    requires Apply(Apply([], depth, [b]).value.blocks, depth, refs).Ok?
    ensures Apply(Apply([], depth, [b]).value.blocks, depth, refs).value == Tracked(LastN([b] + refs, depth), None)
  {
    EmptyRetained(depth);
    ApplyMeaning([], depth, [b]);
    assert Agreeing([], [b]) == 0 && [b][0..] == [b];
    assert LastN(PopAbove([], b.number - 1) + [b], depth) == [b];
    ApplyMeaning([b], depth, refs);
    assert [b][1..] == [];
    assert Find([b], refs[0].number).None?;
    assert refs[0] !in [b] && Agreeing([b], refs) == 0 && refs[0..] == refs;
    assert PopAbove([b], refs[0].number - 1) == [b];
    hide Apply;
  }

  lemma AnchoredPrepare(e: Engine, page: Page, from: u64, to: u64, sequence: u64, b: BlockRef)
    requires EngineOk(e) && e.history == [] && PageOk(page, from, to) && page.nextBlock > from && b.number + 1 == from
    requires Prepare(e, page, sequence, Some(b)).Ok?
    ensures AllFieldsOk(page.blocks) && page.blocks != []
    ensures var p := Prepare(e, page, sequence, Some(b)).value;
            p.history == LastN([b] + Refs(page.blocks), e.depth) && p.reorg.None?
  {
    LastRowIs(page, from, to);
    FirstRow(page, from, to);
    PreparedApplies(e, page, sequence, Some(b));
    hide Prepare, PageOk, Apply, Retained, LastRow;
    AnchoredHistory(e.depth, b, Refs(page.blocks));
  }

  lemma FirstRow(page: Page, from: u64, to: u64)
    requires PageOk(page, from, to) && page.blocks != []
    ensures Refs(page.blocks)[0].number == from
  {
  }

  /** The poll is its first attempt, staged. */
  lemma PollIsAttempt(env: Env, e: Engine, to: u64)
    requires EngineOk(e) && e.pending.None? && e.nextBlock < to && e.sequence < U64_MAX
    ensures var a := Attempt(env, e, to, e.sequence + 1, LimitsFor(e.nextBlock, to), None);
            Produce(env, e, to) == if a.Err? then Err(a.error) else Stage(env, e, e.sequence + 1, a.value)
  {
    hide Attempt, Stage, EngineOk, LimitsFor;
  }

  /** The staged first page above an anchor. */
  ghost predicate AnchoredStep(env: Env, e: Engine, to: u64, b: BlockRef, page: Page)
    requires EngineOk(e) && e.sequence < U64_MAX
  {
    && PageOk(page, e.nextBlock, to) && page.nextBlock > e.nextBlock && AllFieldsOk(page.blocks) && page.blocks != []
    && b.number + 1 == e.nextBlock && Prepare(e, page, e.sequence + 1, Some(b)).Ok?
    && Produce(env, e, to) == Stage(env, e, e.sequence + 1, Prepare(e, page, e.sequence + 1, Some(b)).value)
    && Produce(env, e, to).Ok?
    && Produce(env, e, to).value.engine.history == LastN([b] + Refs(page.blocks), e.depth)
    && Produce(env, e, to).value.engine.queued.None?
  }

  lemma StagedAnchored(env: Env, e: Engine, to: u64, b: BlockRef, l: QueryLimits) returns (page: Page)
    requires EngineOk(e) && Fresh(e) && e.nextBlock < to && e.sequence < U64_MAX && l == LimitsFor(e.nextBlock, to) && b.number + 1 == e.nextBlock
    requires Attempt(env, e, to, e.sequence + 1, l, None) == Attempt(env, e, to, e.sequence + 1, l, Some(b))
    requires Produce(env, e, to).Ok?
    ensures AnchoredStep(env, e, to, b, page)
  {
    PollIsAttempt(env, e, to);
    hide Attempt, Prepare, PageOk, EngineOk, Produce, LimitsFor, LastN;
    page := AnchoredAttempt(env, e, to, e.sequence + 1, l, b);
    AnchoredPrepare(e, page, e.nextBlock, to, e.sequence + 1, b);
  }

  /** A fresh engine above block 0 whose first page is guarded, against a provider
      that reports the block below: with another hash than the guard's parent the
      poll fails with the unknown parent; otherwise whatever it stages retains that
      block followed by the page's rows, up to the bound. */
  lemma FirstPageIsAnchored(env: Env, e: Engine, to: u64, b: BlockRef) returns (page: Page)
    requires EngineOk(e) && Fresh(e) && 0 < e.nextBlock < to && e.sequence < U64_MAX
    requires First(env, e, to).Ok? && First(env, e, to).value.guard.Some? && Reports(env, e, e.nextBlock - 1, b)
    ensures var g := First(env, e, to).value.guard.value;
            if b.hash != g.firstParentHash then Produce(env, e, to) == Err(CanonicalFailed(UnknownParent(e.nextBlock, g.firstParentHash)))
            else Produce(env, e, to).Ok? ==> AnchoredStep(env, e, to, b, page)
  {
    var l := LimitsFor(e.nextBlock, to);
    page := First(env, e, to).value;
    AdmittedPage(env, e, e.nextBlock, to, l);
    AnchorIs(env, e, page, e.nextBlock, to, b);
    hide QueryPage, AnchorFor, Attempt, PageOk, EngineOk, Reports, LimitsFor, Produce, AnchoredStep;
    if b.hash == page.guard.value.firstParentHash {
      FirstAttempt(env, e, to, e.sequence + 1, l, b);
      if Produce(env, e, to).Ok? { page := StagedAnchored(env, e, to, b, l); }
    } else {
      RefusedAttempt(env, e, to, e.sequence + 1, l);
      PollIsAttempt(env, e, to);
    }
  }

  lemma RefusedAttempt(env: Env, e: Engine, to: u64, sequence: u64, l: QueryLimits)
    requires EngineOk(e) && QueryPage(env, e, e.nextBlock, to, l).Ok? && AnchorFor(env, e, QueryPage(env, e, e.nextBlock, to, l).value).Err?
    ensures Attempt(env, e, to, sequence, l, None) == Err(AnchorFor(env, e, QueryPage(env, e, e.nextBlock, to, l).value).error)
  {
    hide QueryPage, AnchorFor, Recover, Prepare, EngineOk;
  }

  // ----- The fork it makes recoverable -----

  /** The anchor agrees with the chain and the block above it does not. */
  lemma AnchorAgrees(e: Engine, chain: int -> BlockRef, b: BlockRef, refs: seq<BlockRef>)
    requires EngineOk(e) && refs != [] && e.history == [b] + refs && Inside(e.history, b.number, b.number + 1)
    requires chain(b.number) == b && chain(b.number + 1).hash != refs[0].hash
    ensures Agrees(e, chain, b.number) && !Agrees(e, chain, b.number + 1)
  {
    LinkedContiguous(e.history);
    FindContiguous(e.history, b.number);
    FindContiguous(e.history, b.number + 1);
    assert e.history[0] == b && e.history[1] == refs[0] && e.history[1].number == b.number + 1;
  }

  lemma AncestorAtAnchor(env: Env, e: Engine, chain: int -> BlockRef, b: BlockRef, refs: seq<BlockRef>)
    requires EngineOk(e) && e.guard.Some? && refs != [] && e.history == [b] + refs && e.guard.value.blockNumber == refs[|refs| - 1].number
    requires Inside(e.history, b.number, Newest(e)) && FixedChain(env, e, chain, b.number, Newest(e))
    requires chain(b.number) == b && chain(b.number + 1).hash != refs[0].hash
    ensures CommonAncestor(env, e) == Ok(b.number)
  {
    AnchorAgrees(e, chain, b, refs);
    AncestorIsGreatest(env, e, chain);
    hide FixedChain, EngineOk, Agrees, CommonAncestor;
    DisagreementUpward(env, e, chain, b.number, Newest(e), b.number + 1);
  }

  lemma NotTruncated(b: BlockRef, refs: seq<BlockRef>, depth: nat)
    requires depth >= 1 && refs != [] && (forall i :: 0 <= i < |refs| ==> refs[i].number == b.number + 1 + i) && LastN([b] + refs, depth)[0] == b
    ensures LastN([b] + refs, depth) == [b] + refs
  {
    var all := [b] + refs;
    assert 0 < |all| - depth ==> all[|all| - depth] == refs[|all| - depth - 1];
  }

  /** The engine once its first page is acknowledged. */
  lemma LiveIs(env: Env, e: Engine, to: u64, b: BlockRef, page: Page, live: Engine)
    requires EngineOk(e) && Fresh(e) && e.sequence < U64_MAX && AnchoredStep(env, e, to, b, page)
    requires Produce(env, e, to).value.emitted.Some? && Commit(Produce(env, e, to).value.engine, Produce(env, e, to).value.emitted.value.token) == Ok(live)
    ensures AllFieldsOk(page.blocks) && live.history == LastN([b] + Refs(page.blocks), e.depth) && live.guard == page.guard
  {
    StepParts(env, e, to, b, page);
    hide *;
    var p := Prepare(e, page, e.sequence + 1, Some(b)).value;
    PreparedCursor(e, page, e.sequence + 1, Some(b), p);
    AnchoredPrepare(e, page, e.nextBlock, to, e.sequence + 1, b);
    CommittedPage(env, e, p);
  }

  lemma StepParts(env: Env, e: Engine, to: u64, b: BlockRef, page: Page)
    requires EngineOk(e) && Fresh(e) && e.sequence < U64_MAX && AnchoredStep(env, e, to, b, page)
    ensures e.history == [] && e.pending.None? && e.queued.None?
    ensures PageOk(page, e.nextBlock, to) && page.nextBlock > e.nextBlock && b.number + 1 == e.nextBlock && Prepare(e, page, e.sequence + 1, Some(b)).Ok?
    ensures Produce(env, e, to) == Stage(env, e, e.sequence + 1, Prepare(e, page, e.sequence + 1, Some(b)).value)
  {
    hide Produce, Prepare, PageOk, LastN, EngineOk, Stage;
  }

  lemma LiveIsWell(env: Env, e: Engine, to: u64, live: Engine)
    requires EngineOk(e) && e.sequence < U64_MAX && Produce(env, e, to).Ok?
    requires Produce(env, e, to).value.emitted.Some? && Commit(Produce(env, e, to).value.engine, Produce(env, e, to).value.emitted.value.token) == Ok(live)
    ensures EngineOk(live)
  {
    hide *;
    NextBatchKeeps(env, e, to);
    CommittedWell(Produce(env, e, to).value.engine, Produce(env, e, to).value.emitted.value.token);
  }

  /** While the anchor is retained, nothing of the first page has been dropped. */
  lemma LiveAboveAnchor(env: Env, e: Engine, to: u64, b: BlockRef, page: Page, live: Engine)
    requires EngineOk(e) && Fresh(e) && e.sequence < U64_MAX && AnchoredStep(env, e, to, b, page)
    requires Produce(env, e, to).value.emitted.Some? && Commit(Produce(env, e, to).value.engine, Produce(env, e, to).value.emitted.value.token) == Ok(live)
    requires live.history != [] && live.history[0] == b && live.guard.Some?
    ensures AllFieldsOk(page.blocks) && page.blocks != [] && live.history == [b] + Refs(page.blocks)
    ensures live.guard.value.blockNumber == Refs(page.blocks)[|page.blocks| - 1].number
  {
    hide Produce, Prepare, PageOk, LastN, Retained, EngineOk, Stage, Commit;
    LiveIs(env, e, to, b, page, live);
    RowNumbers(page, e.nextBlock, to);
    DepthPositive(e);
    NotTruncated(b, Refs(page.blocks), e.depth);
    GuardedLast(page, e.nextBlock, to);
  }

  lemma DepthPositive(e: Engine)
    requires EngineOk(e)
    ensures e.depth >= 1
  {
  }

  lemma RowNumbers(page: Page, from: u64, to: u64)
    requires PageOk(page, from, to)
    ensures AllFieldsOk(page.blocks) && forall i :: 0 <= i < |page.blocks| ==> Refs(page.blocks)[i].number == from + i
  {
    LinkedContiguous(Refs(page.blocks));
  }

  lemma CommittedWell(e: Engine, token: Bytes)
    requires EngineOk(e) && Commit(e, token).Ok?
    ensures EngineOk(Commit(e, token).value)
  {
  }

  /** When such a first page is acknowledged and the anchor is still retained, a
      fork of the first delivered block is found at the anchor. */
  lemma FirstForkIsFound(env: Env, e: Engine, to: u64, b: BlockRef, live: Engine, later: Env, chain: int -> BlockRef)
    requires EngineOk(e) && Fresh(e) && 0 < e.nextBlock < to && e.sequence < U64_MAX
    requires First(env, e, to).Ok? && First(env, e, to).value.guard.Some? && Reports(env, e, e.nextBlock - 1, b)
    requires Produce(env, e, to).Ok? && Produce(env, e, to).value.emitted.Some?
    requires Commit(Produce(env, e, to).value.engine, Produce(env, e, to).value.emitted.value.token) == Ok(live)
    requires |live.history| > 1 && live.history[0] == b && live.guard.Some?
    requires Inside(live.history, b.number, Newest(live)) && FixedChain(later, live, chain, b.number, Newest(live))
    requires chain(b.number) == b && chain(b.number + 1).hash != live.history[1].hash
    ensures EngineOk(live) && CommonAncestor(later, live) == Ok(b.number)
  {
    hide Produce, Commit, FixedChain, EngineOk, First, Reports, AnchoredStep, Inside;
    var page := FirstPageIsAnchored(env, e, to, b);
    LiveIsWell(env, e, to, live);
    LiveAboveAnchor(env, e, to, b, page, live);
    assert live.history[1] == Refs(page.blocks)[0];
    AncestorAtAnchor(later, live, chain, b, Refs(page.blocks));
  }

  lemma CommittedPage(env: Env, e: Engine, p: Prepared)
    requires e.pending.None? && e.queued.None? && e.sequence < U64_MAX && p.reorg.None? && p.delivery.cursor.Some?
    ensures Stage(env, e, e.sequence + 1, p).Ok?
    ensures var step := Stage(env, e, e.sequence + 1, p).value;
            && step.emitted == Some(p.delivery)
            && var live := Commit(step.engine, p.delivery.token);
            live.Ok? && live.value.history == p.history && live.value.guard == p.guard
  {
  }

  lemma GuardedLast(page: Page, from: u64, to: u64)
    requires PageOk(page, from, to) && page.guard.Some?
    ensures page.blocks != [] && page.guard.value.blockNumber == Refs(page.blocks)[|page.blocks| - 1].number
  {
  }
}
