/** A concrete fork, polled through the whole engine: blocks 5, 6 and 7 are
    retained, the provider now reports another block 6
    (crates/hypersync/src/source_engine.rs, crates/event-service/src/session_store.rs). */
module ForkExample {
  import opened Protocol
  import opened Canonical
  import opened SourceCheckpoint
  import opened PageRules
  import opened PayloadRules
  import opened ProgressRules
  import opened Normalize
  import opened Emission
  import opened SourceEngine
  import opened Handshake
  import opened Restart
  import RestartRuns
  import P = Pipeline
  import S = SessionStore
  import QueryPlan

  function Fill(b: byte): Hash32 { seq(32, _ => b) }

  /** Clocks stand still at pace 0 and tick once per block at pace 1. */
  function At(n: byte, pace: bit): u64 { n * pace }

  type bit = n: int | 0 <= n <= 1

  function Old(n: byte, pace: bit): BlockRef
    requires 1 <= n
  {
    BlockRef(n, Fill(n), Fill(n - 1), At(n, pace))
  }

  /** The provider's chain: the old one through block 5, another one above. */
  function Reported(n: byte, pace: bit): BlockRef
    requires 1 <= n <= 8
  {
    if n <= 5 then Old(n, pace) else BlockRef(n, Fill(100 + n), if n == 6 then Fill(5) else Fill(99 + n), At(n, pace))
  }

  function RowOf(b: BlockRef): RawBlock
    requires b.timestamp < 256
  {
    RawBlock(Some(b.number), Some(b.hash), Some(b.parentHash), Some([b.timestamp]), None, [], [])
  }

  function GuardOf(b: BlockRef): RollbackGuard
    requires |b.hash| == 32 && |b.parentHash| == 32 && b.timestamp <= I64_MAX
  {
    RollbackGuard(b.number, b.timestamp, b.hash, b.number, b.parentHash)
  }

  /** One row per answer. */
  function PageAt(n: byte, pace: bit): Page
    requires 1 <= n <= 8
  {
    var b := Reported(n, pace);
    Page(None, n + 1, [RowOf(b)], [], Some(GuardOf(b)))
  }

  function Answer(pace: bit): QueryPlan.Query -> Option<Page> {
    (q: QueryPlan.Query) => if 1 <= q.fromBlock <= 8 then Some(PageAt(q.fromBlock, pace)) else None
  }

  function World(pace: bit): Env {
    Env(Answer(pace), (d: Delivery) => 0, (p: Page) => 0)
  }

  const STATE := DesiredState(PROTOCOL_VERSION, "s", 1, 0, 1, [])

  function Before(pace: bit, activation: u64): Engine {
    Engine(STATE, 8, 1, activation, Some(activation), Some(Old(7, pace)), [Old(5, pace), Old(6, pace), Old(7, pace)], 3,
           Some(GuardOf(Old(7, pace))), MAX_DELIVERY_SIZE_BYTES, DEFAULT_LIMITS, None, None)
  }

  lemma BeforeOk(pace: bit, activation: u64)
    ensures EngineOk(Before(pace, activation))
  {
    var h := Before(pace, activation).history;
    assert Follows(h[0], h[1]) && Follows(h[1], h[2]);
  }

  lemma RowRef(b: BlockRef)
    requires BlockRefOk(b) && b.timestamp < 256
    ensures BlockFieldsOk(RowOf(b)) && RefOf(RowOf(b)) == b
  {
    var bs: Bytes := [b.timestamp];
    assert bs[..0] == [] && FromBe(bs) == FromBe(bs[..0]) * 256 + b.timestamp;
  }

  lemma PageValid(n: byte, pace: bit, to: u64)
    requires 1 <= n <= 8 && to > n
    ensures PageOk(PageAt(n, pace), n, to) && Refs(PageAt(n, pace).blocks) == [Reported(n, pace)]
  {
    RowRef(Reported(n, pace));
  }

  lemma Admits(e: Engine, pace: bit, q: QueryPlan.Query, to: u64)
    requires 1 <= q.fromBlock <= 8 && to > q.fromBlock && e.limits == DEFAULT_LIMITS
    ensures Admit(World(pace), e, q, q.fromBlock, to) == Ok(PageAt(q.fromBlock, pace))
  {
    PageValid(q.fromBlock, pace, to);
  }

  lemma Probes(e: Engine, pace: bit, n: byte)
    requires 1 <= n <= 8 && e.limits == DEFAULT_LIMITS
    ensures Probe(World(pace), e, n) == Ok(Reported(n, pace))
  {
    Admits(e, pace, BlockQuery(n), n + 1);
    RowRef(Reported(n, pace));
    hide Admit, PageOk;
  }

  lemma Queries(e: Engine, pace: bit, n: byte, to: u64, l: QueryLimits)
    requires 1 <= n <= 8 && to > n && e.limits == DEFAULT_LIMITS && e.ds == STATE
    ensures QueryPage(World(pace), e, n, to, l) == Ok(PageAt(n, pace))
  {
    var q := QueryPlan.Compile(e.ds.owners, n, Some(to), l.maxBlocks, l.maxLogs);
    assert q.Ok? && q.value.fromBlock == n;
    Admits(e, pace, q.value, to);
    hide Admit, QueryPlan.Compile;
  }

  lemma FindsAncestor(pace: bit, activation: u64)
    ensures EngineOk(Before(pace, activation))
    ensures CommonAncestor(World(pace), Before(pace, activation)) == Ok(5)
  {
    BeforeOk(pace, activation);
    var e, env := Before(pace, activation), World(pace);
    ProbesInside(e);
    Probes(e, pace, 5);
    Probes(e, pace, 6);
    hide Probe, EngineOk, World;
    SearchStep(env, e, 5, 7, None);
    SearchStep(env, e, 5, 5, None);
    SearchDone(env, e, 6, 5, Some(5));
    assert Fill(106)[0] == 106 && Fill(6)[0] == 6;
    hide Search;
  }

  /** The replacement row displaces blocks 6 and 7. */
  lemma Displaces(pace: bit, activation: u64)
    ensures Apply(Before(pace, activation).history, 3, [Reported(6, pace)]) ==
            Ok(Tracked([Old(5, pace), Reported(6, pace)], Some(ReorgDelta(Old(5, pace), Old(7, pace), Reported(6, pace)))))
  {
    var h, b := Before(pace, activation).history, Reported(6, pace);
    BeforeOk(pace, activation);
    assert Fill(106)[0] == 106 && Fill(6)[0] == 6;
    FindContiguous(h, 6);
    FindContiguous(h, 5);
    PopContiguous(h, 5);
    assert b !in h;
    assert [b][0..] == [b] && Agreeing(h, [b]) == 0;
    assert h[..1] + [b] == [Old(5, pace), b];
    hide Find, PopAbove, Apply;
    ApplyMeaning(h, 3, [b]);
  }

  lemma NobodyWants(page: Page, activation: u64)
    ensures HeadersPresent(STATE, page.blocks, activation)
  {
  }

  lemma PreparesFork(pace: bit, activation: u64) returns (p: Prepared)
    ensures Prepare(Before(pace, activation), PageAt(6, pace), 2, None) == Ok(p) && p.delivery.cursor.Some?
    ensures p.reorg == Some(ReorgDelta(Old(5, pace), Old(7, pace), Reported(6, pace)))
  {
    var e, page := Before(pace, activation), PageAt(6, pace);
    PageValid(6, pace, 9);
    Displaces(pace, activation);
    EncodesAll(page.guard, activation, [Old(5, pace), Reported(6, pace)]);
    hide NormalizeAt, Apply, Old, Reported, PageOk, Encode, PageEmits, Events, PageAt, GuardOf, Refs, Prepare;
    NobodyWants(page, activation);
    PageNormalizes(e.ds, page, 6, 9, activation);
    NormalizesOk(e.ds, 2, page, activation);
    PrepareNow(e, 2, page, Tracked([Old(5, pace), Reported(6, pace)], Some(ReorgDelta(Old(5, pace), Old(7, pace), Reported(6, pace)))));
    p := Prepare(e, page, 2, None).value;
  }

  lemma EncodesAll(guard: Option<RollbackGuard>, activation: u64, blocks: seq<BlockRef>)
    requires |blocks| <= 2 && AllOk(blocks)
    ensures Encode(guard, activation, blocks).Ok?
  {
  }

  lemma PrepareNow(e: Engine, sequence: u64, page: Page, t: Tracked)
    requires AllFieldsOk(page.blocks) && !BoundaryUntracked(e) && NormalizeAt(e.ds, sequence, page, e.activation).Ok?
    requires Apply(e.history, e.depth, Refs(page.blocks)) == Ok(t) && Encode(page.guard, e.activation, t.blocks).Ok?
    ensures var p := Prepare(e, page, sequence, None); p.Ok? && p.value.reorg == t.reorg && p.value.delivery.cursor.Some?
  {
    NormalizedHasCursor(e.ds, sequence, page, e.activation);
    hide NormalizeAt, Apply, Encode, CoverageAgrees, ProgressId;
  }

  lemma NormalizesOk(ds: DesiredState, sequence: u64, page: Page, activation: u64)
    requires Events(ds, page, activation).Ok?
    ensures NormalizeAt(ds, sequence, page, activation).Ok?
  {
    hide Events;
  }

  lemma ProduceIs(env: Env, e: Engine, to: u64, p: Prepared)
    requires EngineOk(e) && e.pending.None? && e.nextBlock < to && e.sequence < U64_MAX
    requires Attempt(env, e, to, e.sequence + 1, LimitsFor(e.nextBlock, to), None) == Ok(p)
    ensures Produce(env, e, to) == Stage(env, e, e.sequence + 1, p)
  {
    hide EngineOk, Attempt, Stage, LimitsFor;
  }

  /** Polling finds block 5 and stages the fork behind a control. */
  lemma StagesFork(pace: bit, activation: u64)
    requires activation <= 7
    ensures EngineOk(Before(pace, activation))
    ensures var step := Produce(World(pace), Before(pace, activation), 9);
            && step.Ok? && step.value.emitted.Some? && step.value.engine.queued.Some?
            && step.value.emitted.value.payload == Some(Reorg(Some(Old(5, pace)), Some(Old(7, pace)), Some(Reported(6, pace))))
  {
    var e := Before(pace, activation);
    Queries(e, pace, 8, 9, LimitsFor(8, 9));
    Queries(e, pace, 6, 9, LimitsFor(8, 9));
    FindsAncestor(pace, activation);
    hide Attempt, Prepare, QueryPage, CommonAncestor, EngineOk, World, Old, Reported, GuardOf, LimitsFor, PageAt, Stage, Fill, Admit, Probe, Produce;
    var p := PreparesFork(pace, activation);
    Attempts(pace, activation, p);
    ProduceIs(World(pace), e, 9, p);
    StagesOk(pace, activation, p);
  }

  lemma Attempts(pace: bit, activation: u64, p: Prepared)
    requires EngineOk(Before(pace, activation)) && CommonAncestor(World(pace), Before(pace, activation)) == Ok(5)
    requires QueryPage(World(pace), Before(pace, activation), 8, 9, LimitsFor(8, 9)) == Ok(PageAt(8, pace))
    requires QueryPage(World(pace), Before(pace, activation), 6, 9, LimitsFor(8, 9)) == Ok(PageAt(6, pace))
    requires Prepare(Before(pace, activation), PageAt(6, pace), 2, None) == Ok(p)
    ensures Attempt(World(pace), Before(pace, activation), 9, 2, LimitsFor(8, 9), None) == Ok(p)
  {
    hide QueryPage, CommonAncestor, Prepare, EngineOk;
    assert Fill(107)[0] == 107 && Fill(7)[0] == 7;
  }

  lemma StagesOk(pace: bit, activation: u64, p: Prepared)
    requires activation <= 7 && p.delivery.cursor.Some? && p.reorg == Some(ReorgDelta(Old(5, pace), Old(7, pace), Reported(6, pace)))
    ensures var step := Stage(World(pace), Before(pace, activation), 2, p);
            && step.Ok? && step.value.emitted.Some? && step.value.engine.queued.Some?
            && step.value.emitted.value.payload == Some(Reorg(Some(Old(5, pace)), Some(Old(7, pace)), Some(Reported(6, pace))))
  {
  }

  // ----- What it shows -----

  lemma HashesDiffer(pace: bit)
    ensures Distinguishable(ReorgDelta(Old(5, pace), Old(7, pace), Reported(6, pace))) <==> pace == 1
  {
    assert Fill(106)[0] == 106 && Fill(7)[0] == 7 && Fill(5)[0] == 5;
  }

  /** With clocks that stand still the engine stages a control the store refuses;
      with clocks that tick the same fork is accepted. */
  lemma StillClockRefused(o: Oracle, pace: bit)
    ensures EngineOk(Before(pace, 7))
    ensures var step := Produce(World(pace), Before(pace, 7), 9);
            && step.Ok? && step.value.emitted.Some? && step.value.emitted.value.payload.Some?
            && step.value.emitted.value.payload.value.Reorg?
            && (PayloadOk(o, STATE, step.value.emitted.value) <==> pace == 1)
  {
    StagesFork(pace, 7);
    hide Produce, EngineOk, PayloadOk, World, Old, Reported, Distinguishable;
    var page, from, anchor := StagedDeliveriesAccepted(o, World(pace), Before(pace, 7), 9);
    HashesDiffer(pace);
  }

  /** Activated at block 7, the shorter replacement ends below the boundary: the
      store's promise of block 6 is not fulfilled by what the engine queued. */
  lemma ShorterForkUnfulfilled(pace: bit)
    ensures EngineOk(Before(pace, 7))
    ensures var step := Produce(World(pace), Before(pace, 7), 9);
            && step.Ok? && step.value.engine.queued.Some?
            && PromiseAfterAck(Some(Reported(6, pace)), step.value.engine.queued.value.delivery).Some?
  {
    StagesFork(pace, 7);
    hide Produce, EngineOk, World, Certifies, PromiseAfterAck;
    var delta := StagedReorgHandshake(World(pace), Before(pace, 7), 9);
    assert delta.newTip == Reported(6, pace);
  }

  /** Activated at block 6 or before, it is. */
  lemma ForkFulfilled(pace: bit, activation: u64)
    requires activation <= 6
    ensures EngineOk(Before(pace, activation))
    ensures var step := Produce(World(pace), Before(pace, activation), 9);
            && step.Ok? && step.value.engine.queued.Some?
            && PromiseAfterAck(Some(Reported(6, pace)), step.value.engine.queued.value.delivery).None?
  {
    StagesFork(pace, activation);
    hide Produce, EngineOk, World, Certifies, PromiseAfterAck;
    var delta := StagedReorgHandshake(World(pace), Before(pace, activation), 9);
    assert delta.newTip == Reported(6, pace);
  }

  // ----- A page without a guard -----

  function Unguarded(pace: bit): Page {
    PageAt(5, pace).(guard := None)
  }

  function BareWorld(pace: bit): Env {
    Env((q: QueryPlan.Query) => Some(Unguarded(pace)), (d: Delivery) => 0, (p: Page) => 0)
  }

  const FRESH := Engine(STATE, 5, 0, 5, Some(5), None, [], 3, None, MAX_DELIVERY_SIZE_BYTES, DEFAULT_LIMITS, None, None)

  lemma BareValid(pace: bit)
    ensures PageOk(Unguarded(pace), 5, 6) && Refs(Unguarded(pace).blocks) == [Reported(5, pace)]
  {
    PageValid(5, pace, 6);
  }

  lemma BareQuery(pace: bit, l: QueryLimits)
    ensures QueryPage(BareWorld(pace), FRESH, 5, 6, l) == Ok(Unguarded(pace))
  {
    BareValid(pace);
    assert QueryPlan.Compile(STATE.owners, 5, Some(6), l.maxBlocks, l.maxLogs).Ok?;
    hide QueryPlan.Compile, PageOk;
  }

  lemma FirstBlock(b: BlockRef)
    requires BlockRefOk(b)
    ensures Apply([], 3, [b]) == Ok(Tracked([b], None))
  {
    EmptyRetained(3);
    ApplyMeaning([], 3, [b]);
    assert Agreeing([], [b]) == 0 && [b][0..] == [b];
    assert PopAbove([], b.number - 1) + [b] == [b];
  }

  lemma BarePrepares(pace: bit) returns (p: Prepared)
    ensures Prepare(FRESH, Unguarded(pace), 1, None) == Ok(p) && p.delivery.cursor.Some? && p.reorg.None?
  {
    var page, b := Unguarded(pace), Reported(5, pace);
    BareValid(pace);
    hide PageOk, PageEmits, Events, NormalizeAt, Apply, Encode, Reported, Refs, Unguarded, Prepare, PageAt;
    NobodyWants(page, 5);
    PageNormalizes(STATE, page, 5, 6, 5);
    NormalizesOk(STATE, 1, page, 5);
    FirstBlock(b);
    EncodesAll(page.guard, 5, [b]);
    PrepareNow(FRESH, 1, page, Tracked([b], None));
    p := Prepare(FRESH, page, 1, None).value;
  }

  lemma BareAttempt(pace: bit, p: Prepared)
    requires EngineOk(FRESH) && Prepare(FRESH, Unguarded(pace), 1, None) == Ok(p)
    requires QueryPage(BareWorld(pace), FRESH, 5, 6, LimitsFor(5, 6)) == Ok(Unguarded(pace))
    ensures Attempt(BareWorld(pace), FRESH, 6, 1, LimitsFor(5, 6), None) == Ok(p)
  {
    hide QueryPage, Prepare;
  }

  lemma FreshOk()
    ensures EngineOk(FRESH)
  {
    EmptyRetained(3);
  }

  lemma BareProduce(pace: bit) returns (p: Prepared)
    ensures EngineOk(FRESH) && Prepare(FRESH, Unguarded(pace), 1, None) == Ok(p) && p.delivery.cursor.Some? && p.reorg.None?
    ensures Produce(BareWorld(pace), FRESH, 6) == Stage(BareWorld(pace), FRESH, 1, p)
  {
    hide Attempt, Prepare, QueryPage, Stage, LimitsFor, EngineOk, BareWorld, Unguarded, Produce, Admit;
    FreshOk();
    BareQuery(pace, LimitsFor(5, 6));
    p := BarePrepares(pace);
    BareAttempt(pace, p);
    ProduceIs(BareWorld(pace), FRESH, 6, p);
  }

  lemma CommitsDirectly(env: Env, e: Engine, sequence: u64, p: Prepared)
    requires e.pending.None? && e.queued.None? && p.delivery.cursor.Some? && p.reorg.None?
    ensures Stage(env, e, sequence, p).Ok?
    ensures var step := Stage(env, e, sequence, p).value;
            step.emitted == Some(p.delivery) && Commit(step.engine, p.delivery.token) == Ok(After(e, p))
  {
  }

  lemma BareHistory(pace: bit, p: Prepared)
    requires EngineOk(FRESH) && Prepare(FRESH, Unguarded(pace), 1, None) == Ok(p)
    ensures p.history != [] && p.guard.None?
  {
    BareValid(pace);
    hide Prepare, PageOk, EngineOk;
    PreparedTip(FRESH, Unguarded(pace), 5, 6, 1, None, p);
    PreparedCursor(FRESH, Unguarded(pace), 1, None, p);
  }

  /** A provider that sends no guard is served, but restoring from the cursor it
      left makes one up: the restored engine is not the one that kept going. */
  lemma UnguardedNotRestored(pace: bit)
    ensures EngineOk(FRESH)
    ensures var step := Produce(BareWorld(pace), FRESH, 6);
            && step.Ok? && step.value.emitted.Some? && step.value.emitted.value.cursor.Some?
            && var live := Commit(step.value.engine, step.value.emitted.value.token);
            && live.Ok? && !RestoresTo(STATE, 3, 5, step.value.emitted.value.cursor.value, live.value)
  {
    hide EngineOk, Produce, Prepare, Stage, Commit, RestoresTo, Unguarded, BareWorld;
    var p := BareProduce(pace);
    CommitsDirectly(BareWorld(pace), FRESH, 1, p);
    BareHistory(pace, p);
    if RestoresTo(STATE, 3, 5, p.delivery.cursor.value, After(FRESH, p)) {
      RestoresOnlyIf(STATE, 3, 5, p.delivery.cursor.value, After(FRESH, p));
    }
  }

  // ----- The theorems about whole runs apply -----

  lemma BeforeReady(pace: bit, activation: u64)
    ensures RestartRuns.Ready(Before(pace, activation))
  {
    BeforeOk(pace, activation);
    hide EngineOk;
  }

  /** The row whose acknowledged cursor is the engine's position. */
  function RowBefore(pace: bit): S.Row {
    var c := Cursor(1, 1, 8, Some(Old(7, pace)), 1, [], Some(7));
    S.Row(1, Some(STATE), Some(c), Some(c), None, 1, None)
  }

  lemma RowLoads(o: Oracle, pace: bit)
    ensures S.StoreInv(o, map[S.KeyOf(STATE) := RowBefore(pace)])
  {
    hide Old;
    assert BlockRefOk(Old(7, pace)) by { OldOk(7, pace); }
  }

  lemma OldOk(n: byte, pace: bit)
    requires 1 <= n
    ensures BlockRefOk(Old(n, pace)) && Old(n, pace).number == n
  {
  }

  /** The engine before the fork and this row are linked. */
  lemma ForkIsLinked(o: Oracle, pace: bit)
    ensures P.Linked(o, P.Link(Before(pace, 7), map[S.KeyOf(STATE) := RowBefore(pace)]), Before(pace, 7), RestartRuns.Resting)
  {
    BeforeReady(pace, 7);
    RowLoads(o, pace);
    hide EngineOk, S.StoreInv, Steady, Old, GuardOf;
    OldOk(7, pace);
  }

  /** Polled into the fork, the engine's pages have landed and its control can be
      acknowledged. */
  lemma ForkRunLands(pace: bit)
    ensures EngineOk(Before(pace, 7))
    ensures var events := [RestartRuns.Poll(World(pace), 9)];
            && RestartRuns.AllLand(Before(pace, 7), events)
            && var live := RestartRuns.Run(Before(pace, 7), events);
            && live.pending.Some? && !live.pending.value.advances
            && Commit(live, live.pending.value.delivery.token).Ok?
  {
    StagesFork(pace, 7);
    var e, ev := Before(pace, 7), RestartRuns.Poll(World(pace), 9);
    hide EngineOk, Produce, World, Old, Reported, GuardOf, Certifies, PromiseAfterAck, CanonicalAt, Find;
    var delta := StagedReorgHandshake(World(pace), e, 9);
    RestartRuns.RunOne(e, ev);
    assert [ev][..0] == [];
    assert RestartRuns.AllLand(e, []);
  }
}
