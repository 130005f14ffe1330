/** What one poll of the source engine asks of its provider, what it refuses, and
    how it retries (crates/hypersync/src/source_engine.rs, `next_batch`, `query_page`,
    `validate_coverage_boundary`, `rollback_guard_at`, `recover_rollback`). */
module EngineCalls {
  import opened Protocol
  import opened Canonical
  import opened SourceCheckpoint
  import opened PageRules
  import opened Normalize
  import opened SourceEngine
  import QueryPlan

  // ----- What a poll hands out -----

  /** A poll hands out what is in flight when it returns. What was in flight before is
      handed out again unchanged, and nothing is handed out exactly when nothing is
      in flight and the range is finished. */
  lemma PollHandsOut(env: Env, e: Engine, to: u64)
    requires EngineOk(e) && Produce(env, e, to).Ok?
    ensures var step := Produce(env, e, to).value;
            && step.emitted == (if step.engine.pending.Some? then Some(step.engine.pending.value.delivery) else None)
            && (e.pending.Some? ==> step.engine == e && step.emitted == Some(e.pending.value.delivery))
            && (step.emitted.None? <==> e.pending.None? && e.nextBlock >= to)
            && (step.emitted.None? ==> step.engine == e)
  {
    hide Attempt, EngineOk, LimitsFor, Renumber, ReorgControl, CanonicalAt;
  }

  // ----- How much is asked for -----

  /** A poll first asks for the whole span, but never for more than a thousand
      blocks nor five thousand logs. */
  lemma FirstLimits(from: u64, to: u64)
    requires from < to
    ensures var l := LimitsFor(from, to);
            && l.maxLogs == 5000 && (to - from <= 1000 ==> l.maxBlocks == to - from) && (to - from > 1000 ==> l.maxBlocks == 1000)
  {
  }

  /** `m` is `n / p` rounded up. */
  predicate IsCeil(m: int, n: int, p: int) {
    p * (m - 1) < n <= p * m
  }

  lemma HalfOfCeil(m: int, n: int, p: int, h: int)
    requires p >= 1 && IsCeil(m, n, p) && 2 * h - 1 <= m <= 2 * h
    ensures IsCeil(h, n, 2 * p)
  {
    assert p * m <= p * (2 * h) by { Scaled(p, m, 2 * h); }
    assert p * (2 * h - 2) <= p * (m - 1) by { Scaled(p, 2 * h - 2, m - 1); }
    assert p * (2 * h) == 2 * p * h && p * (2 * h - 2) == 2 * p * (h - 1);
  }

  lemma Scaled(p: int, a: int, b: int)
    requires p >= 1 && a <= b
    ensures p * a <= p * b
  {
  }

  /** The limits after a number of halvings. */
  predicate Halved(l: QueryLimits, k: nat, s: QueryLimits) {
    IsCeil(s.maxBlocks, l.maxBlocks, Pow2(k)) && IsCeil(s.maxLogs, l.maxLogs, Pow2(k))
  }

  lemma {:induction false} Pow2Positive(k: nat)
    ensures Pow2(k) >= 1
  {
    if k > 0 { Pow2Positive(k - 1); }
  }

  lemma ShrinkHalves(l: QueryLimits, k: nat, s: QueryLimits)
    requires Halved(l, k, s)
    ensures Shrink(s).None? <==> s == QueryLimits(1, 1)
    ensures Shrink(s).Some? ==> Halved(l, k + 1, Shrink(s).value)
  {
    if Shrink(s).Some? {
      var t := Shrink(s).value;
      Pow2Positive(k);
      HalfOfCeil(s.maxBlocks, l.maxBlocks, Pow2(k), t.maxBlocks);
      HalfOfCeil(s.maxLogs, l.maxLogs, Pow2(k), t.maxLogs);
    }
  }

  // ----- Retrying until the delivery fits -----

  /** One try at the given limits, above an anchor that stays the same. */
  ghost function Once(env: Env, e: Engine, to: u64, sequence: u64, l: QueryLimits, anchor: Option<BlockRef>): Result<Prepared, EngineError>
    requires EngineOk(e)
  {
    var page := QueryPage(env, e, e.nextBlock, to, l);
    if page.Err? then Err(page.error)
    else if RollbackDetected(e, page.value) then Recover(env, e, to, sequence, l)
    else Prepare(e, page.value, sequence, anchor)
  }

  ghost predicate Fits(env: Env, e: Engine, r: Result<Prepared, EngineError>) {
    r.Err? || env.encodedLen(r.value.delivery) <= e.maxDeliveryBytes
  }

  /** The tries: each but the last was too large, the last is what is returned,
      unless it is too large at one block and one log. */
  ghost predicate Retries(env: Env, e: Engine, to: u64, sequence: u64, anchor: Option<BlockRef>, tries: seq<QueryLimits>, r: Result<Prepared, EngineError>)
    requires EngineOk(e)
  {
    && tries != []
    && (forall j :: 0 <= j < |tries| - 1 ==> !Fits(env, e, Once(env, e, to, sequence, tries[j], anchor)))
    && var last := Once(env, e, to, sequence, tries[|tries| - 1], anchor);
    if Fits(env, e, last) then r == last else tries[|tries| - 1] == QueryLimits(1, 1) && r == Err(DeliveryTooLarge)
  }

  ghost predicate AllHalved(l: QueryLimits, k: nat, tries: seq<QueryLimits>) {
    forall j :: 0 <= j < |tries| ==> Halved(l, k + j, tries[j])
  }

  lemma AttemptStep(env: Env, e: Engine, to: u64, sequence: u64, l: QueryLimits, anchor: Option<BlockRef>)
    requires EngineOk(e) && (anchor.Some? || e.history != [])
    ensures var one := Once(env, e, to, sequence, l, anchor);
            Attempt(env, e, to, sequence, l, anchor) ==
            if Fits(env, e, one) then one
            else if Shrink(l).None? then Err(DeliveryTooLarge)
            else Attempt(env, e, to, sequence, Shrink(l).value, anchor)
  {
    hide QueryPage, Recover, Prepare, RollbackDetected, EngineOk, Shrink;
  }

  lemma OneMoreTry(env: Env, e: Engine, to: u64, sequence: u64, anchor: Option<BlockRef>, l: QueryLimits, rest: seq<QueryLimits>, r: Result<Prepared, EngineError>)
    requires EngineOk(e) && !Fits(env, e, Once(env, e, to, sequence, l, anchor)) && Retries(env, e, to, sequence, anchor, rest, r)
    ensures Retries(env, e, to, sequence, anchor, [l] + rest, r)
  {
    hide Once, EngineOk, Fits;
    var tries := [l] + rest;
    forall j | 0 <= j < |tries| - 1 ensures !Fits(env, e, Once(env, e, to, sequence, tries[j], anchor)) { if j > 0 { assert tries[j] == rest[j - 1]; } }
    assert tries[|tries| - 1] == rest[|rest| - 1];
  }

  lemma OneMoreHalved(first: QueryLimits, k: nat, l: QueryLimits, rest: seq<QueryLimits>)
    requires Halved(first, k, l) && AllHalved(first, k + 1, rest)
    ensures AllHalved(first, k, [l] + rest)
  {
    hide Halved;
    var tries := [l] + rest;
    forall j | 0 <= j < |tries| ensures Halved(first, k + j, tries[j]) {
      if j > 0 { assert tries[j] == rest[j - 1] && Halved(first, k + 1 + (j - 1), rest[j - 1]); }
    }
  }

  lemma LastTry(env: Env, e: Engine, to: u64, sequence: u64, first: QueryLimits, k: nat, l: QueryLimits, anchor: Option<BlockRef>)
    requires EngineOk(e) && (anchor.Some? || e.history != []) && Halved(first, k, l)
    requires Fits(env, e, Once(env, e, to, sequence, l, anchor)) || Shrink(l).None?
    ensures Retries(env, e, to, sequence, anchor, [l], Attempt(env, e, to, sequence, l, anchor)) && AllHalved(first, k, [l])
  {
    AttemptStep(env, e, to, sequence, l, anchor);
    ShrinkHalves(first, k, l);
    hide Once, Attempt, EngineOk, Halved, Fits, Shrink;
  }

  lemma ShrinkLess(l: QueryLimits)
    ensures Shrink(l).Some? ==> Shrink(l).value.maxBlocks + Shrink(l).value.maxLogs < l.maxBlocks + l.maxLogs
  {
  }

  lemma {:induction false} RetriesFrom(env: Env, e: Engine, to: u64, sequence: u64, first: QueryLimits, k: nat, l: QueryLimits, anchor: Option<BlockRef>)
    returns (tries: seq<QueryLimits>)
    requires EngineOk(e) && (anchor.Some? || e.history != []) && Halved(first, k, l)
    ensures Retries(env, e, to, sequence, anchor, tries, Attempt(env, e, to, sequence, l, anchor))
    ensures tries != [] && AllHalved(first, k, tries) && tries[0] == l
    decreases l.maxBlocks + l.maxLogs
  {
    hide *;
    if Fits(env, e, Once(env, e, to, sequence, l, anchor)) || Shrink(l).None? {
      LastTry(env, e, to, sequence, first, k, l, anchor);
      tries := [l];
    } else {
      AttemptStep(env, e, to, sequence, l, anchor);
      ShrinkHalves(first, k, l);
      ShrinkLess(l);
      var rest := RetriesFrom(env, e, to, sequence, first, k + 1, Shrink(l).value, anchor);
      tries := [l] + rest;
      OneMoreHalved(first, k, l, rest);
      OneMoreTry(env, e, to, sequence, anchor, l, rest, Attempt(env, e, to, sequence, Shrink(l).value, anchor));
    }
  }

  lemma HalvedOnce(l: QueryLimits)
    ensures Halved(l, 0, l)
  {
  }

  /** A poll tries the limits halved again and again, rounding up, takes the first
      try that fails or fits, and gives up only when one block and one log are still
      too large. */
  lemma FirstFit(env: Env, e: Engine, to: u64, sequence: u64, l: QueryLimits, anchor: Option<BlockRef>) returns (tries: seq<QueryLimits>)
    requires EngineOk(e) && (anchor.Some? || e.history != [])
    ensures Retries(env, e, to, sequence, anchor, tries, Attempt(env, e, to, sequence, l, anchor))
    ensures tries != [] && AllHalved(l, 0, tries) && tries[0] == l
  {
    HalvedOnce(l);
    hide Retries, Attempt, EngineOk, Halved;
    tries := RetriesFrom(env, e, to, sequence, l, 0, l, anchor);
  }

  // ----- What a response is refused for -----

  /** More rows, more logs or more payload bytes than a response may hold. */
  predicate Exceeds(env: Env, page: Page, limits: ResponseLimits) {
    |page.blocks| > limits.maxBlocks || |page.logs| > limits.maxLogs || env.dynamicBytes(page) > limits.maxDynamicBytes
  }

  /** The provider's answer is taken exactly when it is within the response limits,
      makes progress and is a valid page of the range; otherwise the first of these
      that fails is the error. */
  lemma AdmitExact(env: Env, e: Engine, query: QueryPlan.Query, from: u64, to: u64)
    ensures var page, r := env.provider(query), Admit(env, e, query, from, to);
            && (r == Err(SourceFailed) <==> page.None?)
            && (r == Err(ResponseLimitExceeded) <==> page.Some? && Exceeds(env, page.value, e.limits))
            && (r.Ok? ==> r.value == page.value && page.value.nextBlock > from && PageOk(page.value, from, to))
            && (page.Some? && !Exceeds(env, page.value, e.limits) ==>
                  && (r == Err(NoProgress(from, page.value.nextBlock)) <==> page.value.nextBlock <= from)
                  && (r == Err(InvalidPage) <==> page.value.nextBlock > from && !PageOk(page.value, from, to))
                  && (r.Ok? <==> page.value.nextBlock > from && PageOk(page.value, from, to)))
  {
    hide PageOk;
  }

  // ----- A page against the covered head -----

  /** The rows, or the anchor below them, say something else about the covered block. */
  ghost predicate Contradicts(c: BlockRef, refs: seq<BlockRef>, anchor: Option<BlockRef>) {
    || (exists r :: r in refs && r.number == c.number && r != c)
    || (anchor.Some? && anchor.value.number == c.number && anchor.value != c)
    || (refs != [] && refs[0].number == c.number + 1 && refs[0].parentHash != c.hash)
  }

  lemma AgreesIff(c: BlockRef, refs: seq<BlockRef>, anchor: Option<BlockRef>)
    requires Contiguous(refs) && refs != [] && refs[0].number < U64_MAX && (anchor.Some? ==> anchor.value.number + 1 == refs[0].number)
    ensures CoverageAgrees(Some(c), refs, anchor) <==> !Contradicts(c, refs, anchor)
  {
    FindContiguous(refs, c.number);
    var found := Find(refs, c.number);
    if found.Some? { assert found.value in refs; }
    forall r | r in refs && r.number == c.number ensures found == Some(r) {
      var i :| 0 <= i < |refs| && refs[i] == r;
      assert refs[i].number == refs[0].number + i;
    }
    hide Find, Contiguous;
  }

  /** A valid page is refused for the covered head exactly when the history does not
      reach that head, or an anchor was fetched, and the page contradicts it. */
  lemma CoverageConflict(e: Engine, page: Page, from: u64, to: u64, sequence: u64, anchor: Option<BlockRef>, c: BlockRef)
    requires PageOk(page, from, to) && page.nextBlock > from && e.coverage == Some(c) && (anchor.Some? ==> anchor.value.number + 1 == from)
    ensures AllFieldsOk(page.blocks)
    ensures Prepare(e, page, sequence, anchor) == Err(CoverageBoundaryConflict(c.number)) <==>
            (anchor.Some? || e.history == [] || e.nextBlock <= c.number) && Contradicts(c, Refs(page.blocks), anchor)
  {
    PageRows(page, from, to);
    AgreesIff(c, Refs(page.blocks), anchor);
    hide NormalizeAt, Apply, Encode, Stamped, CoverageAgrees, Contradicts, StartOf, PageOk;
  }

  lemma PageRows(page: Page, from: u64, to: u64)
    requires PageOk(page, from, to) && page.nextBlock > from
    ensures AllFieldsOk(page.blocks) && page.blocks != [] && Contiguous(Refs(page.blocks)) && Refs(page.blocks)[0].number == from < U64_MAX
  {
    LinkedContiguous(Refs(page.blocks));
  }

  // ----- Guards and ancestors -----

  /** The guard made of one block is the guard of a page with that one row. */
  lemma GuardOfBlock(b: BlockRef)
    ensures GuardAt(b).Ok? <==> BlockRefOk(b) && b.timestamp <= I64_MAX
    ensures GuardAt(b).Ok? ==> GuardOk(GuardAt(b).value, [b])
  {
  }

  lemma {:induction false} SearchBelow(env: Env, e: Engine, low: int, high: int, best: Option<u64>)
    requires 0 <= low && high <= U64_MAX && Inside(e.history, low, high)
    ensures var r := Search(env, e, low, high, best);
            r.Ok? && r.value.Some? ==> r.value == best || low <= r.value.value <= high
    decreases high - low
  {
    hide Probe, Find;
    if low <= high {
      var candidate := low + (high - low) / 2;
      if candidate > 0 { SearchBelow(env, e, low, candidate - 1, best); }
      SearchBelow(env, e, candidate + 1, high, Some(candidate));
    }
  }

  /** A common ancestor is retained, and never above the block of the held guard. */
  lemma AncestorBelowGuard(env: Env, e: Engine)
    requires EngineOk(e) && e.guard.Some? && CommonAncestor(env, e).Ok?
    ensures var m := CommonAncestor(env, e).value;
            m <= e.guard.value.blockNumber && exists i :: 0 <= i < |e.history| && e.history[i].number == m
  {
    ProbesInside(e);
    LinkedContiguous(e.history);
    SearchBelow(env, e, e.history[0].number, Newest(e), None);
    hide Search;
    var m := CommonAncestor(env, e).value;
    var i := m - e.history[0].number;
    assert e.history[i].number == m;
  }
}
