/** Fork recovery against one fixed provider chain
    (crates/hypersync/src/source_engine.rs, `recover_rollback`). */
module ForkSearch {
  import opened Protocol
  import opened Canonical
  import opened PageRules
  import opened SourceEngine

  /** The provider answers every retained probe from one parent-linked chain,
      and a block that shares a retained hash is the retained block. */
  ghost predicate FixedChain(env: Env, e: Engine, chain: int -> BlockRef, low: int, high: int)
    requires Inside(e.history, low, high)
  {
    && (forall n: u64 :: low <= n <= high ==> Probe(env, e, n) == Ok(chain(n)))
    && (forall n: int :: low < n <= high ==> chain(n).parentHash == chain(n - 1).hash)
    && (forall n: int :: low <= n <= high ==> SameHashSameBlock(e, chain, n))
  }

  ghost predicate SameHashSameBlock(e: Engine, chain: int -> BlockRef, n: int)
    requires Inside(e.history, n, n)
  {
    chain(n).hash == RetainedAt(e.history, n).hash ==> chain(n) == RetainedAt(e.history, n)
  }

  /** The provider still reports the retained block at this height. */
  ghost predicate Agrees(e: Engine, chain: int -> BlockRef, n: int)
    requires Inside(e.history, n, n)
  {
    chain(n) == RetainedAt(e.history, n)
  }

  lemma RetainedLink(e: Engine, n: int)
    requires EngineOk(e) && Inside(e.history, n - 1, n)
    ensures RetainedAt(e.history, n).parentHash == RetainedAt(e.history, n - 1).hash
  {
    FindContiguous(e.history, n);
    FindContiguous(e.history, n - 1);
    var k := n - e.history[0].number;
    assert Follows(e.history[k - 1], e.history[k]);
  }

  /** Agreement is inherited from every height to all retained heights below. */
  lemma {:induction false} AgreementDownward(env: Env, e: Engine, chain: int -> BlockRef, low: int, high: int, m: int, n: int)
    requires EngineOk(e) && Inside(e.history, low, high) && FixedChain(env, e, chain, low, high)
    requires low <= m <= n <= high && Agrees(e, chain, n)
    ensures Agrees(e, chain, m)
    decreases n - m
  {
    if m < n {
      RetainedLink(e, n);
      assert SameHashSameBlock(e, chain, n - 1);
      AgreementDownward(env, e, chain, low, high, m, n - 1);
    }
  }

  /** The greatest agreeing height of an interval, if there is one. */
  ghost predicate GreatestAgreeing(e: Engine, chain: int -> BlockRef, low: int, high: int, found: Option<u64>)
    requires Inside(e.history, low, high)
  {
    match found
    case Some(m) => low <= m <= high && Agrees(e, chain, m) && forall n: int :: m < n <= high ==> !Agrees(e, chain, n)
    case None => forall n: int :: low <= n <= high ==> !Agrees(e, chain, n)
  }

  /** The interval still to be searched: everything below agrees, the last
      agreeing height is remembered, and everything above disagrees. */
  ghost predicate Narrowed(e: Engine, chain: int -> BlockRef, low: int, high: int, l: int, h: int, best: Option<u64>)
    requires Inside(e.history, low, high)
  {
    && low <= l && h <= high && l <= h + 1
    && best == (if l == low then None else Some(l - 1))
    && (l > low ==> Agrees(e, chain, l - 1))
    && (forall n: int :: h < n <= high ==> !Agrees(e, chain, n))
  }

  lemma DisagreementUpward(env: Env, e: Engine, chain: int -> BlockRef, low: int, high: int, m: int)
    requires EngineOk(e) && Inside(e.history, low, high) && FixedChain(env, e, chain, low, high)
    requires low <= m <= high && !Agrees(e, chain, m)
    ensures forall n: int :: m <= n <= high ==> !Agrees(e, chain, n)
  {
    hide FixedChain, EngineOk, Agrees;
    forall n: int | m <= n <= high ensures !Agrees(e, chain, n) {
      if Agrees(e, chain, n) { AgreementDownward(env, e, chain, low, high, m, n); }
    }
  }

  lemma InsideWithin(history: seq<BlockRef>, low: int, high: int, l: int, h: int)
    requires Inside(history, low, high) && low <= l && h <= high
    ensures Inside(history, l, h)
  {
  }

  lemma ChainAt(env: Env, e: Engine, chain: int -> BlockRef, low: int, high: int, n: int)
    requires 0 <= low <= n <= high <= U64_MAX && Inside(e.history, low, high) && FixedChain(env, e, chain, low, high)
    ensures Inside(e.history, n, n) && Probe(env, e, n) == Ok(chain(n)) && SameHashSameBlock(e, chain, n)
  {
    hide Probe, Contiguous, SameHashSameBlock;
  }

  /** One probe of the fixed chain decides between the two halves. */
  lemma ProbeDecides(env: Env, e: Engine, chain: int -> BlockRef, low: int, high: int, l: int, h: int, best: Option<u64>)
    requires 0 <= low && high <= U64_MAX && Inside(e.history, low, high) && FixedChain(env, e, chain, low, high)
    requires low <= l <= h <= high
    ensures var c := l + (h - l) / 2;
            && Inside(e.history, c, c) && Inside(e.history, l, h) && Inside(e.history, c + 1, h) && Inside(e.history, l, c - 1)
            && Search(env, e, l, h, best) ==
               if Agrees(e, chain, c) then Search(env, e, c + 1, h, Some(c))
               else if c == 0 then Ok(best) else Search(env, e, l, c - 1, best)
  {
    hide *;
    var c := l + (h - l) / 2;
    InsideWithin(e.history, low, high, l, h);
    ChainAt(env, e, chain, low, high, c);
    SearchStep(env, e, l, h, best);
    FoundInside(e.history, c);
    SameHashDecides(e, chain, c);
  }

  /** Comparing hashes decides agreement. */
  lemma SameHashDecides(e: Engine, chain: int -> BlockRef, n: int)
    requires Inside(e.history, n, n) && SameHashSameBlock(e, chain, n)
    ensures Agrees(e, chain, n) <==> chain(n).hash == RetainedAt(e.history, n).hash
    ensures Agrees(e, chain, n) <==> chain(n) == RetainedAt(e.history, n)
  {
  }

  lemma {:induction false} SearchNarrows(env: Env, e: Engine, chain: int -> BlockRef, low: int, high: int, l: int, h: int, best: Option<u64>)
    requires EngineOk(e) && 0 <= low && high <= U64_MAX && Inside(e.history, low, high) && FixedChain(env, e, chain, low, high)
    requires Narrowed(e, chain, low, high, l, h, best)
    requires Inside(e.history, l, h)
    ensures var r := Search(env, e, l, h, best); r.Ok? && GreatestAgreeing(e, chain, low, high, r.value)
    decreases h - l
  {
    hide EngineOk, Search, Agrees, FixedChain, Contiguous;
    if l <= h {
      var c := l + (h - l) / 2;
      ProbeDecides(env, e, chain, low, high, l, h, best);
      if Agrees(e, chain, c) {
        SearchNarrows(env, e, chain, low, high, c + 1, h, Some(c));
      } else {
        DisagreementUpward(env, e, chain, low, high, c);
        if c > 0 { SearchNarrows(env, e, chain, low, high, l, c - 1, best); }
      }
    } else {
      SearchDone(env, e, l, h, best);
    }
  }

  /** Recovery resumes right above the greatest height the provider still agrees
      with, and reports exhausted history exactly when it agrees with none. */
  lemma AncestorIsGreatest(env: Env, e: Engine, chain: int -> BlockRef)
    requires EngineOk(e) && e.guard.Some? && e.history != []
    requires Inside(e.history, e.history[0].number, Newest(e)) && FixedChain(env, e, chain, e.history[0].number, Newest(e))
    ensures var oldest := e.history[0].number;
            match CommonAncestor(env, e)
            case Ok(m) => GreatestAgreeing(e, chain, oldest, Newest(e), Some(m))
            case Err(error) =>
              && GreatestAgreeing(e, chain, oldest, Newest(e), None)
              && error == CanonicalFailed(HistoryExhausted(if oldest == 0 then 0 else oldest - 1))
  {
    hide FixedChain, Search, Agrees, EngineOk;
    var oldest, newest := e.history[0].number, Newest(e);
    if oldest <= newest {
      SearchNarrows(env, e, chain, oldest, newest, oldest, newest, None);
    } else {
      SearchDone(env, e, oldest, newest, None);
    }
  }

  lemma PageRows(page: Page, from: u64, to: u64)
    requires PageOk(page, from, to) && page.nextBlock > from
    ensures AllFieldsOk(page.blocks)
    ensures var refs := Refs(page.blocks); refs != [] && AllOk(refs) && Linked(refs) && refs[0].number == from
  {
  }

  lemma ChildHash(env: Env, e: Engine, chain: int -> BlockRef, low: int, high: int, n: int)
    requires low < n <= high && Inside(e.history, low, high) && FixedChain(env, e, chain, low, high)
    ensures chain(n).parentHash == chain(n - 1).hash
  {
  }

  lemma EngineParts(e: Engine)
    requires EngineOk(e)
    ensures e.depth >= 1 && Retained(e.history, e.depth)
  {
  }

  lemma ForkAttaches(e: Engine, m: int, first: BlockRef)
    requires EngineOk(e) && Inside(e.history, m, m + 1)
    requires first.number == m + 1 && first.parentHash == RetainedAt(e.history, m).hash
    requires first.hash != RetainedAt(e.history, m + 1).hash
    ensures AttachesAt(e.history, first) && first !in e.history
    ensures Displaced(e.history, first) == Some(RetainedAt(e.history, m))
  {
    FindContiguous(e.history, m);
    FindContiguous(e.history, m + 1);
    InHistory(e.history, first);
  }

  lemma ApplyFork(s: seq<BlockRef>, depth: nat, refs: seq<BlockRef>)
    requires depth >= 1 && Retained(s, depth) && s != []
    requires refs != [] && Linked(refs) && AllOk(refs)
    requires refs[0] !in s && AttachesAt(s, refs[0]) && Displaced(s, refs[0]).Some?
    ensures var r := Apply(s, depth, refs);
            r.Ok? && r.value.reorg == Some(ReorgDelta(Displaced(s, refs[0]).value, s[|s| - 1], refs[|refs| - 1]))
  {
    LinkedContiguous(refs);
    ApplyMeaning(s, depth, refs);
    assert Agreeing(s, refs) == 0 && refs[0..] == refs;
  }

  lemma ForkReported(e: Engine, m: int, refs: seq<BlockRef>)
    requires EngineOk(e) && Inside(e.history, m, m + 1)
    requires refs != [] && Linked(refs) && AllOk(refs)
    requires refs[0].number == m + 1 && refs[0].parentHash == RetainedAt(e.history, m).hash
    requires refs[0].hash != RetainedAt(e.history, m + 1).hash
    ensures var r := Apply(e.history, e.depth, refs);
            r.Ok? && r.value.reorg == Some(ReorgDelta(RetainedAt(e.history, m), e.history[|e.history| - 1], refs[|refs| - 1]))
  {
    EngineParts(e);
    hide Apply, AttachesAt, Displaced, Linked, AllOk, Contiguous, EngineOk, RetainedAt, Retained;
    ForkAttaches(e, m, refs[0]);
    ApplyFork(e.history, e.depth, refs);
  }

  /** Just above the recovered height the fixed chain continues the ancestor on
      another branch. */
  lemma ForkPoint(env: Env, e: Engine, chain: int -> BlockRef, m: u64)
    requires EngineOk(e) && e.guard.Some? && e.history != []
    requires Inside(e.history, e.history[0].number, Newest(e)) && FixedChain(env, e, chain, e.history[0].number, Newest(e))
    requires CommonAncestor(env, e) == Ok(m) && m < Newest(e)
    ensures Inside(e.history, m, m + 1)
    ensures chain(m + 1).parentHash == RetainedAt(e.history, m).hash
    ensures chain(m + 1).hash != RetainedAt(e.history, m + 1).hash
  {
    hide *;
    NewestBound(e);
    var oldest := e.history[0].number;
    AncestorIsGreatest(env, e, chain);
    LastAgreement(e, chain, oldest, Newest(e), m);
    ChildHash(env, e, chain, oldest, Newest(e), m + 1);
    ChainAt(env, e, chain, oldest, Newest(e), m);
    ChainAt(env, e, chain, oldest, Newest(e), m + 1);
    SameHashDecides(e, chain, m);
    SameHashDecides(e, chain, m + 1);
    InsideWithin(e.history, oldest, Newest(e), m, m + 1);
  }

  lemma NewestBound(e: Engine)
    requires e.history != [] && e.guard.Some?
    ensures Newest(e) <= U64_MAX
  {
  }

  lemma LastAgreement(e: Engine, chain: int -> BlockRef, low: int, high: int, m: u64)
    requires Inside(e.history, low, high) && GreatestAgreeing(e, chain, low, high, Some(m)) && m < high
    ensures low <= m && Inside(e.history, m, m) && Inside(e.history, m + 1, m + 1)
    ensures Agrees(e, chain, m) && !Agrees(e, chain, m + 1)
  {
    hide Agrees;
  }

  /** The replacement rows fetched from the next height displace the retained
      branch at exactly the recovered ancestor. */
  lemma RecoveryReportsFork(env: Env, e: Engine, chain: int -> BlockRef, m: u64, page: Page, to: u64)
    requires EngineOk(e) && e.guard.Some? && e.history != []
    requires Inside(e.history, e.history[0].number, Newest(e)) && FixedChain(env, e, chain, e.history[0].number, Newest(e))
    requires CommonAncestor(env, e) == Ok(m) && m < Newest(e)
    requires PageOk(page, m + 1, to) && page.nextBlock > m + 1 && RefOf(page.blocks[0]) == chain(m + 1)
    ensures Inside(e.history, m, m)
    ensures var refs := Refs(page.blocks);
            var r := Apply(e.history, e.depth, refs);
            && r.Ok?
            && r.value.reorg == Some(ReorgDelta(RetainedAt(e.history, m), e.history[|e.history| - 1], refs[|refs| - 1]))
  {
    hide PageOk, CommonAncestor, Apply, Linked, AllOk, Contiguous, EngineOk, RetainedAt, FixedChain;
    PageRows(page, m + 1, to);
    ForkPoint(env, e, chain, m);
    ForkReported(e, m, Refs(page.blocks));
  }
}
