/** What a stored cursor resumes to, and when a resume is refused
    (crates/hypersync/src/source_engine.rs, `restore`, `synchronize_committed_cursor`,
    `acknowledge_external_control`; crates/hypersync/src/managed_provider.rs,
    `checkpoints_from_cursor`). */
module Resumption {
  import opened Protocol
  import opened Canonical
  import opened SourceCheckpoint
  import opened PageRules
  import opened SourceEngine
  import opened EngineCalls
  import opened Restart

  // ----- From the cursor -----

  /** A cursor resumes where it stands, with the history its checkpoint holds; one
      without history falls back on its canonical head when it continues from it,
      and one without activation block on its boundary, then on the one given. Two
      different activation blocks are refused. */
  lemma ResumesFrom(c: Cursor, activation: u64)
    ensures Decode(c.providerCheckpoint).Err? <==> ResumeFrom(c, activation).Err? && ResumeFrom(c, activation).error.Undecodable?
    ensures Decode(c.providerCheckpoint).Ok? ==>
              var d, r := Decode(c.providerCheckpoint).value, ResumeFrom(c, activation);
              && (r.Err? <==> exists a, b :: a != b && d.activationBlock == Some(a) && c.activationBoundary == Some(b))
              && (r.Ok? ==>
                    && r.value.nextBlock == c.nextBlock && r.value.sequence == c.batchSequence && r.value.ownerActivation == c.activationBoundary
                    && r.value.coverage == c.canonicalHead && r.value.guard == d.guard
                    && (d.blocks != [] ==> r.value.blocks == d.blocks)
                    && (d.blocks == [] && c.canonicalHead.Some? && c.canonicalHead.value.number + 1 == c.nextBlock ==> r.value.blocks == [c.canonicalHead.value])
                    && (d.blocks == [] && (c.canonicalHead.None? || c.canonicalHead.value.number + 1 != c.nextBlock) ==> r.value.blocks == [])
                    && (d.activationBlock.Some? ==> r.value.activation == d.activationBlock.value)
                    && (d.activationBlock.None? && c.activationBoundary.Some? ==> r.value.activation == c.activationBoundary.value)
                    && (d.activationBlock.None? && c.activationBoundary.None? ==> r.value.activation == activation))
  {
    hide Decode;
    if Decode(c.providerCheckpoint).Ok? {
      var d := Decode(c.providerCheckpoint).value;
      if ResumeFrom(c, activation).Err? {
        var a, b := d.activationBlock.value, c.activationBoundary.value;
        assert a != b && d.activationBlock == Some(a) && c.activationBoundary == Some(b);
      }
    }
  }

  // ----- Into the engine -----

  /** The guard speaks of the newest retained block, or of the block below the next
      when nothing is retained; without a guard that block must make one. */
  predicate GuardFits(history: seq<BlockRef>, nextBlock: u64, guard: Option<RollbackGuard>) {
    && (guard.Some? ==> guard.value.firstBlockNumber <= guard.value.blockNumber)
    && (if history == [] then
          guard.Some? ==> guard.value.timestamp >= 0 && nextBlock == guard.value.blockNumber + 1
        else
          var tip := history[|history| - 1];
          && nextBlock == tip.number + 1
          && (if guard.Some? then guard.value.blockNumber == tip.number && guard.value.hash == tip.hash && guard.value.timestamp == tip.timestamp
              else BlockRefOk(tip) && tip.timestamp <= I64_MAX))
  }

  /** The covered head is well formed, not below what was fetched, and not
      contradicted by the history. */
  ghost predicate CoverageFits(history: seq<BlockRef>, nextBlock: u64, coverage: Option<BlockRef>) {
    coverage.Some? ==>
      var c := coverage.value;
      BlockRefOk(c) && c.number < U64_MAX && nextBlock <= c.number + 1 && forall x :: x in history && x.number == c.number ==> x == c
  }

  ghost predicate ResumeFits(resume: Resume, depth: nat) {
    && Linked(resume.blocks) && AllOk(resume.blocks)
    && GuardFits(LastN(resume.blocks, depth), resume.nextBlock, resume.guard)
    && CoverageFits(LastN(resume.blocks, depth), resume.nextBlock, resume.coverage)
  }

  /** The guard an engine holds after a resume. */
  ghost predicate GuardAfter(history: seq<BlockRef>, guard: Option<RollbackGuard>, held: Option<RollbackGuard>) {
    if guard.Some? || history == [] then held == guard
    else held.Some? && GuardOk(held.value, [history[|history| - 1]])
  }

  lemma GuardResumes(history: seq<BlockRef>, nextBlock: u64, guard: Option<RollbackGuard>)
    ensures var r := ResumeGuard(history, nextBlock, guard);
            (r.Ok? <==> GuardFits(history, nextBlock, guard)) && (r.Ok? ==> GuardAfter(history, guard, r.value))
  {
    if history != [] { GuardOfBlock(history[|history| - 1]); }
    hide GuardOk;
  }

  lemma CoverageResumes(history: seq<BlockRef>, nextBlock: u64, coverage: Option<BlockRef>)
    requires Contiguous(history)
    ensures CoverageError(history, nextBlock, coverage).None? <==> CoverageFits(history, nextBlock, coverage)
  {
    if coverage.Some? {
      var n := coverage.value.number;
      FindContiguous(history, n);
      if Find(history, n).Some? { assert Find(history, n).value in history; }
      forall x | x in history && x.number == n ensures Find(history, n) == Some(x) {
        var i :| 0 <= i < |history| && history[i] == x;
        assert history[i].number == history[0].number + i;
      }
      hide Find, Contiguous;
    }
  }

  /** Blocks given to an empty history are taken exactly when they form a chain. */
  lemma BlocksResume(blocks: seq<BlockRef>, depth: nat)
    requires depth >= 1
    ensures var r := Apply([], depth, blocks);
            && (r.Ok? <==> Linked(blocks) && AllOk(blocks))
            && (r.Ok? ==> r.value.blocks == LastN(blocks, depth) && Contiguous(r.value.blocks))
  {
    EmptyRetained(depth);
    ApplyMeaning([], depth, blocks);
    assert Agreeing([], blocks) == 0 && blocks[0..] == blocks;
    if Linked(blocks) { LinkedContiguous(blocks); }
    if Apply([], depth, blocks).Ok? {
      LinkedContiguous(Apply([], depth, blocks).value.blocks);
      assert blocks != [] ==> PopAbove([], blocks[0].number - 1) + blocks == blocks;
    }
    hide Apply;
  }

  /** A service restarts from a resume exactly when it fits, and then holds it. */
  lemma RestoresIff(ds: DesiredState, resume: Resume, depth: nat)
    ensures var bound := if depth == 0 then 1 else depth;
            var r := Restore(ds, resume, depth);
            && (r.Ok? <==> ResumeFits(resume, bound))
            && (r.Ok? ==>
                  && r.value.ds == ds && r.value.history == LastN(resume.blocks, bound) && r.value.depth == bound
                  && r.value.nextBlock == resume.nextBlock && r.value.sequence == resume.sequence && r.value.coverage == resume.coverage
                  && r.value.activation == resume.activation && r.value.ownerActivation == resume.ownerActivation
                  && r.value.pending.None? && r.value.queued.None? && GuardAfter(r.value.history, resume.guard, r.value.guard))
  {
    var bound := if depth == 0 then 1 else depth;
    var history := LastN(resume.blocks, bound);
    BlocksResume(resume.blocks, bound);
    GuardResumes(history, resume.nextBlock, resume.guard);
    if Linked(resume.blocks) && AllOk(resume.blocks) { CoverageResumes(history, resume.nextBlock, resume.coverage); }
    hide Apply, ResumeGuard, CoverageError, GuardFits, CoverageFits, GuardAfter, Contiguous;
  }

  /** A running engine is set to a committed cursor exactly when nothing is pending,
      its sequence does not go back and the resume fits; nothing else changes. */
  lemma SynchronizesIff(e: Engine, resume: Resume)
    requires EngineOk(e)
    ensures var r := Synchronize(e, resume);
            && (r.Ok? <==> e.pending.None? && e.sequence <= resume.sequence && ResumeFits(resume, e.depth))
            && (r == Err(PendingDelivery) <==> e.pending.Some?)
            && (r.Ok? ==>
                  && r.value == e.(history := LastN(resume.blocks, e.depth), nextBlock := resume.nextBlock, sequence := resume.sequence,
                                   activation := resume.activation, coverage := resume.coverage, ownerActivation := resume.ownerActivation, guard := r.value.guard)
                  && GuardAfter(r.value.history, resume.guard, r.value.guard))
  {
    var history := LastN(resume.blocks, e.depth);
    BlocksResume(resume.blocks, e.depth);
    GuardResumes(history, resume.nextBlock, resume.guard);
    if Linked(resume.blocks) && AllOk(resume.blocks) { CoverageResumes(history, resume.nextBlock, resume.coverage); }
    hide Apply, ResumeGuard, CoverageError, GuardFits, CoverageFits, GuardAfter, Contiguous, Retained, HeadsOk;
  }

  /** A control delivery acknowledged elsewhere only moves the sequence, never back
      and never past a pending delivery. */
  lemma ControlAcknowledged(e: Engine, sequence: u64)
    ensures var r := AcknowledgeControl(e, sequence);
            && (r == Err(PendingDelivery) <==> e.pending.Some?)
            && (r == Err(SequenceRegression(e.sequence, sequence)) <==> e.pending.None? && sequence < e.sequence)
            && (r.Ok? <==> e.pending.None? && e.sequence <= sequence)
            && (r.Ok? ==> r.value.sequence == sequence && r.value.(sequence := e.sequence) == e)
  {
  }
}
