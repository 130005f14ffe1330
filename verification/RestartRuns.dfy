/** Restart over whole runs: every engine reached by polling, acknowledging,
    external controls and synchronization can be restored from its durable
    cursor (crates/hypersync/src/source_engine.rs,
    crates/hypersync/src/managed_provider.rs). */
module RestartRuns {
  import opened Protocol
  import opened Canonical
  import opened PageRules
  import opened Normalize
  import opened Emission
  import opened SourceEngine
  import opened Handshake
  import opened SourceCheckpoint
  import opened Restart
  import Ordering

  // ----- Runs -----

  datatype Event = Poll(env: Env, to: u64) | Acked(token: Bytes) | External(sequence: u64) | Synced(cursor: Cursor)

  lemma CommitKeeps(e: Engine, token: Bytes)
    requires EngineOk(e) && Commit(e, token).Ok?
    ensures EngineOk(Commit(e, token).value)
  {
  }

  /** One call on the engine; a failed one changes nothing. */
  ghost function Next(e: Engine, ev: Event): (r: Engine)
    requires EngineOk(e)
    ensures EngineOk(r)
  {
    match ev
    case Poll(env, to) =>
      NextBatchKeeps(env, e, to);
      var step := Produce(env, e, to);
      if step.Ok? then step.value.engine else e
    case Acked(token) =>
      var after := Commit(e, token);
      if after.Ok? then CommitKeeps(e, token); after.value else e
    case External(sequence) =>
      var after := AcknowledgeControl(e, sequence);
      if after.Ok? then after.value else e
    case Synced(cursor) =>
      var resume := ResumeFrom(cursor, e.activation);
      if resume.Err? || Synchronize(e, resume.value).Err? then e
      else
        SynchronizeKeeps(e, resume.value);
        Synchronize(e, resume.value).value
  }

  ghost function Run(start: Engine, events: seq<Event>): (e: Engine)
    requires EngineOk(start)
    ensures EngineOk(e)
  {
    if events == [] then start else Next(Run(start, events[..|events| - 1]), events[|events| - 1])
  }

  /** A data delivery in flight resumes right after the retained tip. */
  predicate Landed(e: Engine) {
    e.pending.Some? && e.pending.value.advances && e.pending.value.delivery.cursor.Some? && e.history != [] ==>
      e.pending.value.delivery.cursor.value.nextBlock == e.history[|e.history| - 1].number + 1
  }

  /** Every page of the run lands. */
  ghost predicate AllLand(start: Engine, events: seq<Event>)
    requires EngineOk(start)
  {
    Landed(Run(start, events)) && (events == [] || AllLand(start, events[..|events| - 1]))
  }

  // ----- What an engine in a run is doing -----

  predicate Idle(e: Engine) {
    e.pending.None? && e.queued.None?
  }

  /** A steady engine with nothing in flight. */
  ghost predicate Ready(e: Engine) {
    EngineOk(e) && Steady(e) && Idle(e)
  }

  datatype Round = Round(page: Page, from: u64, to: u64, anchor: Option<BlockRef>, prepared: Prepared)

  /** The round's page was admitted and prepared by `base`. */
  ghost predicate Prepares(base: Engine, r: Round) {
    && PageOk(r.page, r.from, r.to) && r.page.nextBlock > r.from && (r.anchor.Some? ==> r.anchor.value.number + 1 == r.from)
    && base.sequence < U64_MAX && Prepare(base, r.page, base.sequence + 1, r.anchor) == Ok(r.prepared)
  }

  /** A displaced branch is announced by a control ahead of its replacement. */
  predicate Replaces(base: Engine, p: Prepared) {
    && p.reorg.Some? && base.sequence + 2 <= U64_MAX && CanonicalAt(base.ds, p.reorg.value.oldTip.number, base.activation)
    && ReorgControl(base, base.sequence + 1, p.reorg.value).Ok? && Renumber(p.delivery, base.sequence + 2).Ok?
  }

  datatype Phase = Resting | Sent(round: Round) | Controlled(round: Round)

  function Control(base: Engine, p: Prepared): Delivery
    requires Replaces(base, p)
  {
    ReorgControl(base, base.sequence + 1, p.reorg.value).value
  }

  function Replacement(base: Engine, p: Prepared): Delivery
    requires Replaces(base, p)
  {
    Renumber(p.delivery, base.sequence + 2).value
  }

  /** The engine `base` turns into during a round. */
  ghost predicate InPhase(live: Engine, base: Engine, ph: Phase) {
    match ph
    case Resting => live == base
    case Sent(r) =>
      && Prepares(base, r)
      && var p := r.prepared;
      if p.reorg.None? then live == base.(history := p.history, pending := Some(Pending(p.delivery, p.guard, true)))
      else
        && Replaces(base, p)
        && live == base.(history := p.history, pending := Some(Pending(Control(base, p), base.guard, false)),
                         queued := Some(Pending(Replacement(base, p), p.guard, true)))
    case Controlled(r) =>
      && Prepares(base, r)
      && var p := r.prepared;
      && Replaces(base, p)
      && live == base.(history := p.history, sequence := base.sequence + 1, coverage := Some(p.reorg.value.commonAncestor),
                       pending := Some(Pending(Replacement(base, p), p.guard, true)))
  }

  lemma StageIs(env: Env, base: Engine, p: Prepared)
    requires base.sequence < U64_MAX && Idle(base) && Stage(env, base, base.sequence + 1, p).Ok?
    ensures var live := Stage(env, base, base.sequence + 1, p).value.engine;
            if p.reorg.None? then live == base.(history := p.history, pending := Some(Pending(p.delivery, p.guard, true)))
            else
              && Replaces(base, p)
              && live == base.(history := p.history, pending := Some(Pending(Control(base, p), base.guard, false)),
                               queued := Some(Pending(Replacement(base, p), p.guard, true)))
  {
    hide CanonicalAt, ReorgControl, Renumber;
  }

  lemma PollStages(env: Env, base: Engine, to: u64) returns (r: Round)
    requires Ready(base) && Produce(env, base, to).Ok? && Produce(env, base, to).value.emitted.Some?
    ensures InPhase(Produce(env, base, to).value.engine, base, Sent(r))
  {
    hide Attempt, Prepare, PageOk, EngineOk, Steady, Stage, Replaces;
    var page, from, anchor := AttemptPrepares(env, base, to, base.sequence + 1, LimitsFor(base.nextBlock, to), None);
    var p := Prepare(base, page, base.sequence + 1, anchor).value;
    r := Round(page, from, to, anchor, p);
    StageIs(env, base, p);
  }

  // ----- Landing -----

  lemma PreparedNext(e: Engine, page: Page, from: u64, to: u64, sequence: u64, anchor: Option<BlockRef>)
    requires PageOk(page, from, to) && Prepare(e, page, sequence, anchor).Ok?
    ensures var d := Prepare(e, page, sequence, anchor).value.delivery;
            d.cursor.Some? && d.cursor.value.nextBlock == page.nextBlock
  {
    hide Prepare, PageOk, Events, PageRecords, CoveredHead, ProgressId;
    PreparedShape(e, page, from, to, sequence, anchor);
  }

  /** In flight, a page has landed exactly when it reaches the cursor, replaces a
      branch or starts a history. */
  lemma LandedIff(base: Engine, r: Round)
    requires EngineOk(base) && Steady(base) && Prepares(base, r)
    ensures var p := r.prepared;
            p.delivery.cursor.Some? && p.history != [] &&
            (Lands(base, r.page, p) <==> p.delivery.cursor.value.nextBlock == p.history[|p.history| - 1].number + 1)
  {
    hide Prepare, PageOk, EngineOk;
    PreparedNext(base, r.page, r.from, r.to, base.sequence + 1, r.anchor);
    PreparedTip(base, r.page, r.from, r.to, base.sequence + 1, r.anchor, r.prepared);
    LastRowIs(r.page, r.from, r.to);
  }

  /** The engine after a landed page is acknowledged is ready again. */
  lemma AfterIsReady(base: Engine, r: Round, d: Delivery)
    requires Ready(base) && Prepares(base, r) && Lands(base, r.page, r.prepared)
    requires d.cursor.Some? && SameCursor(r.prepared.delivery.cursor, d.cursor.value)
    ensures Ready(After(base, r.prepared.(delivery := d)))
  {
    hide Prepare, PageOk, Retained, CoveredHead, PageRecords, Events, ProgressId, Lands;
    LandedIff(base, r);
    PreparedKeeps(base, r.page, base.sequence + 1, r.anchor);
    PreparedShape(base, r.page, r.from, r.to, base.sequence + 1, r.anchor);
    CoveredBound(base, r.page, r.from, r.to);
  }

  lemma CoveredBound(e: Engine, page: Page, from: u64, to: u64)
    requires PageOk(page, from, to)
    ensures var head := CoveredHead(e.ds, page.blocks, e.activation); head.Some? ==> head.value.number < U64_MAX
  {
    if CoveredHead(e.ds, page.blocks, e.activation).Some? {
      var k := CoveredHeadIsRow(e.ds, page, from, to, e.activation);
      RefsContiguous(page, from, to);
    }
  }

  // ----- Every step -----

  predicate SameService(a: Engine, b: Engine) {
    a.ds == b.ds && a.depth == b.depth && a.maxDeliveryBytes == b.maxDeliveryBytes && a.limits == b.limits
  }

  /** Some ready engine explains what `live` is doing. */
  ghost predicate Explains(live: Engine, base: Engine, ph: Phase) {
    Ready(base) && InPhase(live, base, ph) && SameService(live, base)
  }

  /** With something in flight, or nothing to emit, a poll changes nothing. */
  lemma PollIdles(e: Engine, env: Env, to: u64)
    requires EngineOk(e)
    requires e.pending.Some? || Produce(env, e, to).Err? || Produce(env, e, to).value.emitted.None?
    ensures Next(e, Poll(env, to)) == e
  {
    hide Attempt, EngineOk, ReorgControl, Renumber, CanonicalAt;
  }

  lemma PollStep(live: Engine, base: Engine, ph: Phase, env: Env, to: u64) returns (ph': Phase)
    requires EngineOk(live) && Explains(live, base, ph)
    ensures Explains(Next(live, Poll(env, to)), base, ph')
    ensures ph' == ph || (ph.Resting? && ph'.Sent?)
  {
    hide Produce, Prepares, Replaces, EngineOk, Steady;
    ph' := ph;
    if ph.Resting? && Produce(env, base, to).Ok? && Produce(env, base, to).value.emitted.Some? {
      var r := PollStages(env, base, to);
      ph' := Sent(r);
    } else {
      PollIdles(live, env, to);
    }
  }

  /** Which engine an acknowledgement leads to. */
  lemma CommitIs(live: Engine, base: Engine, ph: Phase, token: Bytes)
    requires Ready(base) && InPhase(live, base, ph) && Commit(live, token).Ok?
    ensures !ph.Resting? && live.pending.Some? && live.pending.value.delivery.cursor.Some?
    ensures var d := live.pending.value.delivery; var p := ph.round.prepared;
            if ph.Sent? && p.reorg.Some? then InPhase(Commit(live, token).value, base, Controlled(ph.round))
            else
              && Commit(live, token).value == After(base, p.(delivery := d)) && SameCursor(p.delivery.cursor, d.cursor.value)
              && live.pending.value.advances && live.history == p.history
  {
    hide Prepares, EngineOk, Steady, Encode, UpTo, Token, GuardAt;
  }

  /** An acknowledged data page leaves a ready engine. */
  lemma AckRests(live: Engine, base: Engine, ph: Phase, token: Bytes)
    requires Explains(live, base, ph) && Landed(live) && Commit(live, token).Ok?
    requires !(ph.Sent? && ph.round.prepared.reorg.Some?)
    ensures var after := Commit(live, token).value; Ready(after) && SameService(after, base)
  {
    CommitIs(live, base, ph, token);
    assert Prepares(base, ph.round);
    hide Commit, InPhase, Prepares, EngineOk, Steady, Lands;
    LandedIff(base, ph.round);
    AfterIsReady(base, ph.round, live.pending.value.delivery);
  }

  lemma AckStep(live: Engine, base: Engine, ph: Phase, token: Bytes) returns (base': Engine, ph': Phase)
    requires EngineOk(live) && Explains(live, base, ph) && Landed(live)
    ensures Explains(Next(live, Acked(token)), base', ph') && SameService(base', base)
  {
    base', ph' := base, ph;
    hide InPhase, EngineOk, Steady, Landed;
    if Commit(live, token).Ok? {
      CommitIs(live, base, ph, token);
      hide Commit;
      if ph.Sent? && ph.round.prepared.reorg.Some? {
        ph' := Controlled(ph.round);
        ControlledService(Next(live, Acked(token)), base, ph.round);
      } else {
        AckRests(live, base, ph, token);
        base', ph' := Next(live, Acked(token)), Resting;
        ResetsTo(base');
      }
    }
  }

  lemma ControlledService(live: Engine, base: Engine, r: Round)
    requires InPhase(live, base, Controlled(r))
    ensures SameService(live, base)
  {
    hide Prepares, Replaces;
  }

  lemma ResetsTo(e: Engine)
    ensures InPhase(e, e, Resting)
  {
  }

  lemma SynchronizedSteady(e: Engine, c: Cursor)
    requires Ready(e) && ResumeFrom(c, e.activation).Ok? && Synchronize(e, ResumeFrom(c, e.activation).value).Ok?
    ensures Ready(Synchronize(e, ResumeFrom(c, e.activation).value).value)
  {
    SynchronizeKeeps(e, ResumeFrom(c, e.activation).value);
    hide Apply, Decode, Retained, GuardAt;
  }

  lemma OtherStep(live: Engine, base: Engine, ph: Phase, ev: Event) returns (base': Engine)
    requires EngineOk(live) && Explains(live, base, ph) && (ev.External? || ev.Synced?)
    ensures Explains(Next(live, ev), base', ph) && SameService(base', base)
  {
    base' := base;
    if ph.Resting? {
      if ev.Synced? && ResumeFrom(ev.cursor, live.activation).Ok? && Synchronize(live, ResumeFrom(ev.cursor, live.activation).value).Ok? {
        SynchronizedSteady(live, ev.cursor);
      }
      base' := Next(live, ev);
      hide ResumeFrom, Apply, ResumeGuard, CoverageError, Retained;
    } else {
      hide ResumeFrom, Prepares, Replaces, EngineOk, Steady, Apply;
    }
  }

  lemma NextStep(live: Engine, base: Engine, ph: Phase, ev: Event) returns (base': Engine, ph': Phase)
    requires EngineOk(live) && Explains(live, base, ph) && Landed(live)
    ensures Explains(Next(live, ev), base', ph') && SameService(base', base)
  {
    hide EngineOk, Next, InPhase, Steady, Landed;
    base', ph' := base, ph;
    match ev
    case Poll(env, to) => ph' := PollStep(live, base, ph, env, to);
    case Acked(token) => base', ph' := AckStep(live, base, ph, token);
    case External(_) => base' := OtherStep(live, base, ph, ev);
    case Synced(_) => base' := OtherStep(live, base, ph, ev);
  }

  // ----- Whole runs -----

  /** Every engine reached by a run whose pages land is a steady engine at rest
      or one round away from it. */
  lemma {:induction false} RunsStaySteady(start: Engine, events: seq<Event>) returns (base: Engine, ph: Phase)
    requires Ready(start) && AllLand(start, events)
    ensures Explains(Run(start, events), base, ph) && SameService(base, start)
  {
    if events == [] {
      base, ph := start, Resting;
      ResetsTo(start);
    } else {
      var front := events[..|events| - 1];
      var b, p := RunsStaySteady(start, front);
      hide Explains, Next, Landed, EngineOk;
      assert AllLand(start, front);
      base, ph := NextStep(Run(start, front), b, p, events[|events| - 1]);
    }
  }

  /** The control of a round restores an engine that prepares the same page again:
      the same history and guard, no reorg, and the queued replacement itself
      exactly when a row is canonical or the coverage was the ancestor already. */
  ghost predicate ControlRestarts(base: Engine, r: Round, c: Cursor)
    requires base.sequence + 2 <= U64_MAX && Replaces(base, r.prepared)
  {
    var resume := ResumeFrom(c, base.activation);
    && resume.Ok?
    && var restored := Restore(base.ds, resume.value, base.depth);
    && restored.Ok?
    && var again := Prepare(restored.value, r.page, base.sequence + 2, None);
    && again.Ok? && again.value == Prepared(again.value.delivery, r.prepared.guard, r.prepared.history, None)
    && (again.value.delivery == Replacement(base, r.prepared) <==>
        CoveredHead(base.ds, r.page.blocks, base.activation).Some? || base.coverage == Some(r.prepared.reorg.value.commonAncestor))
  }

  lemma ControlRestartsHere(base: Engine, r: Round)
    requires Ready(base) && Prepares(base, r) && Replaces(base, r.prepared)
    ensures Control(base, r.prepared).cursor.Some? && ControlRestarts(base, r, Control(base, r.prepared).cursor.value)
  {
    hide Prepare, PageOk, EngineOk, Steady, ReorgControl, Renumber, ResumeFrom, Restore, CoveredHead;
    RestartAfterControl(base, r.page, r.from, r.to, base.sequence + 1, r.anchor, r.prepared);
  }

  lemma DataRestartsHere(base: Engine, r: Round, d: Delivery)
    requires Ready(base) && Prepares(base, r) && d.cursor.Some?
    requires Renumber(r.prepared.delivery, d.sequence) == Ok(d)
    ensures RestoresTo(base.ds, base.depth, base.activation, d.cursor.value, After(base, r.prepared.(delivery := d))) <==>
            Resumes(base, r.page, r.prepared)
  {
    hide Prepare, PageOk, EngineOk, Steady, RestoresTo, Resumes, After, Renumber;
    RestartAfterData(base, r.page, r.from, r.to, base.sequence + 1, r.anchor, r.prepared, d.sequence);
  }

  lemma PreparedNumber(e: Engine, page: Page, sequence: u64, anchor: Option<BlockRef>, p: Prepared)
    requires Prepare(e, page, sequence, anchor) == Ok(p)
    ensures p.delivery.sequence == sequence && Renumber(p.delivery, sequence) == Ok(p.delivery)
  {
    PreparedCursor(e, page, sequence, anchor, p);
    PreparedToken(e, page, sequence, anchor);
    hide Prepare, Token;
  }

  lemma PreparedToken(e: Engine, page: Page, sequence: u64, anchor: Option<BlockRef>)
    requires Prepare(e, page, sequence, anchor).Ok?
    ensures Prepare(e, page, sequence, anchor).value.delivery.token == Token(sequence)
  {
    hide Prepare, Events, CoveredHead, WithHead, RecordsOf, Ordering.StableSort, Token, ProgressId, Encode;
    var checkpoint := PreparedIs(e, page, sequence, anchor);
  }

  /** A pending data delivery is the round's, under its own sequence. */
  lemma PendingNumber(live: Engine, base: Engine, ph: Phase)
    requires Ready(base) && InPhase(live, base, ph) && !ph.Resting? && !(ph.Sent? && ph.round.prepared.reorg.Some?)
    ensures live.pending.Some? && Renumber(ph.round.prepared.delivery, live.pending.value.delivery.sequence) == Ok(live.pending.value.delivery)
  {
    hide Prepare, PageOk, EngineOk, Steady, ReorgControl, Token;
    var r := ph.round;
    PreparedNumber(base, r.page, base.sequence + 1, r.anchor, r.prepared);
  }

  /** At every acknowledgement of every run whose pages land: restoring from the
      cursor of a data delivery gives the engine that kept going exactly when its
      page resumes, and restoring from the cursor of a control gives an engine
      that stages the replacement again. */
  lemma RestartAnywhere(start: Engine, events: seq<Event>, token: Bytes) returns (base: Engine, ph: Phase)
    requires Ready(start) && AllLand(start, events) && Commit(Run(start, events), token).Ok?
    ensures Explains(Run(start, events), base, ph) && SameService(base, start) && !ph.Resting?
    ensures var live := Run(start, events);
            && live.pending.Some? && live.pending.value.delivery.cursor.Some?
            && var c := live.pending.value.delivery.cursor.value;
            if ph.Sent? && ph.round.prepared.reorg.Some?
            then Replaces(base, ph.round.prepared) && ControlRestarts(base, ph.round, c)
            else RestoresTo(base.ds, base.depth, base.activation, c, Commit(live, token).value) <==>
                 Resumes(base, ph.round.page, ph.round.prepared)
  {
    base, ph := RunsStaySteady(start, events);
    var live := Run(start, events);
    hide Run, Commit, EngineOk, Steady, Prepares, AllLand, RestoresTo, Resumes, ControlRestarts, ReorgControl, Renumber;
    CommitIs(live, base, ph, token);
    if ph.Sent? && ph.round.prepared.reorg.Some? {
      ControlRestartsHere(base, ph.round);
    } else {
      PendingNumber(live, base, ph);
      DataRestartsHere(base, ph.round, live.pending.value.delivery);
    }
  }

  lemma RunLast(start: Engine, events: seq<Event>)
    requires EngineOk(start) && events != []
    ensures Run(start, events) == Next(Run(start, events[..|events| - 1]), events[|events| - 1])
  {
    hide Next, EngineOk;
  }

  lemma {:induction false} RunOn(start: Engine, done: seq<Event>, rest: seq<Event>)
    requires EngineOk(start)
    ensures Run(start, done + rest) == Run(Run(start, done), rest)
  {
    hide Next, EngineOk;
    var all := done + rest;
    if rest == [] {
      assert all == done;
    } else {
      hide Run;
      var front := rest[..|rest| - 1];
      RunOn(start, done, front);
      assert all[..|all| - 1] == done + front && all[|all| - 1] == rest[|rest| - 1];
      RunLast(start, all);
      RunLast(Run(start, done), rest);
    }
  }

  lemma RunOne(e: Engine, ev: Event)
    requires EngineOk(e)
    ensures Run(e, [ev]) == Next(e, ev)
  {
    assert [ev][..0] == [];
  }

  /** The engine's own response limits, which restoring resets. */
  predicate Configured(e: Engine) {
    e.maxDeliveryBytes == MAX_DELIVERY_SIZE_BYTES && e.limits == DEFAULT_LIMITS
  }

  lemma SameIsEqual(ds: DesiredState, resume: Resume, depth: nat, live: Engine)
    requires Restore(ds, resume, depth).Ok? && Configured(live) && SameEngine(Restore(ds, resume, depth).value, live)
    ensures Restore(ds, resume, depth).value == live
  {
    hide Apply, ResumeGuard, CoverageError;
  }

  /** A crash right after a resuming page is acknowledged is invisible: whatever
      calls follow, the restored engine goes through the same states as the one
      that never stopped. */
  lemma CrashIsInvisible(start: Engine, events: seq<Event>, token: Bytes, rest: seq<Event>) returns (base: Engine, ph: Phase)
    requires Ready(start) && Configured(start) && AllLand(start, events) && Commit(Run(start, events), token).Ok?
    ensures Explains(Run(start, events), base, ph) && !ph.Resting?
    ensures var live := Run(start, events); live.pending.Some? && live.pending.value.delivery.cursor.Some?
    ensures !(ph.Sent? && ph.round.prepared.reorg.Some?) && Resumes(base, ph.round.page, ph.round.prepared) ==>
            var resume := ResumeFrom(Run(start, events).pending.value.delivery.cursor.value, base.activation);
            && resume.Ok?
            && var restored := Restore(base.ds, resume.value, base.depth);
            && restored.Ok? && Ready(restored.value)
            && Run(restored.value, rest) == Run(start, events + [Acked(token)] + rest)
  {
    base, ph := RestartAnywhere(start, events, token);
    var live := Run(start, events);
    hide Run, EngineOk, Steady, Resumes, ResumeFrom, Restore;
    if !(ph.Sent? && ph.round.prepared.reorg.Some?) && Resumes(base, ph.round.page, ph.round.prepared) {
      var c := live.pending.value.delivery.cursor.value;
      var resume := ResumeFrom(c, base.activation).value;
      SameIsEqual(base.ds, resume, base.depth, Commit(live, token).value);
      RestoredSteady(base.ds, base.depth, base.activation, c);
      RunOne(live, Acked(token));
      RunOn(start, events, [Acked(token)]);
      RunOn(start, events + [Acked(token)], rest);
    }
  }

  /** A fresh engine is ready, so all of this holds from the start. */
  lemma FreshIsReady(ds: DesiredState, nextBlock: u64, activation: u64, depth: nat)
    requires depth >= 1
    ensures var e := Engine(ds, nextBlock, 0, activation, Some(activation), None, [], depth, None, MAX_DELIVERY_SIZE_BYTES, DEFAULT_LIMITS, None, None);
            Ready(e) && Configured(e)
  {
  }
}
