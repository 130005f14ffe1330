/** What each lifecycle change does to the recorded topology, when it is refused and
    how compensation ends, said over the arguments of the call
    (crates/remote/src/hybrid.rs, `register_interests` and the owner lifecycle
    operations). */
module HybridChanges {
  import opened Protocol
  import opened HybridLifecycle

  /** The two topologies hold the same filter for every other owner. */
  ghost predicate OthersKept(before: Topology, after: Topology, touched: set<Owner>) {
    forall o :: o !in touched ==> EntryOf(after, o) == EntryOf(before, o)
  }

  /** The topology a committed change leaves. */
  ghost predicate Effect(before: Topology, op: Change, after: Topology) {
    match op
    case RegisterBase(f) => after.base == f && after.owners == before.owners
    case ReplaceOwners(m) => after.base == before.base && after.owners == m
    case ReplaceOwnersGlobally(m) => after.base == before.base && after.owners == m
    case UpsertOwners(entries) =>
      && after.base == before.base && OthersKept(before, after, OwnersOf(entries))
      && forall k :: 0 <= k < |entries| ==> EntryOf(after, entries[k].owner) == Some(entries[k].filter)
    case AddOwner(o, f) => after.base == before.base && EntryOf(after, o) == Some(f) && OthersKept(before, after, {o})
    case RemoveOwner(o) => after.base == before.base && EntryOf(after, o).None? && OthersKept(before, after, {o})
  }

  /** The topology already is what the change asks for. */
  ghost predicate AlreadySo(t: Topology, op: Change) {
    match op
    case RegisterBase(f) => t.base == f
    case ReplaceOwners(m) => t.owners == m
    case ReplaceOwnersGlobally(_) => false
    case UpsertOwners(entries) => forall k :: 0 <= k < |entries| ==> EntryOf(t, entries[k].owner) == Some(entries[k].filter)
    case AddOwner(o, f) => EntryOf(t, o) == Some(f)
    case RemoveOwner(o) => EntryOf(t, o).None?
  }

  ghost predicate SomeActive(owners: map<Owner, Filter>) {
    exists o :: o in owners && owners[o] != []
  }

  /** No child is called: the coordinator is in the other mode, nothing would
      change, a destructive change after coverage would leave something active, or
      a bulk change names an owner twice. */
  ghost predicate Refuses(h: Hybrid, op: Change) {
    || (op.RegisterBase? && h.topology.owners != map[])
    || (!op.RegisterBase? && h.topology.base != [])
    || AlreadySo(h.topology, op)
    || (op.RegisterBase? && h.coverage.Some? && op.interests != [])
    || (op.ReplaceOwners? && h.coverage.Some? && SomeActive(op.next))
    || (op.UpsertOwners? && exists i, j :: 0 <= i < j < |op.entries| && op.entries[i].owner == op.entries[j].owner)
  }

  /** Every await of a change to the given topology finishes. */
  ghost predicate Finishes(s: Script, next: Topology) {
    s.live.Done? && s.historical.Done? && (s.chainOk || (next.base == [] && !SomeActive(next.owners)))
  }

  // ----- The effect is exact -----

  lemma {:induction false} EntriesInstalled(owners: map<Owner, Filter>, entries: seq<Named>)
    requires Distinct(entries)
    ensures forall k :: 0 <= k < |entries| ==> EntryIn(WithEntries(owners, entries), entries[k].owner) == Some(entries[k].filter)
  {
    if entries != [] {
      var front, last := entries[..|entries| - 1], entries[|entries| - 1];
      EntriesInstalled(owners, front);
      forall k | 0 <= k < |entries| ensures EntryIn(WithEntries(owners, entries), entries[k].owner) == Some(entries[k].filter) {
        if k < |front| { assert front[k] == entries[k] && entries[k].owner != last.owner; }
      }
    }
  }

  lemma EffectOfNext(t: Topology, op: Change)
    requires op.UpsertOwners? ==> Distinct(op.entries)
    ensures Effect(t, op, NextTopology(t, op))
  {
    if op.UpsertOwners? {
      EntriesInstalled(t.owners, op.entries);
      forall o | o !in OwnersOf(op.entries) ensures EntryOf(NextTopology(t, op), o) == EntryOf(t, o) {
        EntriesOutside(t.owners, op.entries, o);
      }
    }
  }

  lemma SameEntries(a: Topology, b: Topology)
    requires a.base == b.base && forall o :: EntryOf(a, o) == EntryOf(b, o)
    ensures a == b
  {
    SameTopology(a, b);
  }

  /** A change has one effect. */
  lemma EffectUnique(t: Topology, op: Change, a: Topology, b: Topology)
    requires Effect(t, op, a) && Effect(t, op, b)
    ensures a == b
  {
    if op.UpsertOwners? || op.AddOwner? || op.RemoveOwner? {
      forall o ensures EntryOf(a, o) == EntryOf(b, o) {
        if op.UpsertOwners? && o in OwnersOf(op.entries) {
          var k :| 0 <= k < |op.entries| && op.entries[k].owner == o;
        }
      }
      SameEntries(a, b);
    }
  }

  lemma EffectIsNext(t: Topology, op: Change, next: Topology)
    requires Effect(t, op, next) && (op.UpsertOwners? ==> Distinct(op.entries))
    ensures NextTopology(t, op) == next
  {
    EffectOfNext(t, op);
    EffectUnique(t, op, NextTopology(t, op), next);
  }

  /** Nothing changes exactly when the topology already is what is asked for. */
  lemma UnchangedIff(t: Topology, op: Change)
    requires op.UpsertOwners? ==> Distinct(op.entries)
    ensures AlreadySo(t, op) <==> !op.ReplaceOwnersGlobally? && NextTopology(t, op) == t
  {
    EffectOfNext(t, op);
    if AlreadySo(t, op) { EffectUnique(t, op, NextTopology(t, op), t); }
  }

  lemma StoppedIff(h: Hybrid, op: Change, refused: bool)
    ensures Stopped(h, op, refused) <==> refused || Refuses(h, op)
  {
    if !(op.UpsertOwners? && !Distinct(op.entries)) { UnchangedIff(h.topology, op); }
    hide AlreadySo;
    if op.RegisterBase? || op.ReplaceOwners? { assert NextTopology(h.topology, op) == if op.RegisterBase? then h.topology.(base := op.interests) else h.topology.(owners := op.next); }
  }

  // ----- The two ends of a change -----

  /** From a healthy coordinator with nothing pending, a change that is not refused
      and whose awaits finish leaves nothing pending, the named effect on the record
      and on both children, and everything else as it was. */
  lemma ChangeCommits(h: Hybrid, op: Change, s: Script, next: Topology)
    requires HybridInv(h) && !h.poisoned && h.pending.None? && !s.refused && !Refuses(h, op)
    requires Effect(h.topology, op, next) && Finishes(s, next)
    ensures Operate(h, op, s) == h.(topology := next, historical := next, live := next)
  {
    StoppedIff(h, op, s.refused);
    assert op.UpsertOwners? ==> Distinct(op.entries);
    EffectIsNext(h.topology, op, next);
    hide Stopped, Refuses, Applied, RollbackFor, Effect;
  }

  lemma OperateTopology(h: Hybrid, op: Change, s: Script)
    ensures Operate(h, op, s).topology == h.topology ||
            (!h.poisoned && !Stopped(Reconcile(h, op.RegisterBase?, s.before).state, op, s.refused) && Completes(h.topology, op, s))
  {
    ReconcileRecord(h, op.RegisterBase?, s.before);
    var clean, q := Reconcile(h, op.RegisterBase?, s.before).state, RequestOf(op);
    var staged := clean.(pending := Some(RollbackFor(clean, op)), live := Call(clean.live, q, s.live).child);
    hide Stopped, Reconcile, RollbackFor, Applied;
    ReconcileRecord(staged, op.RegisterBase?, s.after);
    ReconcileRecord(staged.(historical := Call(staged.historical, q, s.historical).child), op.RegisterBase?, s.after);
  }

  lemma ReconcileRecord(h: Hybrid, baseMode: bool, c: Compensation)
    ensures Reconcile(h, baseMode, c).state.topology == h.topology && Reconcile(h, baseMode, c).state.coverage == h.coverage
  {
    hide CallAll, Requests;
  }

  /** Every other end leaves the recorded topology as it was, and a refusal with
      nothing pending leaves the whole coordinator as it was. */
  lemma OtherEndsKeepTheRecord(h: Hybrid, op: Change, s: Script, next: Topology)
    requires h.poisoned || s.refused || Refuses(h, op) || (Effect(h.topology, op, next) && !Finishes(s, next))
    ensures Operate(h, op, s).topology == h.topology
    ensures h.pending.None? && (h.poisoned || s.refused || Refuses(h, op)) ==> Operate(h, op, s) == h
  {
    OperateTopology(h, op, s);
    var clean := Reconcile(h, op.RegisterBase?, s.before).state;
    ReconcileRecord(h, op.RegisterBase?, s.before);
    StoppedIff(clean, op, s.refused);
    StoppedIff(h, op, s.refused);
    assert Refuses(clean, op) <==> Refuses(h, op);
    if !Refuses(h, op) && Effect(h.topology, op, next) {
      assert op.UpsertOwners? ==> Distinct(op.entries);
      EffectIsNext(h.topology, op, next);
    }
    hide Stopped, Refuses, Applied, RollbackFor, Effect;
  }

  // ----- What the recorded rollback latches -----

  /** An active filter is dropped or altered; a destructive replacement resets every
      filter, so there it is enough that one is active. */
  ghost predicate Disturbs(t: Topology, op: Change, next: Topology) {
    || (t.base != [] && next.base != t.base)
    || (exists o :: o in t.owners && t.owners[o] != [] && EntryOf(next, o) != EntryOf(t, o))
    || (op.ReplaceOwners? && SomeActive(t.owners))
  }

  /** The gap a change records is the covered head exactly when it disturbs an
      active filter; a global replacement records its recovery instead. */
  lemma GapIs(h: Hybrid, op: Change, next: Topology)
    requires !Refuses(h, op) && Effect(h.topology, op, next)
    ensures var r := RollbackFor(h, op);
            && GapOf(r) == (if !op.ReplaceOwnersGlobally? && Disturbs(h.topology, op, next) then h.coverage else None)
            && (r.ToTopology? <==> op.ReplaceOwners? || op.ReplaceOwnersGlobally?)
            && (r.ToTopology? ==> r.recovery == if op.ReplaceOwnersGlobally? then h.coverage else None)
  {
    if !op.ReplaceOwnersGlobally? { AltersIff(h, op, next); }
    hide AltersActive, Refuses, Effect, Disturbs;
  }

  lemma AltersIff(h: Hybrid, op: Change, next: Topology)
    requires !Refuses(h, op) && !op.ReplaceOwnersGlobally? && Effect(h.topology, op, next)
    ensures AltersActive(h.topology, op) <==> Disturbs(h.topology, op, next)
  {
    var t := h.topology;
    if op.UpsertOwners? { UpsertAlters(t, op, next); }
    if (op.AddOwner? || op.RemoveOwner?) && AltersActive(t, op) { assert t.owners[op.owner] != [] && EntryOf(next, op.owner) != EntryOf(t, op.owner); }
  }

  lemma UpsertAlters(t: Topology, op: Change, next: Topology)
    requires op.UpsertOwners? && t.base == [] && Effect(t, op, next)
    ensures AltersActive(t, op) <==> Disturbs(t, op, next)
  {
    if AltersActive(t, op) {
      var k :| 0 <= k < |op.entries| && ActiveEntry(EntryOf(t, op.entries[k].owner)) && t.owners[op.entries[k].owner] != op.entries[k].filter;
      assert op.entries[k].owner in t.owners;
    }
    if Disturbs(t, op, next) {
      var o :| o in t.owners && t.owners[o] != [] && EntryOf(next, o) != EntryOf(t, o);
      assert o in OwnersOf(op.entries);
      var k :| 0 <= k < |op.entries| && op.entries[k].owner == o;
      assert ActiveEntry(EntryOf(t, op.entries[k].owner));
    }
  }

  // ----- How compensation ends -----

  ghost predicate AllDone(os: seq<Outcome>, n: nat) {
    n <= |os| && forall k :: 0 <= k < n ==> os[k].Done?
  }

  lemma {:induction false} FinishedIff(c: Topology, qs: seq<Request>, os: seq<Outcome>)
    ensures CallAll(c, qs, os).Finished? <==> AllDone(os, |qs|)
    decreases |qs|
  {
    if qs != [] && os != [] {
      hide Applied;
      FinishedIff(Call(c, qs[0], os[0]).child, qs[1..], os[1..]);
      var rest := os[1..];
      assert forall k :: 0 <= k < |rest| ==> rest[k] == os[k + 1];
      if AllDone(rest, |qs| - 1) && os[0].Done? {
        forall k | 0 <= k < |qs| ensures os[k].Done? { if k > 0 { assert rest[k - 1].Done?; } }
      }
    }
  }

  /** Every compensating call of both children finishes. */
  ghost predicate Undoes(c: Compensation, r: Rollback) {
    AllDone(c.historical, |Requests(r)|) && AllDone(c.live, |Requests(r)|)
  }

  /** The recovery a rolled back global replacement stages. */
  ghost predicate StagesRecovery(r: Rollback) {
    r.ToTopology? && r.recovery.Some? && r.owners != map[]
  }

  /** When every compensating call finishes both children are back on the record,
      and what is left is the staged recovery, the poison of a gap, or nothing at
      all; when one does not, the rollback stays. */
  lemma CompensationEnds(h: Hybrid, baseMode: bool, c: Compensation)
    requires HybridInv(h) && !h.poisoned && h.pending.Some? && !h.pending.value.Recovery? && (baseMode ==> h.pending.value.ToBase?)
    ensures var r, p := Reconcile(h, baseMode, c), h.pending.value;
            if Undoes(c, p) then
              && r.state == h.(historical := h.topology, live := h.topology,
                               pending := if StagesRecovery(p) then Some(Recovery(p.recovery.value)) else None,
                               poisoned := !StagesRecovery(p) && GapOf(p).Some?)
              && (r.verdict.Clear? <==> !StagesRecovery(p) && GapOf(p).None?)
            else r.state.pending == h.pending && !r.state.poisoned && !r.verdict.Clear?
  {
    var p := h.pending.value;
    FinishedIff(h.historical, Requests(p), c.historical);
    FinishedIff(h.live, Requests(p), c.live);
    assert p.ToTopology? ==> p.base == [];
    if Undoes(c, p) {
      RequestsRestore(h.historical, p, h.topology, c.historical);
      RequestsRestore(h.live, p, h.topology, c.live);
    }
    hide CallAll, Requests, HybridInv, CanRestore, AllDone;
  }

  /** The live chain does not fit, or the historical call fails. */
  ghost predicate FailsAfterLive(s: Script, next: Topology) {
    s.live.Done? && (if s.chainOk || (next.base == [] && !SomeActive(next.owners)) then s.historical.Fails? else true)
  }

  /** A change that fails after the live call and is compensated in full leaves the
      coordinator as it was, except for a global replacement of covered owners,
      which stages its recovery, and a disturbed filter after coverage, which
      poisons it. */
  lemma FailureIsUndone(h: Hybrid, op: Change, s: Script, next: Topology)
    requires HybridInv(h) && !h.poisoned && h.pending.None? && !s.refused && !Refuses(h, op) && Effect(h.topology, op, next)
    requires FailsAfterLive(s, next) && OutcomeOk(h.historical, RequestOf(op), s.historical) && Undoes(s.after, RollbackFor(h, op))
    ensures Operate(h, op, s) ==
            if op.ReplaceOwnersGlobally? && h.coverage.Some? && h.topology.owners != map[] then h.(pending := Some(Recovery(h.coverage.value)))
            else if !op.ReplaceOwnersGlobally? && h.coverage.Some? && Disturbs(h.topology, op, next) then h.(poisoned := true)
            else h
  {
    StoppedIff(h, op, s.refused);
    assert op.UpsertOwners? ==> Distinct(op.entries);
    assert if op.RegisterBase? then h.topology.owners == map[] else h.topology.base == [];
    assert op.ReplaceOwnersGlobally? ==> RollbackFor(h, op).ToTopology? && RollbackFor(h, op).owners == h.topology.owners;
    assert op.RegisterBase? ==> RollbackFor(h, op).ToBase?;
    EffectIsNext(h.topology, op, next);
    GapIs(h, op, next);
    RollbackCovers(h, op);
    assert h.historical == h.topology && h.live == h.topology;
    StagedInv(h, op, s.live, None);
    StagedInv(h, op, s.live, Some(s.historical));
    var q, r := RequestOf(op), RollbackFor(h, op);
    var staged := h.(pending := Some(r), live := Call(h.live, q, s.live).child);
    hide Stopped, Refuses, Applied, RollbackFor, Effect, Disturbs, HybridInv, Undoes, OutcomeOk, RequestOf, Reconcile;
    CompensationEnds(staged, op.RegisterBase?, s.after);
    CompensationEnds(staged.(historical := Call(h.historical, q, s.historical).child), op.RegisterBase?, s.after);
    FailedIs(h, op, s);
  }

  lemma FailedIs(h: Hybrid, op: Change, s: Script)
    requires !h.poisoned && h.pending.None? && !Stopped(h, op, s.refused) && s.live.Done?
    ensures var staged := h.(pending := Some(RollbackFor(h, op)), live := Call(h.live, RequestOf(op), s.live).child);
            && (!ChainFits(h.topology, op, s) ==> Operate(h, op, s) == Reconcile(staged, op.RegisterBase?, s.after).state)
            && (ChainFits(h.topology, op, s) && s.historical.Fails? ==>
                  Operate(h, op, s) == Reconcile(staged.(historical := s.historical.left), op.RegisterBase?, s.after).state)
  {
    assert Reconcile(h, op.RegisterBase?, s.before) == Reconciled(h, Clear);
    hide Stopped, RollbackFor, Applied, Reconcile;
  }

  /** A change that disturbs an active filter after coverage and does not finish can
      never be made whole: whenever the rollback is gone, in any later run, the
      coordinator is poisoned. */
  lemma DisturbedEndsPoisoned(h: Hybrid, op: Change, s: Script, next: Topology, events: seq<Event>)
    requires !h.poisoned && h.pending.None? && h.coverage.Some? && !s.refused && !Refuses(h, op) && !op.ReplaceOwnersGlobally?
    requires Effect(h.topology, op, next) && Disturbs(h.topology, op, next) && !Finishes(s, next)
    ensures var later := After(Operate(h, op, s), events); later.pending.None? ==> later.poisoned
  {
    StoppedIff(h, op, s.refused);
    assert op.UpsertOwners? ==> Distinct(op.entries);
    EffectIsNext(h.topology, op, next);
    AltersIff(h, op, next);
    assert !Completes(h.topology, op, s);
    hide *;
    CompensatedEndsPoisoned(h, op, s, events);
  }

  /** A failed global replacement of covered owners, compensated in full, may deliver
      again, and its next poll is the recovery and nothing else. */
  lemma GlobalFailureRecovers(h: Hybrid, op: Change, s: Script, next: Topology)
    requires HybridInv(h) && !h.poisoned && h.pending.None? && !s.refused && !Refuses(h, op) && Effect(h.topology, op, next)
    requires FailsAfterLive(s, next) && OutcomeOk(h.historical, RequestOf(op), s.historical) && Undoes(s.after, RollbackFor(h, op))
    requires op.ReplaceOwnersGlobally? && h.coverage.Some? && h.topology.owners != map[]
    ensures MayDeliver(Operate(h, op, s)) && !MayAcknowledge(Operate(h, op, s))
    ensures Next(Operate(h, op, s), Polls) == h.(recovering := true)
  {
    FailureIsUndone(h, op, s, next);
    hide Operate, HybridInv, Refuses, Effect, FailsAfterLive, OutcomeOk, Undoes;
  }

  /** The live child goes first: when its call does not finish, history was never
      called; when history is dropped after it, both calls are remembered. Either
      way the recorded rollback remembers the topology and stays. */
  lemma LiveGoesFirst(h: Hybrid, op: Change, s: Script, next: Topology)
    requires HybridInv(h) && !h.poisoned && h.pending.None? && !s.refused && !Refuses(h, op) && Effect(h.topology, op, next)
    requires !s.live.Done? || (s.historical.Dropped? && (s.chainOk || (next.base == [] && !SomeActive(next.owners))))
    ensures var after := Operate(h, op, s);
            && after.pending.Some? && Records(after.pending.value, h.topology)
            && after == h.(pending := after.pending, live := if s.live.Done? then next else s.live.left,
                           historical := if s.live.Done? then s.historical.left else h.topology)
  {
    StoppedIff(h, op, s.refused);
    assert op.UpsertOwners? ==> Distinct(op.entries);
    assert if op.RegisterBase? then h.topology.owners == map[] else h.topology.base == [];
    EffectIsNext(h.topology, op, next);
    RollbackCovers(h, op);
    assert Reconcile(h, op.RegisterBase?, s.before) == Reconciled(h, Clear);
    hide Stopped, Refuses, Applied, RollbackFor, Effect, Reconcile, Records;
  }

  /** While a staged recovery is pending every change is refused, and while an owner
      rollback is pending so is a base registration: nothing is called or changed. */
  lemma WaitsForOthers(h: Hybrid, op: Change, s: Script)
    requires h.pending.Some? && (h.pending.value.Recovery? || (op.RegisterBase? && !h.pending.value.ToBase?))
    ensures Operate(h, op, s) == h
  {
    hide Stopped, CallAll, Requests;
  }
}
