/** Live-first lifecycle changes of two children with compensation
    (crates/remote/src/hybrid.rs, `register_interests`, the owner lifecycle
    operations, `reconcile_pending_owner_lifecycle` and
    `reconcile_pending_base_lifecycle`). */
module HybridLifecycle {
  import opened Protocol

  type Owner = string
  type Filter = seq<string>

  datatype Topology = Topology(base: Filter, owners: map<Owner, Filter>)

  function EntryOf(t: Topology, o: Owner): Option<Filter> {
    if o in t.owners then Some(t.owners[o]) else None
  }

  predicate HasActive(t: Topology) {
    t.base != [] || exists o :: o in t.owners && t.owners[o] != []
  }

  datatype Named = Named(owner: Owner, filter: Filter)

  // ----- Child calls -----

  datatype Request =
    | SetBase(base: Filter)
    | SetOwners(owners: map<Owner, Filter>)
    | Upsert(entries: seq<Named>)
    | Add(owner: Owner, filter: Filter)
    | Remove(gone: Owner)

  function WithEntries(owners: map<Owner, Filter>, entries: seq<Named>): map<Owner, Filter> {
    if entries == [] then owners
    else
      var last := entries[|entries| - 1];
      WithEntries(owners, entries[..|entries| - 1])[last.owner := last.filter]
  }

  /** A call that succeeds has applied the whole request. */
  function Applied(t: Topology, q: Request): Topology {
    match q
    case SetBase(base) => t.(base := base)
    case SetOwners(owners) => t.(owners := owners)
    case Upsert(entries) => t.(owners := WithEntries(t.owners, entries))
    case Add(o, f) => t.(owners := t.owners[o := f])
    case Remove(o) => t.(owners := t.owners - {o})
  }

  /** The part of a topology a request may touch. */
  datatype Scope = Scope(base: bool, all: bool, owners: set<Owner>)

  predicate Touches(s: Scope, o: Owner) { s.all || o in s.owners }

  function OwnersOf(entries: seq<Named>): set<Owner> {
    set k | 0 <= k < |entries| :: entries[k].owner
  }

  function ScopeOf(q: Request): Scope {
    match q
    case SetBase(_) => Scope(true, false, {})
    case SetOwners(_) => Scope(false, true, {})
    case Upsert(entries) => Scope(false, false, OwnersOf(entries))
    case Add(o, _) => Scope(false, false, {o})
    case Remove(o) => Scope(false, false, {o})
  }

  /** The two topologies agree outside the scope. */
  ghost predicate Agree(a: Topology, b: Topology, s: Scope) {
    && (!s.base ==> a.base == b.base)
    && (forall o :: !Touches(s, o) ==> EntryOf(a, o) == EntryOf(b, o))
  }

  /** How a call ends: done, failed, or dropped in flight. The last two leave the
      child anywhere inside the request's scope: applied, not applied or part. */
  datatype Outcome = Done | Fails(left: Topology) | Dropped(left: Topology)

  ghost predicate OutcomeOk(c: Topology, q: Request, o: Outcome) {
    o.Done? || Agree(o.left, c, ScopeOf(q))
  }

  datatype Called = Finished(child: Topology) | Failed(child: Topology) | Cancelled(child: Topology)

  function Call(c: Topology, q: Request, o: Outcome): Called {
    match o
    case Done => Finished(Applied(c, q))
    case Fails(left) => Failed(left)
    case Dropped(left) => Cancelled(left)
  }

  /** Calls made one after the other until one does not finish. */
  function CallAll(c: Topology, qs: seq<Request>, os: seq<Outcome>): Called
    decreases |qs|
  {
    if qs == [] then Finished(c)
    else if os == [] then Cancelled(c)
    else
      var r := Call(c, qs[0], os[0]);
      if r.Finished? then CallAll(r.child, qs[1..], os[1..]) else r
  }

  ghost predicate OutcomesOk(c: Topology, qs: seq<Request>, os: seq<Outcome>)
    decreases |qs|
  {
    qs == [] || os == [] ||
    (OutcomeOk(c, qs[0], os[0]) && OutcomesOk(Call(c, qs[0], os[0]).child, qs[1..], os[1..]))
  }

  // ----- Rollbacks -----

  datatype Kept = Kept(owner: Owner, previous: Option<Filter>)

  datatype Rollback =
    | ToBase(previous: Filter, gap: Option<nat>)
    | ToTopology(base: Filter, owners: map<Owner, Filter>, recovery: Option<nat>, gap: Option<nat>)
    | ToOwner(owner: Owner, before: Option<Filter>, gap: Option<nat>)
    | ToBulk(kept: seq<Kept>, gap: Option<nat>)
    | Recovery(anchor: nat)

  function GapOf(r: Rollback): Option<nat> {
    if r.Recovery? then None else r.gap
  }

  function Restored(kept: seq<Kept>): seq<Named> {
    if kept == [] then []
    else
      var front, last := Restored(kept[..|kept| - 1]), kept[|kept| - 1];
      if last.previous.Some? then front + [Named(last.owner, last.previous.value)] else front
  }

  function Removals(kept: seq<Kept>): seq<Request> {
    if kept == [] then []
    else
      var front, last := Removals(kept[..|kept| - 1]), kept[|kept| - 1];
      if last.previous.None? then front + [Remove(last.owner)] else front
  }

  /** The child calls that compensate. */
  function Requests(r: Rollback): seq<Request> {
    match r
    case ToBase(previous, _) => [SetBase(previous)]
    case ToTopology(base, owners, _, _) => if base == [] then [SetOwners(owners)] else [SetBase(base)]
    case ToOwner(o, before, _) => if before.Some? then [Add(o, before.value)] else [Remove(o)]
    case ToBulk(kept, _) => (if Restored(kept) == [] then [] else [Upsert(Restored(kept))]) + Removals(kept)
    case Recovery(_) => []
  }

  // ----- The coordinator -----

  datatype Hybrid = Hybrid(
    topology: Topology,
    coverage: Option<nat>,
    pending: Option<Rollback>,
    poisoned: bool,
    recovering: bool,
    historical: Topology,
    live: Topology)

  datatype Compensation = Compensation(historical: seq<Outcome>, live: seq<Outcome>)

  datatype Verdict = Clear | Refused | Gone

  datatype Reconciled = Reconciled(state: Hybrid, verdict: Verdict)

  /** What happens once both children are back on the recorded topology. */
  function Compensated(h: Hybrid, r: Rollback): Reconciled {
    if r.ToTopology? && r.recovery.Some? && r.base == [] && r.owners != map[]
    then Reconciled(h.(pending := Some(Recovery(r.recovery.value))), Refused)
    else if GapOf(r).Some? then Reconciled(h.(pending := None, poisoned := true), Refused)
    else Reconciled(h.(pending := None), Clear)
  }

  /** Runs the pending rollback on both children; it stays pending unless both finish. */
  function Reconcile(h: Hybrid, baseMode: bool, c: Compensation): Reconciled {
    if h.pending.None? then Reconciled(h, Clear)
    else
      var r := h.pending.value;
      if r.Recovery? || (baseMode && !r.ToBase?) then Reconciled(h, Refused)
      else if r.ToTopology? && r.base != [] && r.owners != map[] then Reconciled(h, Refused)
      else
        var historical := CallAll(h.historical, Requests(r), c.historical);
        var first := h.(historical := historical.child);
        if historical.Cancelled? then Reconciled(first, Gone)
        else
          var live := CallAll(h.live, Requests(r), c.live);
          var both := first.(live := live.child);
          if live.Cancelled? then Reconciled(both, Gone)
          else if historical.Finished? && live.Finished? then Compensated(both, r)
          else Reconciled(both, Refused)
  }

  datatype Change =
    | RegisterBase(interests: Filter)
    | ReplaceOwners(next: map<Owner, Filter>)
    | ReplaceOwnersGlobally(next: map<Owner, Filter>)
    | UpsertOwners(entries: seq<Named>)
    | AddOwner(owner: Owner, interests: Filter)
    | RemoveOwner(owner: Owner)

  function RequestOf(op: Change): Request {
    match op
    case RegisterBase(f) => SetBase(f)
    case ReplaceOwners(m) => SetOwners(m)
    case ReplaceOwnersGlobally(m) => SetOwners(m)
    case UpsertOwners(entries) => Upsert(entries)
    case AddOwner(o, f) => Add(o, f)
    case RemoveOwner(o) => Remove(o)
  }

  function NextTopology(t: Topology, op: Change): Topology {
    Applied(t, RequestOf(op))
  }

  predicate Distinct(entries: seq<Named>) {
    forall i, j :: 0 <= i < j < |entries| ==> entries[i].owner != entries[j].owner
  }

  /** The change is refused before any child is called, or nothing would change. */
  predicate Stopped(h: Hybrid, op: Change, refused: bool) {
    || refused
    || (if op.RegisterBase? then h.topology.owners != map[] else h.topology.base != [])
    || (NextTopology(h.topology, op) == h.topology && !op.ReplaceOwnersGlobally?)
    || ((op.RegisterBase? || op.ReplaceOwners?) && h.coverage.Some? && HasActive(NextTopology(h.topology, op)))
    || (op.UpsertOwners? && !Distinct(op.entries))
  }

  function KeptFor(t: Topology, entries: seq<Named>): seq<Kept> {
    if entries == [] then []
    else KeptFor(t, entries[..|entries| - 1]) + [Kept(entries[|entries| - 1].owner, EntryOf(t, entries[|entries| - 1].owner))]
  }

  predicate ActiveEntry(f: Option<Filter>) { f.Some? && f.value != [] }

  /** The change alters a filter that was active. */
  predicate AltersActive(t: Topology, op: Change) {
    match op
    case RegisterBase(_) => t.base != []
    case ReplaceOwners(_) => exists o :: o in t.owners && t.owners[o] != []
    case ReplaceOwnersGlobally(_) => false
    case UpsertOwners(entries) =>
      exists k :: 0 <= k < |entries| && ActiveEntry(EntryOf(t, entries[k].owner)) && t.owners[entries[k].owner] != entries[k].filter
    case AddOwner(o, _) => ActiveEntry(EntryOf(t, o))
    case RemoveOwner(o) => ActiveEntry(EntryOf(t, o))
  }

  function GapFor(h: Hybrid, op: Change): Option<nat> {
    if AltersActive(h.topology, op) then h.coverage else None
  }

  function RollbackFor(h: Hybrid, op: Change): Rollback {
    match op
    case RegisterBase(_) => ToBase(h.topology.base, GapFor(h, op))
    case ReplaceOwners(_) => ToTopology(h.topology.base, h.topology.owners, None, GapFor(h, op))
    case ReplaceOwnersGlobally(_) => ToTopology(h.topology.base, h.topology.owners, h.coverage, None)
    case UpsertOwners(entries) => ToBulk(KeptFor(h.topology, entries), GapFor(h, op))
    case AddOwner(o, _) => ToOwner(o, EntryOf(h.topology, o), GapFor(h, op))
    case RemoveOwner(o) => ToOwner(o, EntryOf(h.topology, o), GapFor(h, op))
  }

  /** How every await of one operation ends. */
  datatype Script = Script(
    before: Compensation,
    refused: bool,
    live: Outcome,
    chainOk: bool,
    historical: Outcome,
    after: Compensation)

  /** The live chain is checked only when the change leaves something active. */
  predicate ChainFits(t: Topology, op: Change, s: Script) {
    s.chainOk || !HasActive(NextTopology(t, op))
  }

  /** One lifecycle operation: reconcile, record the rollback, live, then history. */
  function Operate(h: Hybrid, op: Change, s: Script): Hybrid {
    if h.poisoned then h
    else
      var ready := Reconcile(h, op.RegisterBase?, s.before);
      if !ready.verdict.Clear? || Stopped(ready.state, op, s.refused) then ready.state
      else
        var clean := ready.state;
        var q := RequestOf(op);
        var live := Call(clean.live, q, s.live);
        var staged := clean.(pending := Some(RollbackFor(clean, op)), live := live.child);
        if !live.Finished? then staged
        else if !ChainFits(clean.topology, op, s) then Reconcile(staged, op.RegisterBase?, s.after).state
        else
          var historical := Call(staged.historical, q, s.historical);
          var called := staged.(historical := historical.child);
          if historical.Finished? then called.(pending := None, topology := NextTopology(clean.topology, op))
          else if historical.Cancelled? then called
          else Reconcile(called, op.RegisterBase?, s.after).state
  }

  // ----- Delivery while a rollback is pending -----

  /** Polling first turns a staged recovery into the recovering phase. */
  function Activated(h: Hybrid): Hybrid {
    if h.pending.Some? && h.pending.value.Recovery? then h.(pending := None, recovering := true) else h
  }

  predicate MayDeliver(h: Hybrid) { !h.poisoned && Activated(h).pending.None? }

  predicate MayAcknowledge(h: Hybrid) { !h.poisoned && h.pending.None? }

  // ----- Calls stay inside their scope -----

  ghost predicate Inside(inner: Scope, outer: Scope) {
    (inner.base ==> outer.base) && forall o :: Touches(inner, o) ==> Touches(outer, o)
  }

  function EntryIn(owners: map<Owner, Filter>, o: Owner): Option<Filter> {
    if o in owners then Some(owners[o]) else None
  }

  lemma {:induction false} EntriesOutside(owners: map<Owner, Filter>, entries: seq<Named>, o: Owner)
    requires o !in OwnersOf(entries)
    ensures EntryIn(WithEntries(owners, entries), o) == EntryIn(owners, o)
  {
    if entries != [] {
      var front, last := entries[..|entries| - 1], entries[|entries| - 1];
      assert last.owner in OwnersOf(entries);
      forall p | p in OwnersOf(front) ensures p in OwnersOf(entries) {
        var k :| 0 <= k < |front| && front[k].owner == p;
        assert entries[k].owner == p;
      }
      EntriesOutside(owners, front, o);
    }
  }

  lemma AppliedInside(c: Topology, q: Request)
    ensures Agree(Applied(c, q), c, ScopeOf(q))
  {
    if q.Upsert? {
      forall o | !Touches(ScopeOf(q), o) ensures EntryOf(Applied(c, q), o) == EntryOf(c, o) {
        EntriesOutside(c.owners, q.entries, o);
      }
    }
  }

  lemma AgreeThrough(a: Topology, b: Topology, t: Topology, inner: Scope, outer: Scope)
    requires Agree(a, b, inner) && Agree(b, t, outer) && Inside(inner, outer)
    ensures Agree(a, t, outer)
  {
  }

  lemma CallInside(c: Topology, q: Request, o: Outcome, t: Topology, s: Scope)
    requires OutcomeOk(c, q, o) && Agree(c, t, s) && Inside(ScopeOf(q), s)
    ensures Agree(Call(c, q, o).child, t, s)
  {
    AppliedInside(c, q);
    AgreeThrough(Call(c, q, o).child, c, t, ScopeOf(q), s);
  }

  ghost predicate AllInside(qs: seq<Request>, s: Scope) {
    forall i :: 0 <= i < |qs| ==> Inside(ScopeOf(qs[i]), s)
  }

  lemma {:induction false} CallAllInside(c: Topology, qs: seq<Request>, os: seq<Outcome>, t: Topology, s: Scope)
    requires OutcomesOk(c, qs, os) && Agree(c, t, s) && AllInside(qs, s)
    ensures Agree(CallAll(c, qs, os).child, t, s)
    decreases |qs|
  {
    if qs != [] && os != [] {
      hide Inside, Agree, OutcomeOk, Applied;
      CallInside(c, qs[0], os[0], t, s);
      forall i | 0 <= i < |qs[1..]| ensures Inside(ScopeOf(qs[1..][i]), s) { assert qs[1..][i] == qs[i + 1]; }
      CallAllInside(Call(c, qs[0], os[0]).child, qs[1..], os[1..], t, s);
    }
  }

  // ----- Compensation restores the recorded topology -----

  function KeptOwners(kept: seq<Kept>): set<Owner> {
    set k | 0 <= k < |kept| :: kept[k].owner
  }

  function RollbackScope(r: Rollback): Scope {
    match r
    case ToBase(_, _) => Scope(true, false, {})
    case ToTopology(_, _, _, _) => Scope(false, true, {})
    case ToOwner(o, _, _) => Scope(false, false, {o})
    case ToBulk(kept, _) => Scope(false, false, KeptOwners(kept))
    case Recovery(_) => Scope(false, false, {})
  }

  /** The rollback remembers the topology inside its scope. */
  ghost predicate Records(r: Rollback, t: Topology) {
    match r
    case ToBase(previous, _) => previous == t.base
    case ToTopology(base, owners, _, _) => base == [] && t.base == [] && owners == t.owners
    case ToOwner(o, before, _) => before == EntryOf(t, o)
    case ToBulk(kept, _) => forall k :: 0 <= k < |kept| ==> kept[k].previous == EntryOf(t, kept[k].owner)
    case Recovery(_) => true
  }

  ghost predicate CanRestore(c: Topology, r: Rollback, t: Topology) {
    Records(r, t) && Agree(c, t, RollbackScope(r))
  }

  lemma SameTopology(a: Topology, b: Topology)
    requires Agree(a, b, Scope(false, false, {}))
    ensures a == b
  {
    forall o ensures o in a.owners <==> o in b.owners { assert EntryOf(a, o) == EntryOf(b, o); }
    forall o | o in a.owners ensures a.owners[o] == b.owners[o] { assert EntryOf(a, o) == EntryOf(b, o); }
    assert a.owners == b.owners;
  }

  lemma {:induction false} RestoredAre(kept: seq<Kept>, t: Topology)
    requires forall k :: 0 <= k < |kept| ==> kept[k].previous == EntryOf(t, kept[k].owner)
    ensures forall k :: 0 <= k < |Restored(kept)| ==> Some(Restored(kept)[k].filter) == EntryOf(t, Restored(kept)[k].owner)
    ensures forall o :: o in OwnersOf(Restored(kept)) <==> o in KeptOwners(kept) && EntryOf(t, o).Some?
    ensures forall k :: 0 <= k < |Removals(kept)| ==>
              Removals(kept)[k].Remove? && Removals(kept)[k].gone in KeptOwners(kept) && EntryOf(t, Removals(kept)[k].gone).None?
    ensures forall o :: o in KeptOwners(kept) && EntryOf(t, o).None? ==> Remove(o) in Removals(kept)
  {
    if kept != [] {
      var front, last := kept[..|kept| - 1], kept[|kept| - 1];
      RestoredAre(front, t);
      KeptSplit(front, last);
      assert kept == front + [last];
      NamedSplit(Restored(front), Named(last.owner, if last.previous.Some? then last.previous.value else []));
    }
  }

  lemma KeptSplit(front: seq<Kept>, last: Kept)
    ensures KeptOwners(front + [last]) == KeptOwners(front) + {last.owner}
  {
    var all := front + [last];
    assert all[|front|] == last && forall k :: 0 <= k < |front| ==> all[k] == front[k];
    forall o | o in KeptOwners(front) ensures o in KeptOwners(all) {
      var k :| 0 <= k < |front| && front[k].owner == o;
      assert all[k].owner == o;
    }
    assert all[|front|].owner in KeptOwners(all);
  }

  lemma NamedSplit(front: seq<Named>, last: Named)
    ensures OwnersOf(front + [last]) == OwnersOf(front) + {last.owner}
  {
    var all := front + [last];
    assert all[|front|] == last && forall k :: 0 <= k < |front| ==> all[k] == front[k];
    forall o | o in OwnersOf(front) ensures o in OwnersOf(all) {
      var k :| 0 <= k < |front| && front[k].owner == o;
      assert all[k].owner == o;
    }
    assert all[|front|].owner in OwnersOf(all);
  }

  lemma {:induction false} UpsertedAre(owners: map<Owner, Filter>, entries: seq<Named>, t: Topology, o: Owner)
    requires forall k :: 0 <= k < |entries| ==> Some(entries[k].filter) == EntryOf(t, entries[k].owner)
    requires o in OwnersOf(entries)
    ensures EntryIn(WithEntries(owners, entries), o) == EntryOf(t, o)
  {
    var front, last := entries[..|entries| - 1], entries[|entries| - 1];
    assert entries == front + [last];
    NamedSplit(front, last);
    if o != last.owner { UpsertedAre(owners, front, t, o); }
  }

  /** After restoring what existed, only what must go is left to fix. */
  lemma UpsertNarrows(c: Topology, entries: seq<Named>, t: Topology, s: set<Owner>)
    requires Agree(c, t, Scope(false, false, s))
    requires forall k :: 0 <= k < |entries| ==> Some(entries[k].filter) == EntryOf(t, entries[k].owner)
    ensures Agree(Applied(c, Upsert(entries)), t, Scope(false, false, s - OwnersOf(entries)))
  {
    forall o | o !in s - OwnersOf(entries) ensures EntryOf(Applied(c, Upsert(entries)), o) == EntryOf(t, o) {
      if o in OwnersOf(entries) { UpsertedAre(c.owners, entries, t, o); } else { EntriesOutside(c.owners, entries, o); }
    }
  }

  function RemovedBy(qs: seq<Request>): set<Owner>
    requires forall k :: 0 <= k < |qs| ==> qs[k].Remove?
  {
    set k | 0 <= k < |qs| :: qs[k].gone
  }

  lemma {:induction false} RemovalsNarrow(c: Topology, qs: seq<Request>, os: seq<Outcome>, t: Topology, s: set<Owner>)
    requires forall k :: 0 <= k < |qs| ==> qs[k].Remove? && EntryOf(t, qs[k].gone).None?
    requires Agree(c, t, Scope(false, false, s)) && CallAll(c, qs, os).Finished?
    ensures Agree(CallAll(c, qs, os).child, t, Scope(false, false, s - RemovedBy(qs)))
    decreases |qs|
  {
    if qs == [] {
      assert s - RemovedBy(qs) == s;
    } else {
      var next := Applied(c, qs[0]);
      assert Agree(next, t, Scope(false, false, s - {qs[0].gone}));
      var rest := qs[1..];
      assert forall k :: 0 <= k < |rest| ==> rest[k] == qs[k + 1];
      RemovalsNarrow(next, rest, os[1..], t, s - {qs[0].gone});
      assert RemovedBy(qs) == {qs[0].gone} + RemovedBy(rest) by { GoneSplit(qs); }
      assert s - {qs[0].gone} - RemovedBy(rest) == s - RemovedBy(qs);
    }
  }

  lemma GoneSplit(qs: seq<Request>)
    requires qs != [] && forall k :: 0 <= k < |qs| ==> qs[k].Remove?
    ensures forall k :: 0 <= k < |qs[1..]| ==> qs[1..][k].Remove?
    ensures RemovedBy(qs) == {qs[0].gone} + RemovedBy(qs[1..])
  {
    var rest := qs[1..];
    assert forall k :: 0 <= k < |rest| ==> rest[k] == qs[k + 1];
    forall o | o in RemovedBy(qs) ensures o in {qs[0].gone} + RemovedBy(rest) {
      var k :| 0 <= k < |qs| && qs[k].gone == o;
      if k > 0 { assert rest[k - 1].gone == o; }
    }
    forall o | o in RemovedBy(rest) ensures o in RemovedBy(qs) {
      var k :| 0 <= k < |rest| && rest[k].gone == o;
      assert qs[k + 1].gone == o;
    }
    assert qs[0].gone in RemovedBy(qs);
  }

  lemma RequestsInside(r: Rollback, t: Topology)
    requires Records(r, t)
    ensures AllInside(Requests(r), RollbackScope(r))
  {
    if r.ToBulk? {
      RestoredAre(r.kept, t);
      var qs := Requests(r);
      var removals := Removals(r.kept);
      hide Restored, Removals, OwnersOf, KeptOwners;
      forall i | 0 <= i < |qs| ensures Inside(ScopeOf(qs[i]), RollbackScope(r)) {
        if !qs[i].Upsert? { assert qs[i] in removals; }
      }
    }
  }

  /** Once what existed is restored and the rest removed, nothing is left to fix. */
  lemma NothingLeft(s: set<Owner>, kept: set<Owner>, removals: seq<Request>)
    requires forall k :: 0 <= k < |removals| ==> removals[k].Remove?
    requires forall o :: o in s && o !in kept ==> Remove(o) in removals
    ensures s - kept - RemovedBy(removals) == {}
  {
    forall o | o in s - kept ensures o in RemovedBy(removals) {
      var k :| 0 <= k < |removals| && removals[k] == Remove(o);
      assert removals[k].gone == o;
    }
  }

  lemma BulkNarrows(c: Topology, entries: seq<Named>, removals: seq<Request>, os: seq<Outcome>, t: Topology, s: set<Owner>)
    requires Agree(c, t, Scope(false, false, s))
    requires forall k :: 0 <= k < |entries| ==> Some(entries[k].filter) == EntryOf(t, entries[k].owner)
    requires forall k :: 0 <= k < |removals| ==> removals[k].Remove? && EntryOf(t, removals[k].gone).None?
    requires CallAll(c, (if entries == [] then [] else [Upsert(entries)]) + removals, os).Finished?
    ensures Agree(CallAll(c, (if entries == [] then [] else [Upsert(entries)]) + removals, os).child, t,
                  Scope(false, false, s - OwnersOf(entries) - RemovedBy(removals)))
  {
    hide Agree, EntryOf, Applied, OwnersOf, RemovedBy;
    if entries == [] {
      assert [] + removals == removals;
      NoOwners();
      assert s - OwnersOf(entries) == s;
      RemovalsNarrow(c, removals, os, t, s);
    } else {
      var qs := [Upsert(entries)] + removals;
      assert qs[0] == Upsert(entries) && qs[1..] == removals;
      UpsertNarrows(c, entries, t, s);
      RemovalsNarrow(Applied(c, Upsert(entries)), removals, os[1..], t, s - OwnersOf(entries));
    }
  }

  lemma NoOwners()
    ensures OwnersOf([]) == {}
  {
  }

  lemma BulkRestores(c: Topology, kept: seq<Kept>, t: Topology, os: seq<Outcome>, gap: Option<nat>)
    requires CanRestore(c, ToBulk(kept, gap), t) && CallAll(c, Requests(ToBulk(kept, gap)), os).Finished?
    ensures CallAll(c, Requests(ToBulk(kept, gap)), os).child == t
  {
    RestoredAre(kept, t);
    hide Restored, Removals, KeptOwners, Agree, OwnersOf, RemovedBy, CallAll, EntryOf;
    var entries, removals, s := Restored(kept), Removals(kept), KeptOwners(kept);
    BulkNarrows(c, entries, removals, os, t, s);
    NothingLeft(s, OwnersOf(entries), removals);
    SameTopology(CallAll(c, Requests(ToBulk(kept, gap)), os).child, t);
  }

  /** Whatever earlier calls left inside the scope, finishing every compensating
      call puts the child back on the recorded topology. */
  lemma RequestsRestore(c: Topology, r: Rollback, t: Topology, os: seq<Outcome>)
    requires CanRestore(c, r, t) && !r.Recovery? && CallAll(c, Requests(r), os).Finished?
    ensures CallAll(c, Requests(r), os).child == t
  {
    if r.ToBulk? {
      BulkRestores(c, r.kept, t, os, r.gap);
    } else {
      var q := Requests(r)[0];
      assert Requests(r) == [q] && Requests(r)[1..] == [];
      var child := CallAll(c, Requests(r), os).child;
      assert child == Applied(c, q);
      assert Agree(child, t, Scope(false, false, {}));
      SameTopology(child, t);
    }
  }

  // ----- Invariant -----

  ghost predicate HybridInv(h: Hybrid) {
    && (h.topology.base == [] || h.topology.owners == map[])
    && (if h.pending.None? || h.pending.value.Recovery? then h.historical == h.topology && h.live == h.topology
        else CanRestore(h.historical, h.pending.value, h.topology) && CanRestore(h.live, h.pending.value, h.topology))
  }

  ghost predicate CompensationOk(h: Hybrid, c: Compensation) {
    h.pending.Some? ==>
      && OutcomesOk(h.historical, Requests(h.pending.value), c.historical)
      && OutcomesOk(h.live, Requests(h.pending.value), c.live)
  }

  lemma CompensateChild(c: Topology, r: Rollback, t: Topology, os: seq<Outcome>)
    requires CanRestore(c, r, t) && !r.Recovery? && OutcomesOk(c, Requests(r), os)
    ensures CanRestore(CallAll(c, Requests(r), os).child, r, t)
    ensures CallAll(c, Requests(r), os).Finished? ==> CallAll(c, Requests(r), os).child == t
  {
    RequestsInside(r, t);
    CallAllInside(c, Requests(r), os, t, RollbackScope(r));
    if CallAll(c, Requests(r), os).Finished? { RequestsRestore(c, r, t, os); }
  }

  /** Reconciling keeps the invariant and never changes the recorded topology;
      only a clear verdict has no rollback left and a healthy coordinator. */
  lemma ReconcileKeeps(h: Hybrid, baseMode: bool, c: Compensation)
    requires HybridInv(h) && CompensationOk(h, c) && !h.poisoned
    ensures var r := Reconcile(h, baseMode, c);
            && HybridInv(r.state) && r.state.topology == h.topology && r.state.coverage == h.coverage
            && (r.verdict.Clear? ==> r.state.pending.None? && !r.state.poisoned && r.state.historical == h.topology && r.state.live == h.topology)
            && (r.state.poisoned ==> r.state.pending.None?)
  {
    if h.pending.Some? {
      var r := h.pending.value;
      hide CanRestore, OutcomesOk, CallAll, Requests;
      if !r.Recovery? {
        CompensateChild(h.historical, r, h.topology, c.historical);
        CompensateChild(h.live, r, h.topology, c.live);
      }
    }
  }

  lemma SelfAgree(t: Topology, s: Scope)
    ensures Agree(t, t, s)
  {
  }

  lemma {:induction false} KeptRecords(t: Topology, entries: seq<Named>)
    ensures forall k :: 0 <= k < |KeptFor(t, entries)| ==> KeptFor(t, entries)[k].previous == EntryOf(t, KeptFor(t, entries)[k].owner)
    ensures KeptOwners(KeptFor(t, entries)) == OwnersOf(entries)
  {
    if entries != [] {
      var front, last := entries[..|entries| - 1], entries[|entries| - 1];
      KeptRecords(t, front);
      KeptSplit(KeptFor(t, front), Kept(last.owner, EntryOf(t, last.owner)));
      NamedSplit(front, last);
      assert entries == front + [last];
    }
  }

  /** The rollback recorded for a change covers everything the change may touch. */
  lemma RollbackCovers(h: Hybrid, op: Change)
    requires if op.RegisterBase? then h.topology.owners == map[] else h.topology.base == []
    ensures var r := RollbackFor(h, op);
            !r.Recovery? && Records(r, h.topology) && Inside(ScopeOf(RequestOf(op)), RollbackScope(r))
  {
    if op.UpsertOwners? { KeptRecords(h.topology, op.entries); }
  }

  ghost predicate ScriptOk(h: Hybrid, op: Change, s: Script) {
    && CompensationOk(h, s.before)
    && var clean := Reconcile(h, op.RegisterBase?, s.before).state;
    var q := RequestOf(op);
    && OutcomeOk(clean.live, q, s.live) && OutcomeOk(clean.historical, q, s.historical)
    && var staged := clean.(pending := Some(RollbackFor(clean, op)), live := Call(clean.live, q, s.live).child);
    && CompensationOk(staged, s.after)
    && CompensationOk(staged.(historical := Call(clean.historical, q, s.historical).child), s.after)
  }

  /** A staged change: the rollback is recorded and both children can be restored. */
  lemma StagedInv(clean: Hybrid, op: Change, live: Outcome, historical: Option<Outcome>)
    requires HybridInv(clean) && clean.pending.None?
    requires if op.RegisterBase? then clean.topology.owners == map[] else clean.topology.base == []
    requires OutcomeOk(clean.live, RequestOf(op), live)
    requires historical.Some? ==> OutcomeOk(clean.historical, RequestOf(op), historical.value)
    ensures var q := RequestOf(op);
            HybridInv(clean.(pending := Some(RollbackFor(clean, op)), live := Call(clean.live, q, live).child,
                             historical := if historical.Some? then Call(clean.historical, q, historical.value).child else clean.historical))
  {
    var r, q, t := RollbackFor(clean, op), RequestOf(op), clean.topology;
    RollbackCovers(clean, op);
    SelfAgree(t, RollbackScope(r));
    hide Agree, Inside, Records, OutcomeOk, RollbackFor, Call;
    CallInside(clean.live, q, live, t, RollbackScope(r));
    if historical.Some? { CallInside(clean.historical, q, historical.value, t, RollbackScope(r)); }
  }

  /** The successful end: both children and the record hold the next topology. */
  lemma CommittedInv(clean: Hybrid, op: Change)
    requires HybridInv(clean) && clean.pending.None?
    requires if op.RegisterBase? then clean.topology.owners == map[] else clean.topology.base == []
    ensures var next := NextTopology(clean.topology, op);
            HybridInv(clean.(topology := next, historical := Applied(clean.historical, RequestOf(op)), live := Applied(clean.live, RequestOf(op))))
  {
  }

  /** After the live call, and after the historical one, both children can still
      be restored and the children's contract covers the compensation. */
  lemma StagedKeeps(h: Hybrid, op: Change, s: Script)
    requires HybridInv(h) && ScriptOk(h, op, s) && !h.poisoned
    requires Reconcile(h, op.RegisterBase?, s.before).verdict.Clear? && !Stopped(Reconcile(h, op.RegisterBase?, s.before).state, op, s.refused)
    ensures var clean, q := Reconcile(h, op.RegisterBase?, s.before).state, RequestOf(op);
            var staged := clean.(pending := Some(RollbackFor(clean, op)), live := Call(clean.live, q, s.live).child);
            var called := staged.(historical := Call(clean.historical, q, s.historical).child);
            && HybridInv(clean) && clean.pending.None? && !clean.poisoned
            && HybridInv(staged) && CompensationOk(staged, s.after)
            && HybridInv(called) && CompensationOk(called, s.after)
            && (s.live.Done? && s.historical.Done? ==> HybridInv(called.(pending := None, topology := NextTopology(clean.topology, op))))
  {
    ReconcileKeeps(h, op.RegisterBase?, s.before);
    var clean := Reconcile(h, op.RegisterBase?, s.before).state;
    assert if op.RegisterBase? then clean.topology.owners == map[] else clean.topology.base == [];
    hide Stopped, HybridInv, OutcomeOk, CompensationOk, Reconcile, RollbackFor;
    StagedInv(clean, op, s.live, None);
    StagedInv(clean, op, s.live, Some(s.historical));
    CommittedInv(clean, op);
  }

  /** Every lifecycle operation, however each of its awaits ends, keeps the
      invariant. */
  lemma OperateKeeps(h: Hybrid, op: Change, s: Script)
    requires HybridInv(h) && ScriptOk(h, op, s)
    ensures HybridInv(Operate(h, op, s))
  {
    if !h.poisoned {
      ReconcileKeeps(h, op.RegisterBase?, s.before);
      var ready := Reconcile(h, op.RegisterBase?, s.before);
      if ready.verdict.Clear? && !Stopped(ready.state, op, s.refused) {
        StagedKeeps(h, op, s);
        var clean, q := ready.state, RequestOf(op);
        var staged := clean.(pending := Some(RollbackFor(clean, op)), live := Call(clean.live, q, s.live).child);
        hide Stopped, HybridInv, CompensationOk, Reconcile, RollbackFor, ScriptOk;
        if s.live.Done? {
          ReconcileKeeps(staged, op.RegisterBase?, s.after);
          ReconcileKeeps(staged.(historical := Call(clean.historical, q, s.historical).child), op.RegisterBase?, s.after);
        }
      }
    }
  }

  // ----- Whole runs -----

  datatype Event = Operates(op: Change, script: Script) | Polls | Covers(head: Option<nat>)

  /** Polling activates a staged recovery; acknowledged deliveries move coverage,
      and a canonical reset clears it. */
  function Next(h: Hybrid, e: Event): Hybrid {
    match e
    case Operates(op, script) => Operate(h, op, script)
    case Polls => if h.poisoned then h else Activated(h)
    case Covers(head) => if MayAcknowledge(h) then h.(coverage := head) else h
  }

  function After(h: Hybrid, events: seq<Event>): Hybrid {
    if events == [] then h else Next(After(h, events[..|events| - 1]), events[|events| - 1])
  }

  /** Children obey their contract at every await of the run. */
  ghost predicate RunOk(h: Hybrid, events: seq<Event>) {
    forall k :: 0 <= k < |events| && events[k].Operates? ==> ScriptOk(After(h, events[..k]), events[k].op, events[k].script)
  }

  const EMPTY := Topology([], map[])

  const START := Hybrid(EMPTY, None, None, false, false, EMPTY, EMPTY)

  lemma RunPrefix(h: Hybrid, events: seq<Event>)
    requires events != [] && RunOk(h, events)
    ensures RunOk(h, events[..|events| - 1])
    ensures var last := events[|events| - 1];
            last.Operates? ==> ScriptOk(After(h, events[..|events| - 1]), last.op, last.script)
  {
    var front := events[..|events| - 1];
    hide ScriptOk, After;
    forall k | 0 <= k < |front| && front[k].Operates? ensures ScriptOk(After(h, front[..k]), front[k].op, front[k].script) {
      assert front[..k] == events[..k] && front[k] == events[k];
    }
  }

  lemma {:induction false} RunsKeepInvariant(events: seq<Event>)
    requires RunOk(START, events)
    ensures HybridInv(After(START, events))
  {
    if events != [] {
      var front, e := events[..|events| - 1], events[|events| - 1];
      RunPrefix(START, events);
      RunsKeepInvariant(front);
      var h := After(START, front);
      if e.Operates? {
        hide HybridInv, ScriptOk, Operate;
        OperateKeeps(h, e.op, e.script);
      }
    }
  }

  /** Over every run, with each child call applied, not applied, partly applied or
      dropped: no rollback pending means both children hold the recorded topology. */
  lemma ChildrenAgreeWhenClear(events: seq<Event>)
    requires RunOk(START, events)
    ensures var h := After(START, events);
            h.pending.None? ==> h.historical == h.topology && h.live == h.topology
  {
    RunsKeepInvariant(events);
    hide After, RunOk;
  }

  /** Over every run, whatever is delivered or acknowledged, both children hold
      the recorded topology at that moment. */
  lemma DeliveryNeedsAgreement(events: seq<Event>)
    requires RunOk(START, events)
    ensures var h := After(START, events);
            MayDeliver(h) || MayAcknowledge(h) ==> h.historical == h.topology && h.live == h.topology
  {
    RunsKeepInvariant(events);
    hide After, RunOk;
  }

  /** An ordinary rollback is pending. */
  predicate Blocked(h: Hybrid) {
    h.pending.Some? && !h.pending.value.Recovery?
  }

  lemma OperateKeepsCoverage(h: Hybrid, op: Change, s: Script)
    ensures Operate(h, op, s).coverage == h.coverage
  {
    hide CallAll, Requests, Stopped, Applied, RollbackFor;
  }

  /** From the operation that records an ordinary rollback to the event that clears
      it, nothing is delivered or acknowledged and coverage stays where it was. */
  lemma {:induction false} CoverageFrozen(h: Hybrid, events: seq<Event>)
    requires events != [] && events[0].Operates?
    requires forall k :: 1 <= k < |events| ==> Blocked(After(h, events[..k]))
    ensures After(h, events).coverage == h.coverage
    ensures forall k :: 1 <= k < |events| ==> !MayDeliver(After(h, events[..k])) && !MayAcknowledge(After(h, events[..k]))
  {
    hide Operate;
    var front, last := events[..|events| - 1], events[|events| - 1];
    if front == [] {
      OperateKeepsCoverage(h, last.op, last.script);
      assert After(h, front) == h;
    } else {
      assert forall k :: 1 <= k < |front| ==> front[..k] == events[..k];
      CoverageFrozen(h, front);
      if last.Operates? { OperateKeepsCoverage(After(h, front), last.op, last.script); }
      assert Blocked(After(h, events[..|front|]));
    }
  }

  // ----- Changes to an active filter after coverage -----

  /** A latched gap: the rollback is still pending, or the coordinator is poisoned. */
  predicate Latched(h: Hybrid, r: Rollback) {
    h.poisoned || h.pending == Some(r)
  }

  lemma ReconcileLatches(h: Hybrid, baseMode: bool, c: Compensation, r: Rollback)
    requires Latched(h, r) && !h.poisoned && GapOf(r).Some? && !(r.ToTopology? && r.recovery.Some?)
    ensures Latched(Reconcile(h, baseMode, c).state, r) && !Reconcile(h, baseMode, c).verdict.Clear?
  {
    hide CallAll, Requests;
  }

  /** Once latched, no later event of any run clears the gap. */
  lemma LatchedForever(h: Hybrid, e: Event, r: Rollback)
    requires Latched(h, r) && GapOf(r).Some? && !(r.ToTopology? && r.recovery.Some?)
    ensures Latched(Next(h, e), r)
  {
    if e.Operates? && !h.poisoned {
      ReconcileLatches(h, e.op.RegisterBase?, e.script.before, r);
      hide Reconcile;
    }
  }

  lemma {:induction false} LatchedThroughRuns(h: Hybrid, events: seq<Event>, r: Rollback)
    requires Latched(h, r) && GapOf(r).Some? && !(r.ToTopology? && r.recovery.Some?)
    ensures Latched(After(h, events), r)
  {
    if events != [] {
      LatchedThroughRuns(h, events[..|events| - 1], r);
      LatchedForever(After(h, events[..|events| - 1]), events[|events| - 1], r);
    }
  }

  /** Every await of the change itself succeeds. */
  predicate Completes(t: Topology, op: Change, s: Script) {
    s.live.Done? && ChainFits(t, op, s) && s.historical.Done?
  }

  /** An ordinary change to an active filter after coverage that does not commit is
      latched: when its compensation completes, now or in any later operation, the
      coordinator is poisoned. */
  lemma FailedChangeLatches(h: Hybrid, op: Change, s: Script)
    requires !h.poisoned && h.pending.None? && h.coverage.Some? && AltersActive(h.topology, op)
    requires !Stopped(h, op, s.refused) && !Completes(h.topology, op, s)
    ensures var r := RollbackFor(h, op);
            && GapOf(r) == h.coverage && !(r.ToTopology? && r.recovery.Some?)
            && Latched(Operate(h, op, s), r)
  {
    var r, q := RollbackFor(h, op), RequestOf(op);
    assert GapOf(r) == h.coverage && !(r.ToTopology? && r.recovery.Some?);
    var staged := h.(pending := Some(r), live := Call(h.live, q, s.live).child);
    assert Reconcile(h, op.RegisterBase?, s.before) == Reconciled(h, Clear);
    if s.live.Done? {
      hide Stopped, RollbackFor, AltersActive, Reconcile;
      ReconcileLatches(staged, op.RegisterBase?, s.after, r);
      ReconcileLatches(staged.(historical := Call(h.historical, q, s.historical).child), op.RegisterBase?, s.after, r);
    }
  }

  /** So over every continuation, compensation ends poisoned. */
  lemma CompensatedEndsPoisoned(h: Hybrid, op: Change, s: Script, events: seq<Event>)
    requires !h.poisoned && h.pending.None? && h.coverage.Some? && AltersActive(h.topology, op)
    requires !Stopped(h, op, s.refused) && !Completes(h.topology, op, s)
    ensures var later := After(Operate(h, op, s), events); later.pending.None? ==> later.poisoned
  {
    hide Operate, After, Stopped, AltersActive, RollbackFor, Completes;
    FailedChangeLatches(h, op, s);
    LatchedThroughRuns(Operate(h, op, s), events, RollbackFor(h, op));
  }

  /** A global replacement that does not commit keeps its rollback, or stages the
      recovery that must certify the gap from the covered block. */
  lemma FailedGlobalReplacementRecovers(h: Hybrid, op: Change, s: Script)
    requires !h.poisoned && h.pending.None? && h.coverage.Some? && op.ReplaceOwnersGlobally? && h.topology.owners != map[]
    requires !Stopped(h, op, s.refused) && !Completes(h.topology, op, s)
    ensures var after := Operate(h, op, s);
            && !after.poisoned && after.topology == h.topology
            && (after.pending == Some(RollbackFor(h, op)) || after.pending == Some(Recovery(h.coverage.value)))
  {
    var q := RequestOf(op);
    var staged := h.(pending := Some(RollbackFor(h, op)), live := Call(h.live, q, s.live).child);
    assert Reconcile(h, op.RegisterBase?, s.before) == Reconciled(h, Clear);
    hide CallAll, Requests, Applied;
  }

  // ----- The coordinator as an object -----

  class Coordinator {
    var topology: Topology
    var coverageHead: Option<nat>
    var pendingLiveRollback: Option<Rollback>
    var poisoned: bool
    var recovering: bool
    var historical: Topology
    var live: Topology

    function State(): Hybrid
      reads this
    {
      Hybrid(topology, coverageHead, pendingLiveRollback, poisoned, recovering, historical, live)
    }

    /** Both children can be brought back to the recorded topology. */
    ghost predicate Valid()
      reads this
    {
      HybridInv(State())
    }

    constructor ()
      ensures Valid() && State() == START
    {
      topology, coverageHead, pendingLiveRollback := EMPTY, None, None;
      poisoned, recovering, historical, live := false, false, EMPTY, EMPTY;
    }

    /** Compensates both children; each call may fail or be dropped. */
    method ReconcilePending(baseMode: bool, c: Compensation) returns (verdict: Verdict)
      requires Valid() && !poisoned && CompensationOk(State(), c)
      modifies this
      ensures Valid() && topology == old(topology) && coverageHead == old(coverageHead)
      ensures verdict.Clear? ==> pendingLiveRollback.None? && !poisoned && historical == topology && live == topology
      ensures var r := Reconcile(old(State()), baseMode, c); State() == r.state && verdict == r.verdict
    {
      hide CallAll, Requests, HybridInv, CompensationOk;
      ReconcileKeeps(State(), baseMode, c);
      if pendingLiveRollback.None? { return Clear; }
      var r := pendingLiveRollback.value;
      if r.Recovery? || (baseMode && !r.ToBase?) { return Refused; }
      if r.ToTopology? && r.base != [] && r.owners != map[] { return Refused; }
      var before := CallAll(historical, Requests(r), c.historical);
      historical := before.child;
      if before.Cancelled? { return Gone; }
      var now := CallAll(live, Requests(r), c.live);
      live := now.child;
      if now.Cancelled? { return Gone; }
      if !before.Finished? || !now.Finished? { return Refused; }
      if r.ToTopology? && r.recovery.Some? && r.base == [] && r.owners != map[] {
        pendingLiveRollback := Some(Recovery(r.recovery.value));
        return Refused;
      }
      pendingLiveRollback := None;
      if GapOf(r).Some? {
        poisoned := true;
        return Refused;
      }
      verdict := Clear;
    }

    /** Live first, then history, recording the rollback before either call. */
    method Perform(op: Change, s: Script)
      requires Valid() && ScriptOk(State(), op, s)
      modifies this
      ensures Valid() && coverageHead == old(coverageHead)
      ensures State() == Operate(old(State()), op, s)
    {
      hide Reconcile, Stopped, RollbackFor, Applied, HybridInv, CompensationOk, OutcomeOk;
      if poisoned { return; }
      ghost var start := State();
      var verdict := ReconcilePending(op.RegisterBase?, s.before);
      if !verdict.Clear? || Stopped(State(), op, s.refused) { return; }
      StagedKeeps(start, op, s);
      hide ScriptOk;
      var next := NextTopology(topology, op);
      pendingLiveRollback := Some(RollbackFor(State(), op));
      var liveCall := Call(live, RequestOf(op), s.live);
      live := liveCall.child;
      if !liveCall.Finished? { return; }
      if !ChainFits(topology, op, s) {
        var undone := ReconcilePending(op.RegisterBase?, s.after);
        return;
      }
      var historicalCall := Call(historical, RequestOf(op), s.historical);
      historical := historicalCall.child;
      if historicalCall.Finished? {
        pendingLiveRollback := None;
        topology := next;
      } else if historicalCall.Failed? {
        var undone := ReconcilePending(op.RegisterBase?, s.after);
      }
    }
  }
}
