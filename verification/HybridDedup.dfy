/** Deduplication of routed inputs over whole runs of acknowledged batches
    (crates/remote/src/hybrid.rs, `filter_recent`, `apply_commit_to_checkpoint`). */
module HybridDedup {
  import opened Protocol
  import opened HybridAudience

  datatype Routed = Routed(identity: Identity, audience: Audience)

  datatype Entry = Entry(identity: Identity, coverage: Coverage)

  /** Retained inputs, least recently touched first. */
  type Journal = seq<Entry>

  function IndexIn(items: seq<Routed>, id: Identity): (r: Option<nat>)
    ensures r.Some? ==> r.value < |items| && items[r.value].identity == id
    ensures r.None? ==> forall k :: 0 <= k < |items| ==> items[k].identity != id
  {
    if items == [] then None
    else if items[|items| - 1].identity == id then Some(|items| - 1)
    else IndexIn(items[..|items| - 1], id)
  }

  function CoverageIn(journal: Journal, id: Identity): Coverage {
    if journal == [] then UNSEEN
    else if journal[|journal| - 1].identity == id then journal[|journal| - 1].coverage
    else CoverageIn(journal[..|journal| - 1], id)
  }

  // ----- Filtering one batch -----

  /** Merges an item into the first one with the same identity. */
  function AddItem(merged: seq<Routed>, item: Routed): seq<Routed> {
    var k := IndexIn(merged, item.identity);
    if k.None? then merged + [item]
    else merged[k.value := Routed(item.identity, Merge(merged[k.value].audience, item.audience))]
  }

  function MergeAll(items: seq<Routed>): seq<Routed> {
    if items == [] then [] else AddItem(MergeAll(items[..|items| - 1]), items[|items| - 1])
  }

  /** What a merged item commits: its residual, or just a refresh. */
  ghost function CommitOf(journal: Journal, gens: Generations, item: Routed): Routed {
    var r := Residual(CoverageIn(journal, item.identity), item.audience, gens);
    Routed(item.identity, if r.Some? then r.value else Owners([]))
  }

  ghost function CommitsOf(journal: Journal, gens: Generations, merged: seq<Routed>): seq<Routed> {
    if merged == [] then []
    else CommitsOf(journal, gens, merged[..|merged| - 1]) + [CommitOf(journal, gens, merged[|merged| - 1])]
  }

  /** The records that are actually emitted. */
  ghost function OutputsOf(journal: Journal, gens: Generations, merged: seq<Routed>): seq<Routed> {
    if merged == [] then []
    else
      var front, last := OutputsOf(journal, gens, merged[..|merged| - 1]), merged[|merged| - 1];
      if Residual(CoverageIn(journal, last.identity), last.audience, gens).Some? then front + [CommitOf(journal, gens, last)] else front
  }

  predicate Unique(items: seq<Routed>) {
    forall i, j :: 0 <= i < j < |items| ==> items[i].identity != items[j].identity
  }

  lemma AddKeepsUnique(merged: seq<Routed>, item: Routed)
    requires Unique(merged)
    ensures Unique(AddItem(merged, item))
  {
  }

  lemma {:induction false} MergedUnique(items: seq<Routed>)
    ensures Unique(MergeAll(items))
  {
    if items != [] {
      MergedUnique(items[..|items| - 1]);
      AddKeepsUnique(MergeAll(items[..|items| - 1]), items[|items| - 1]);
    }
  }

  method MergeBatch(batch: seq<Routed>) returns (merged: seq<Routed>)
    ensures merged == MergeAll(batch)
  {
    hide Merge;
    merged := [];
    var i := 0;
    while i < |batch|
      invariant 0 <= i <= |batch| && merged == MergeAll(batch[..i])
    {
      assert batch[..i + 1][..i] == batch[..i];
      var k := IndexIn(merged, batch[i].identity);
      if k.Some? {
        merged := merged[k.value := Routed(batch[i].identity, Merge(merged[k.value].audience, batch[i].audience))];
      } else {
        merged := merged + [batch[i]];
      }
      i := i + 1;
    }
    assert batch[..|batch|] == batch;
  }

  /** First merges duplicates inside the batch, then filters against the journal. */
  method FilterRecent(journal: Journal, gens: Generations, keys: seq<Owner>, batch: seq<Routed>)
    returns (outputs: seq<Routed>, commits: seq<Routed>)
    requires IsList(keys, Installed(gens))
    ensures outputs == OutputsOf(journal, gens, MergeAll(batch))
    ensures commits == CommitsOf(journal, gens, MergeAll(batch))
  {
    hide IsList, Residual, Merge, MergeAll, CoverageIn;
    var merged := MergeBatch(batch);
    outputs, commits := [], [];
    var j := 0;
    while j < |merged|
      invariant 0 <= j <= |merged|
      invariant outputs == OutputsOf(journal, gens, merged[..j]) && commits == CommitsOf(journal, gens, merged[..j])
    {
      assert merged[..j + 1][..j] == merged[..j];
      var item := merged[j];
      var residual := ResidualAudience(CoverageIn(journal, item.identity), item.audience, gens, keys);
      if residual.None? {
        commits := commits + [Routed(item.identity, Owners([]))];
      } else {
        commits := commits + [Routed(item.identity, residual.value)];
        outputs := outputs + [Routed(item.identity, residual.value)];
      }
      j := j + 1;
    }
    assert merged[..|merged|] == merged;
  }

  // ----- Committing an acknowledged batch -----

  function Without(journal: Journal, id: Identity): Journal {
    if journal == [] then []
    else
      var front := Without(journal[..|journal| - 1], id);
      if journal[|journal| - 1].identity == id then front else front + [journal[|journal| - 1]]
  }

  /** Covers the audience and moves the entry to the back. */
  function Touch(journal: Journal, gens: Generations, c: Routed): Journal {
    Without(journal, c.identity) + [Entry(c.identity, Cover(CoverageIn(journal, c.identity), c.audience, gens))]
  }

  function Commit(journal: Journal, gens: Generations, commits: seq<Routed>): Journal {
    if commits == [] then journal
    else Touch(Commit(journal, gens, commits[..|commits| - 1]), gens, commits[|commits| - 1])
  }

  /** Folds the audiences of an acknowledged batch into the journal. */
  method CommitAudiences(journal: Journal, gens: Generations, keys: seq<Owner>, commits: seq<Routed>) returns (r: Journal)
    requires IsList(keys, Installed(gens))
    ensures r == Commit(journal, gens, commits)
  {
    hide IsList, Cover, Without, CoverageIn;
    r := journal;
    var i := 0;
    while i < |commits|
      invariant 0 <= i <= |commits| && r == Commit(journal, gens, commits[..i])
    {
      var c := commits[i];
      assert commits[..i + 1][..i] == commits[..i];
      var covered := CoverAudience(CoverageIn(r, c.identity), c.audience, gens, keys);
      r := Without(r, c.identity) + [Entry(c.identity, covered)];
      i := i + 1;
    }
    assert commits[..|commits|] == commits;
  }

  lemma {:induction false} WithoutKeeps(journal: Journal, id: Identity, other: Identity)
    ensures CoverageIn(Without(journal, id), other) == if other == id then UNSEEN else CoverageIn(journal, other)
  {
    if journal != [] {
      var front, last := journal[..|journal| - 1], journal[|journal| - 1];
      WithoutKeeps(front, id, other);
      var kept := Without(front, id);
      assert (kept + [last])[..|kept|] == kept;
    }
  }

  lemma TouchCovers(journal: Journal, gens: Generations, c: Routed, id: Identity)
    ensures CoverageIn(Touch(journal, gens, c), id) ==
            if id == c.identity then Cover(CoverageIn(journal, id), c.audience, gens) else CoverageIn(journal, id)
  {
    var rest := Without(journal, c.identity);
    WithoutKeeps(journal, c.identity, id);
    hide Cover, Without;
    var all := Touch(journal, gens, c);
    assert all[..|all| - 1] == rest;
  }

  // ----- What one batch means -----

  /** Everybody a batch asks to serve with an identity. */
  function Requested(items: seq<Routed>, gens: Generations, id: Identity): set<Recipient> {
    if items == [] then {}
    else
      var front, last := Requested(items[..|items| - 1], gens, id), items[|items| - 1];
      if last.identity == id then front + Reach(last.audience, gens) else front
  }

  predicate AllRoutable(items: seq<Routed>, gens: Generations) {
    forall k :: 0 <= k < |items| ==> Routable(items[k].audience, gens)
  }

  lemma {:induction false} RequestedAbsent(items: seq<Routed>, gens: Generations, id: Identity)
    requires forall k :: 0 <= k < |items| ==> items[k].identity != id
    ensures Requested(items, gens, id) == {}
  {
    if items != [] { RequestedAbsent(items[..|items| - 1], gens, id); }
  }

  lemma {:induction false} RequestedAt(items: seq<Routed>, gens: Generations, k: nat)
    requires Unique(items) && k < |items|
    ensures Requested(items, gens, items[k].identity) == Reach(items[k].audience, gens)
  {
    var front, id := items[..|items| - 1], items[k].identity;
    assert forall i :: 0 <= i < |front| ==> front[i] == items[i];
    hide Reach;
    if k == |front| { RequestedAbsent(front, gens, id); } else { RequestedAt(front, gens, k); }
  }

  lemma AddRequests(merged: seq<Routed>, item: Routed, gens: Generations, id: Identity)
    requires Unique(merged) && AllRoutable(merged, gens) && Routable(item.audience, gens)
    ensures AllRoutable(AddItem(merged, item), gens)
    ensures Requested(AddItem(merged, item), gens, id) ==
            Requested(merged, gens, id) + (if item.identity == id then Reach(item.audience, gens) else {})
  {
    var k := IndexIn(merged, item.identity);
    var added := AddItem(merged, item);
    AddKeepsUnique(merged, item);
    if k.None? {
      assert added[..|added| - 1] == merged;
    } else {
      MergeIsUnion(merged[k.value].audience, item.audience, gens);
      assert added[k.value].identity == item.identity;
      RequestedAt(merged, gens, k.value);
      RequestedAt(added, gens, k.value);
      hide Reach, Merge;
      if id != item.identity { SameElsewhere(merged, added, k.value, gens, id); }
    }
  }

  lemma {:induction false} SameElsewhere(a: seq<Routed>, b: seq<Routed>, k: nat, gens: Generations, id: Identity)
    requires |a| == |b| && k < |a| && a[k].identity != id && b[k].identity != id
    requires forall i :: 0 <= i < |a| && i != k ==> a[i] == b[i]
    ensures Requested(a, gens, id) == Requested(b, gens, id)
  {
    hide Reach;
    var fa, fb := a[..|a| - 1], b[..|b| - 1];
    if k == |a| - 1 {
      assert fa == fb;
    } else {
      SameElsewhere(fa, fb, k, gens, id);
    }
  }

  lemma {:induction false} MergedRequests(items: seq<Routed>, gens: Generations, id: Identity)
    requires AllRoutable(items, gens)
    ensures AllRoutable(MergeAll(items), gens)
    ensures Requested(MergeAll(items), gens, id) == Requested(items, gens, id)
  {
    if items != [] {
      var front := items[..|items| - 1];
      MergedRequests(front, gens, id);
      MergedUnique(front);
      hide Reach, AddItem;
      AddRequests(MergeAll(front), items[|items| - 1], gens, id);
    }
  }

  lemma RequestedAppend(items: seq<Routed>, item: Routed, gens: Generations, id: Identity)
    ensures Requested(items + [item], gens, id) ==
            Requested(items, gens, id) + (if item.identity == id then Reach(item.audience, gens) else {})
  {
    hide Reach;
    assert (items + [item])[..|items|] == items;
  }

  /** A batch emits exactly what is requested and not yet seen. */
  lemma {:induction false} OutputsAreUnseen(journal: Journal, gens: Generations, merged: seq<Routed>, id: Identity, x: Recipient)
    ensures x in Requested(OutputsOf(journal, gens, merged), gens, id) <==>
            x in Requested(merged, gens, id) && !Seen(CoverageIn(journal, id), gens, x)
  {
    hide Reach, Residual, Seen, Requested, CoverageIn;
    if merged == [] {
      NothingRequested(gens, id);
    } else {
      var front, last := merged[..|merged| - 1], merged[|merged| - 1];
      assert merged == front + [last];
      OutputsAreUnseen(journal, gens, front, id, x);
      ResidualIsDifference(CoverageIn(journal, last.identity), last.audience, gens);
      RequestedAppend(front, last, gens, id);
      RequestedAppend(OutputsOf(journal, gens, front), CommitOf(journal, gens, last), gens, id);
    }
  }

  lemma NothingRequested(gens: Generations, id: Identity)
    ensures Requested([], gens, id) == {}
  {
  }

  /** Committing a refresh serves nobody, so commits reach what outputs reach. */
  lemma {:induction false} CommitsReachOutputs(journal: Journal, gens: Generations, merged: seq<Routed>, id: Identity)
    requires AllRoutable(merged, gens)
    ensures Requested(CommitsOf(journal, gens, merged), gens, id) == Requested(OutputsOf(journal, gens, merged), gens, id)
    ensures AllRoutable(CommitsOf(journal, gens, merged), gens)
  {
    hide Reach, Residual, Seen, Routable, Requested, CoverageIn;
    if merged != [] {
      var front, last := merged[..|merged| - 1], merged[|merged| - 1];
      var c := CommitOf(journal, gens, last);
      CommitsReachOutputs(journal, gens, front, id);
      CommitRoutable(journal, gens, last);
      NobodyReached(gens);
      RequestedAppend(CommitsOf(journal, gens, front), c, gens, id);
      RequestedAppend(OutputsOf(journal, gens, front), c, gens, id);
    }
  }

  lemma CommitRoutable(journal: Journal, gens: Generations, item: Routed)
    requires Routable(item.audience, gens)
    ensures Routable(CommitOf(journal, gens, item).audience, gens)
  {
    ResidualIsDifference(CoverageIn(journal, item.identity), item.audience, gens);
    NobodyReached(gens);
    hide Reach, Residual, Seen, Routable, CoverageIn;
  }

  lemma NobodyReached(gens: Generations)
    ensures Reach(Owners([]), gens) == {} && Routable(Owners([]), gens)
  {
  }

  // ----- Whole runs -----

  /** A recipient served at the generation it had. */
  datatype Serving = Serving(recipient: Recipient, generation: u64)

  function ServingOf(r: Recipient, gens: Generations): Serving {
    Serving(r, if r.Named? then GenerationOf(gens, r.owner) else 0)
  }

  function Servings(rs: set<Recipient>, gens: Generations): set<Serving> {
    set r | r in rs :: ServingOf(r, gens)
  }

  /** A delivery is filtered when it is built; when it is acknowledged its own
      rewinds and resets drop entries before its audiences are folded in. */
  datatype Event =
    | Deliver(batch: seq<Routed>, dropped: set<Identity>)
    | Install(gens: Generations)
    | Forget(ids: set<Identity>)

  datatype State = State(journal: Journal, gens: Generations, generation: u64)

  const START := State([], map[], 1)

  /** Lifecycle changes reinstall owners under a fresh generation. */
  ghost predicate Allowed(s: State, e: Event) {
    match e
    case Deliver(batch, _) => AllRoutable(batch, s.gens)
    case Install(gens) =>
      && s.generation < U64_MAX
      && (forall o :: o in gens ==> gens[o] == s.generation + 1 || (o in s.gens && gens[o] == s.gens[o]))
    case Forget(_) => true
  }

  /** Rewinds, resets and eviction drop entries. */
  function ForgetAll(journal: Journal, ids: set<Identity>): Journal {
    if journal == [] then []
    else
      var front := ForgetAll(journal[..|journal| - 1], ids);
      if journal[|journal| - 1].identity in ids then front else front + [journal[|journal| - 1]]
  }

  ghost function Next(s: State, e: Event): State {
    match e
    case Deliver(batch, dropped) => s.(journal := Commit(ForgetAll(s.journal, dropped), s.gens, CommitsOf(s.journal, s.gens, MergeAll(batch))))
    case Install(gens) => if s.generation < U64_MAX then s.(gens := gens, generation := s.generation + 1) else s
    case Forget(ids) => s.(journal := ForgetAll(s.journal, ids))
  }

  ghost function After(events: seq<Event>): State {
    if events == [] then START else Next(After(events[..|events| - 1]), events[|events| - 1])
  }

  ghost predicate AllAllowed(events: seq<Event>) {
    events == [] || (AllAllowed(events[..|events| - 1]) && Allowed(After(events[..|events| - 1]), events[|events| - 1]))
  }

  /** What a step emits for an identity. */
  ghost function Emitted(s: State, e: Event, id: Identity): set<Serving> {
    if e.Deliver? then Servings(Requested(OutputsOf(s.journal, s.gens, MergeAll(e.batch)), s.gens, id), s.gens) else {}
  }

  ghost function Wanted(s: State, e: Event, id: Identity): set<Serving> {
    if e.Deliver? then Servings(Requested(e.batch, s.gens, id), s.gens) else {}
  }

  /** The step drops what was known of the identity. */
  predicate Drops(e: Event, id: Identity) {
    (e.Forget? && id in e.ids) || (e.Deliver? && id in e.dropped)
  }

  /** Servings of an identity since it was last dropped. */
  ghost function Served(events: seq<Event>, id: Identity): set<Serving> {
    if events == [] then {}
    else
      var front, last := events[..|events| - 1], events[|events| - 1];
      (if Drops(last, id) then {} else Served(front, id)) + Emitted(After(front), last, id)
  }

  /** Requests for an identity since it was last dropped. A batch that drops an
      identity it carries was filtered before: it owes nothing to those who had
      been served until then. */
  ghost function Asked(events: seq<Event>, id: Identity): set<Serving> {
    if events == [] then {}
    else
      var front, last := events[..|events| - 1], events[|events| - 1];
      var wanted := Wanted(After(front), last, id);
      if Drops(last, id) then wanted - Asked(front, id) else Asked(front, id) + wanted
  }

  /** The journal entry remembers the latest serving of every recipient. */
  ghost predicate Remembers(s: State, c: Coverage, served: set<Serving>) {
    && (c.base <==> Serving(Base, 0) in served)
    && (forall o, g :: Serving(Named(o), g) in served ==> o in c.owners && g <= c.owners[o])
    && (forall o :: o in c.owners ==> Serving(Named(o), c.owners[o]) in served && c.owners[o] <= s.generation)
    && (forall o :: o in c.owners && o in s.gens ==> c.owners[o] <= s.gens[o])
    && (forall o :: o in s.gens ==> s.gens[o] <= s.generation)
    && (forall g :: Serving(Base, g) in served ==> g == 0)
  }

  /** Whoever has been served at the current generation has seen the input. */
  lemma ServedIsSeen(s: State, c: Coverage, served: set<Serving>, x: Recipient)
    requires Remembers(s, c, served) && (x.Named? ==> x.owner in s.gens)
    ensures ServingOf(x, s.gens) in served <==> Seen(c, s.gens, x)
  {
  }

  lemma CoverRemembers(s: State, c: Coverage, served: set<Serving>, a: Audience)
    requires Remembers(s, c, served) && Routable(a, s.gens)
    ensures Remembers(s, Cover(c, a, s.gens), served + Servings(Reach(a, s.gens), s.gens))
  {
    var reached := Reach(a, s.gens);
    var asked := RequestedOwners(a, s.gens);
    assert forall o :: Named(o) in reached <==> o in asked;
    assert asked <= Installed(s.gens);
    var after, all := Cover(c, a, s.gens), served + Servings(reached, s.gens);
    assert Base in reached ==> ServingOf(Base, s.gens) in Servings(reached, s.gens);
    forall o | o in after.owners ensures Serving(Named(o), after.owners[o]) in all && after.owners[o] <= s.generation {
      if o in asked { assert ServingOf(Named(o), s.gens) in Servings(reached, s.gens); }
    }
  }

  lemma {:induction false} CommitRemembers(s: State, commits: seq<Routed>, id: Identity, served: set<Serving>)
    requires Remembers(s, CoverageIn(s.journal, id), served) && AllRoutable(commits, s.gens)
    ensures Remembers(s, CoverageIn(Commit(s.journal, s.gens, commits), id), served + Servings(Requested(commits, s.gens, id), s.gens))
  {
    if commits == [] {
      assert Servings({}, s.gens) == {};
      assert served + {} == served;
    } else {
      var front, last := commits[..|commits| - 1], commits[|commits| - 1];
      CommitRemembers(s, front, id, served);
      hide Remembers, Cover, Reach, Routable, Touch;
      TouchCovers(Commit(s.journal, s.gens, front), s.gens, last, id);
      var before := served + Servings(Requested(front, s.gens, id), s.gens);
      if last.identity == id {
        CoverRemembers(s, CoverageIn(Commit(s.journal, s.gens, front), id), before, last.audience);
        ServingsUnion(Requested(front, s.gens, id), Reach(last.audience, s.gens), s.gens);
        assert before + Servings(Reach(last.audience, s.gens), s.gens) == served + Servings(Requested(commits, s.gens, id), s.gens);
      }
    }
  }

  lemma ServingsUnion(a: set<Recipient>, b: set<Recipient>, gens: Generations)
    ensures Servings(a + b, gens) == Servings(a, gens) + Servings(b, gens)
  {
  }

  lemma {:induction false} ForgetKeeps(journal: Journal, ids: set<Identity>, id: Identity)
    ensures CoverageIn(ForgetAll(journal, ids), id) == if id in ids then UNSEEN else CoverageIn(journal, id)
  {
    if journal != [] {
      var front, last := journal[..|journal| - 1], journal[|journal| - 1];
      ForgetKeeps(front, ids, id);
      var kept := ForgetAll(front, ids);
      assert (kept + [last])[..|kept|] == kept;
    }
  }

  lemma InstallRemembers(s: State, gens: Generations, c: Coverage, served: set<Serving>)
    requires Remembers(s, c, served) && Allowed(s, Install(gens))
    ensures Remembers(Next(s, Install(gens)), c, served)
  {
  }

  /** What is left of an entry before a batch is folded in. */
  lemma DroppedRemembers(s: State, dropped: set<Identity>, id: Identity, served: set<Serving>)
    requires Remembers(s, CoverageIn(s.journal, id), served)
    ensures Remembers(s.(journal := ForgetAll(s.journal, dropped)), CoverageIn(ForgetAll(s.journal, dropped), id), if id in dropped then {} else served)
  {
    var t := s.(journal := ForgetAll(s.journal, dropped));
    ForgetKeeps(s.journal, dropped, id);
    if id in dropped { Forgotten(s); RemembersSame(s, t, UNSEEN, {}); } else { RemembersSame(s, t, CoverageIn(s.journal, id), served); }
  }

  lemma DeliverRemembers(s: State, batch: seq<Routed>, dropped: set<Identity>, id: Identity, served: set<Serving>)
    requires Remembers(s, CoverageIn(s.journal, id), served) && AllRoutable(batch, s.gens)
    ensures var e := Deliver(batch, dropped);
            Remembers(Next(s, e), CoverageIn(Next(s, e).journal, id), (if id in dropped then {} else served) + Emitted(s, e, id))
  {
    var merged := MergeAll(batch);
    var commits := CommitsOf(s.journal, s.gens, merged);
    var t := s.(journal := ForgetAll(s.journal, dropped));
    DroppedRemembers(s, dropped, id, served);
    MergedRequests(batch, s.gens, id);
    CommitsReachOutputs(s.journal, s.gens, merged, id);
    var kept := if id in dropped then {} else served;
    CommitRemembers(t, commits, id, kept);
    var e := Deliver(batch, dropped);
    RemembersSame(t, Next(s, e), CoverageIn(Next(s, e).journal, id), kept + Emitted(s, e, id));
  }

  lemma {:induction false} JournalRemembers(events: seq<Event>, id: Identity)
    requires AllAllowed(events)
    ensures Remembers(After(events), CoverageIn(After(events).journal, id), Served(events, id))
  {
    if events != [] {
      var front, e := events[..|events| - 1], events[|events| - 1];
      var s := After(front);
      JournalRemembers(front, id);
      match e
      case Deliver(batch, dropped) => DeliverRemembers(s, batch, dropped, id, Served(front, id));
      case Install(gens) =>
        InstallRemembers(s, gens, CoverageIn(s.journal, id), Served(front, id));
        assert Served(front, id) + {} == Served(front, id);
      case Forget(ids) =>
        DroppedRemembers(s, ids, id, Served(front, id));
        assert Served(front, id) + {} == Served(front, id);
    }
  }

  lemma RemembersSame(s: State, t: State, c: Coverage, served: set<Serving>)
    requires s.gens == t.gens && s.generation == t.generation && Remembers(s, c, served)
    ensures Remembers(t, c, served)
  {
  }

  lemma Forgotten(s: State)
    requires exists c, served :: Remembers(s, c, served)
    ensures Remembers(s, UNSEEN, {})
  {
  }

  lemma {:induction false} RequestedRoutable(items: seq<Routed>, gens: Generations, id: Identity, x: Recipient)
    requires AllRoutable(items, gens) && x in Requested(items, gens, id)
    ensures x.Named? ==> x.owner in gens
  {
    var front, last := items[..|items| - 1], items[|items| - 1];
    if x in Requested(front, gens, id) { RequestedRoutable(front, gens, id, x); }
  }

  /** Over every run, a delivery never serves a retained input again to a
      recipient that was served at its current generation. */
  lemma ServedAtMostOnce(events: seq<Event>, batch: seq<Routed>, dropped: set<Identity>, id: Identity)
    requires AllAllowed(events) && Allowed(After(events), Deliver(batch, dropped))
    ensures Emitted(After(events), Deliver(batch, dropped), id) !! Served(events, id)
  {
    var s := After(events);
    JournalRemembers(events, id);
    MergedRequests(batch, s.gens, id);
    var outputs := OutputsOf(s.journal, s.gens, MergeAll(batch));
    forall v | v in Emitted(s, Deliver(batch, dropped), id) ensures v !in Served(events, id) {
      var x :| x in Requested(outputs, s.gens, id) && v == ServingOf(x, s.gens);
      OutputsAreUnseen(s.journal, s.gens, MergeAll(batch), id, x);
      RequestedRoutable(batch, s.gens, id, x);
      ServedIsSeen(s, CoverageIn(s.journal, id), Served(events, id), x);
    }
  }

  /** Over every run, whoever was asked for a retained input has been served, and
      nobody else. */
  lemma {:induction false} ServedIsAsked(events: seq<Event>, id: Identity)
    requires AllAllowed(events)
    ensures Served(events, id) == Asked(events, id)
  {
    if events != [] {
      var front, e := events[..|events| - 1], events[|events| - 1];
      ServedIsAsked(front, id);
      if e.Deliver? { DeliverServesRest(front, e.batch, e.dropped, id); }
    }
  }

  /** A delivery serves exactly those asked for and not served before. */
  lemma DeliverServesRest(events: seq<Event>, batch: seq<Routed>, dropped: set<Identity>, id: Identity)
    requires AllAllowed(events) && Allowed(After(events), Deliver(batch, dropped))
    ensures var s, e := After(events), Deliver(batch, dropped);
            Emitted(s, e, id) == Wanted(s, e, id) - Served(events, id)
  {
    var s := After(events);
    JournalRemembers(events, id);
    MergedRequests(batch, s.gens, id);
    var outputs := OutputsOf(s.journal, s.gens, MergeAll(batch));
    var asked := Requested(batch, s.gens, id);
    forall x | x in asked ensures ServingOf(x, s.gens) in Served(events, id) <==> x !in Requested(outputs, s.gens, id) {
      OutputsAreUnseen(s.journal, s.gens, MergeAll(batch), id, x);
      RequestedRoutable(batch, s.gens, id, x);
      ServedIsSeen(s, CoverageIn(s.journal, id), Served(events, id), x);
    }
    forall x | x in Requested(outputs, s.gens, id) ensures x in asked {
      OutputsAreUnseen(s.journal, s.gens, MergeAll(batch), id, x);
    }
    hide OutputsOf, Requested, Served, After, AllAllowed, Remembers;
  }
}
