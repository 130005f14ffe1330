/** Audiences of routed records and exact deduplication against the journal of
    recent inputs (crates/remote/src/hybrid.rs, `merge_audience`,
    `residual_audience`, `apply_audience_coverage`, `filter_recent`,
    `apply_commit_to_checkpoint`). */
module HybridAudience {
  import opened Protocol
  import opened Ordering

  type Owner = string
  type Identity = Bytes

  datatype Audience = All | Owners(ids: seq<Owner>) | AllExcept(excluded: seq<Owner>)

  /** Installed owners with the lifecycle generation that installed them. */
  type Generations = map<Owner, u64>

  /** Who has seen an input: the base interest, and owners at a generation. */
  datatype Coverage = Coverage(base: bool, owners: map<Owner, u64>)

  const UNSEEN := Coverage(false, map[])

  function Normalized(owners: seq<Owner>): seq<Owner> {
    SortDedup(Lex(CharLess), owners)
  }

  function Keep(owners: seq<Owner>, wanted: set<Owner>): seq<Owner> {
    if owners == [] then []
    else
      var front := Keep(owners[..|owners| - 1], wanted);
      if owners[|owners| - 1] in wanted then front + [owners[|owners| - 1]] else front
  }

  function SetOf(owners: seq<Owner>): set<Owner> {
    set o | o in owners
  }

  function Installed(gens: Generations): set<Owner> { gens.Keys }

  /** An owner that is not installed counts as generation zero. */
  function GenerationOf(gens: Generations, o: Owner): u64 {
    if o in gens then gens[o] else 0
  }

  // ----- The operations -----

  function Merge(current: Audience, incoming: Audience): Audience {
    match (current, incoming)
    case (All, _) => All
    case (_, All) => All
    case (Owners(a), Owners(b)) => Owners(Normalized(a + b))
    case (AllExcept(x), Owners(b)) => AllExcept(Normalized(Keep(x, SetOf(x) - SetOf(b))))
    case (Owners(a), AllExcept(y)) => AllExcept(Normalized(Keep(y, SetOf(y) - SetOf(a))))
    case (AllExcept(x), AllExcept(y)) => AllExcept(Normalized(Keep(x, SetOf(y))))
  }

  predicate Covers(c: Coverage, gens: Generations, o: Owner) {
    o in c.owners && c.owners[o] == GenerationOf(gens, o)
  }

  /** Requested owners split by whether they have seen the input. */
  function CoveredOf(c: Coverage, gens: Generations, owners: set<Owner>): set<Owner> {
    set o | o in owners && Covers(c, gens, o)
  }

  function RequestedOwners(a: Audience, gens: Generations): set<Owner> {
    match a
    case All => Installed(gens)
    case Owners(ids) => SetOf(ids)
    case AllExcept(excluded) => Installed(gens) - SetOf(excluded)
  }

  ghost predicate IsList(s: seq<Owner>, owners: set<Owner>) {
    Sorted(Lex(CharLess), s) && SetOf(s) == owners
  }

  // ----- Meaning -----

  datatype Recipient = Base | Named(owner: Owner)

  function NamedAll(owners: set<Owner>): set<Recipient> {
    set o | o in owners :: Named(o)
  }

  /** The recipients an audience reaches. */
  function Reach(a: Audience, gens: Generations): set<Recipient> {
    (if a.Owners? then {} else {Base}) + NamedAll(RequestedOwners(a, gens))
  }

  /** The recipients that have seen the input at their current generation. */
  predicate Seen(c: Coverage, gens: Generations, r: Recipient) {
    match r
    case Base => c.base
    case Named(o) => Covers(c, gens, o)
  }

  /** Routing names installed owners only. */
  predicate Routable(a: Audience, gens: Generations) {
    match a
    case All => true
    case Owners(ids) => SetOf(ids) <= Installed(gens)
    case AllExcept(excluded) => SetOf(excluded) <= Installed(gens)
  }

  lemma {:induction false} KeepMembers(owners: seq<Owner>, wanted: set<Owner>)
    ensures SetOf(Keep(owners, wanted)) == SetOf(owners) * wanted
  {
    if owners != [] {
      var front, last := owners[..|owners| - 1], owners[|owners| - 1];
      KeepMembers(front, wanted);
      assert owners == front + [last];
      SetAppend(front, last);
      SetAppend(Keep(front, wanted), last);
    }
  }

  lemma NormalizedMembers(owners: seq<Owner>)
    ensures SetOf(Normalized(owners)) == SetOf(owners) && IsList(Normalized(owners), SetOf(owners))
  {
    LexTotal(CharLess);
    SortDedupCorrect(Lex(CharLess), owners);
  }

  /** The owners are listed in order, each once. */
  ghost predicate Listed(a: Audience) {
    match a
    case All => true
    case Owners(ids) => Sorted(Lex(CharLess), ids)
    case AllExcept(excluded) => Sorted(Lex(CharLess), excluded)
  }

  /** Merging is union, over the base interest and the installed owners, and lists
      its owners in order. */
  lemma MergeIsUnion(a: Audience, b: Audience, gens: Generations)
    requires Routable(a, gens) && Routable(b, gens)
    ensures Routable(Merge(a, b), gens) && Listed(Merge(a, b))
    ensures Reach(Merge(a, b), gens) == Reach(a, gens) + Reach(b, gens)
  {
    match (a, b)
    case (Owners(x), Owners(y)) =>
      NormalizedMembers(x + y);
      assert SetOf(x + y) == SetOf(x) + SetOf(y);
      NamedUnion(SetOf(x), SetOf(y));
    case (AllExcept(x), Owners(y)) => ExceptUnion(x, y, gens);
    case (Owners(x), AllExcept(y)) => ExceptUnion(y, x, gens);
    case (AllExcept(x), AllExcept(y)) =>
      NormalizedMembers(Keep(x, SetOf(y)));
      KeepMembers(x, SetOf(y));
      NamedUnion(Installed(gens) - SetOf(x), Installed(gens) - SetOf(y));
      assert Installed(gens) - SetOf(x) * SetOf(y) == (Installed(gens) - SetOf(x)) + (Installed(gens) - SetOf(y));
    case _ =>
  }

  lemma NamedUnion(x: set<Owner>, y: set<Owner>)
    ensures NamedAll(x + y) == NamedAll(x) + NamedAll(y)
  {
  }

  lemma ExceptUnion(x: seq<Owner>, y: seq<Owner>, gens: Generations)
    requires SetOf(x) <= Installed(gens) && SetOf(y) <= Installed(gens)
    ensures var m := AllExcept(Normalized(Keep(x, SetOf(x) - SetOf(y))));
            Routable(m, gens) && Listed(m) && Reach(m, gens) == Reach(AllExcept(x), gens) + Reach(Owners(y), gens)
  {
    NormalizedMembers(Keep(x, SetOf(x) - SetOf(y)));
    KeepMembers(x, SetOf(x) - SetOf(y));
    NamedUnion(Installed(gens) - SetOf(x), SetOf(y));
    assert Installed(gens) - (SetOf(x) * (SetOf(x) - SetOf(y))) == (Installed(gens) - SetOf(x)) + SetOf(y);
  }

  // ----- What is still to be served -----

  lemma {:induction false} ListExists(owners: set<Owner>)
    ensures exists s :: IsList(s, owners)
    decreases |owners|
  {
    if owners == {} {
      assert IsList([], owners);
    } else {
      var o :| o in owners;
      ListExists(owners - {o});
      var s :| IsList(s, owners - {o});
      NormalizedMembers(s + [o]);
      SetAppend(s, o);
      assert IsList(Normalized(s + [o]), owners);
    }
  }

  /** The sorted duplicate-free list of a set of owners. */
  ghost function ListOf(owners: set<Owner>): (s: seq<Owner>)
    ensures IsList(s, owners)
  {
    ListExists(owners);
    var s :| IsList(s, owners);
    s
  }

  lemma ListUnique(s: seq<Owner>, owners: set<Owner>)
    requires IsList(s, owners)
    ensures s == ListOf(owners)
  {
    LexTotal(CharLess);
    var t := ListOf(owners);
    forall o ensures o in s <==> o in t { assert o in SetOf(s) <==> o in SetOf(t); }
    SortedUnique(Lex(CharLess), s, t);
  }

  /** The part of a request that has not been served, if any. */
  ghost function Residual(c: Coverage, requested: Audience, gens: Generations): Option<Audience> {
    var owners := RequestedOwners(requested, gens);
    var covered := CoveredOf(c, gens, owners);
    if !requested.Owners? && !c.base then
      var excluded := if requested.AllExcept? then SetOf(requested.excluded) else {};
      Some(AllExcept(ListOf(excluded + covered)))
    else if owners - covered == {} then None
    else Some(Owners(ListOf(owners - covered)))
  }

  /** The residual reaches exactly the requested recipients that have not seen
      the input, and there is none exactly when everybody has. */
  lemma ResidualIsDifference(c: Coverage, requested: Audience, gens: Generations)
    ensures var r := Residual(c, requested, gens);
            && (r.Some? ==> forall x :: x in Reach(r.value, gens) <==> x in Reach(requested, gens) && !Seen(c, gens, x))
            && (r.None? <==> forall x :: x in Reach(requested, gens) ==> Seen(c, gens, x))
            && (r.Some? && Routable(requested, gens) ==> Routable(r.value, gens))
  {
    var r := Residual(c, requested, gens);
    var owners := RequestedOwners(requested, gens);
    if r.Some? {
      forall x ensures x in Reach(r.value, gens) <==> x in Reach(requested, gens) && !Seen(c, gens, x) {
        if x.Named? {
          assert x in NamedAll(owners) <==> x.owner in owners;
          var kept := RequestedOwners(r.value, gens);
          assert x in NamedAll(kept) <==> x.owner in kept;
        }
      }
      if !requested.Owners? && !c.base { assert Base in Reach(requested, gens); }
      else {
        var o :| o in owners - CoveredOf(c, gens, owners);
        assert Named(o) in Reach(requested, gens) && !Seen(c, gens, Named(o));
      }
    } else {
      forall x | x in Reach(requested, gens) ensures Seen(c, gens, x) {
        if x.Named? {
          assert x.owner in owners;
          assert x.owner !in owners - CoveredOf(c, gens, owners);
        }
      }
    }
  }

  /** Records that an audience has now seen the input. */
  function Cover(c: Coverage, a: Audience, gens: Generations): Coverage {
    Coverage(c.base || !a.Owners?, c.owners + Current(RequestedOwners(a, gens), gens))
  }

  lemma CoverIsUnion(c: Coverage, a: Audience, gens: Generations, x: Recipient)
    ensures Seen(Cover(c, a, gens), gens, x) <==> Seen(c, gens, x) || x in Reach(a, gens)
  {
    if x.Named? { assert x in NamedAll(RequestedOwners(a, gens)) <==> x.owner in RequestedOwners(a, gens); }
  }

  // ----- The operations as they run -----

  /** Owners an audience asks for, in list form. `keys` is the ordered key list
      of the generation map. */
  function RequestedList(a: Audience, keys: seq<Owner>): seq<Owner> {
    match a
    case All => keys
    case Owners(ids) => Normalized(ids)
    case AllExcept(excluded) => Normalized(Keep(keys, SetOf(keys) - SetOf(excluded)))
  }

  lemma RequestedListIs(a: Audience, gens: Generations, keys: seq<Owner>)
    requires IsList(keys, Installed(gens))
    ensures IsList(RequestedList(a, keys), RequestedOwners(a, gens))
  {
    match a
    case All =>
    case Owners(ids) => NormalizedMembers(ids);
    case AllExcept(excluded) =>
      NormalizedMembers(Keep(keys, SetOf(keys) - SetOf(excluded)));
      KeepMembers(keys, SetOf(keys) - SetOf(excluded));
      assert SetOf(keys) * (SetOf(keys) - SetOf(excluded)) == Installed(gens) - SetOf(excluded);
  }

  method Partition(c: Coverage, gens: Generations, owners: seq<Owner>) returns (covered: seq<Owner>, uncovered: seq<Owner>)
    ensures SetOf(covered) == CoveredOf(c, gens, SetOf(owners))
    ensures SetOf(uncovered) == SetOf(owners) - CoveredOf(c, gens, SetOf(owners))
  {
    hide SetOf, CoveredOf, Covers;
    covered, uncovered := [], [];
    NothingAsked(c, gens);
    var i := 0;
    assert owners[..0] == [];
    while i < |owners|
      invariant 0 <= i <= |owners|
      invariant SetOf(covered) == CoveredOf(c, gens, SetOf(owners[..i]))
      invariant SetOf(uncovered) == SetOf(owners[..i]) - CoveredOf(c, gens, SetOf(owners[..i]))
    {
      var o := owners[i];
      assert owners[..i + 1] == owners[..i] + [o];
      SetAppend(owners[..i], o);
      SetAppend(covered, o);
      SetAppend(uncovered, o);
      CoveredAppend(c, gens, SetOf(owners[..i]), o);
      if Covers(c, gens, o) { covered := covered + [o]; } else { uncovered := uncovered + [o]; }
      i := i + 1;
    }
    assert owners[..|owners|] == owners;
  }

  lemma NothingAsked(c: Coverage, gens: Generations)
    ensures SetOf([]) == {} && CoveredOf(c, gens, SetOf([])) == {}
  {
  }

  lemma EmptyList(s: seq<Owner>)
    ensures s == [] <==> SetOf(s) == {}
  {
    assert s != [] ==> s[0] in SetOf(s);
  }

  method ResidualAudience(c: Coverage, requested: Audience, gens: Generations, keys: seq<Owner>) returns (r: Option<Audience>)
    requires IsList(keys, Installed(gens))
    ensures r == Residual(c, requested, gens)
  {
    hide RequestedOwners, RequestedList, IsList, Normalized, CoveredOf, ListOf;
    var owners := RequestedList(requested, keys);
    RequestedListIs(requested, gens, keys);
    ListMembers(owners, RequestedOwners(requested, gens));
    var covered, uncovered := Partition(c, gens, owners);
    if !requested.Owners? && !c.base {
      var excluded := (if requested.AllExcept? then requested.excluded else []) + covered;
      assert SetOf(excluded) == (if requested.AllExcept? then SetOf(requested.excluded) else {}) + SetOf(covered);
      NormalizedMembers(excluded);
      ListUnique(Normalized(excluded), SetOf(excluded));
      return Some(AllExcept(Normalized(excluded)));
    }
    EmptyList(uncovered);
    if uncovered == [] { return None; }
    NormalizedMembers(uncovered);
    ListUnique(Normalized(uncovered), SetOf(uncovered));
    r := Some(Owners(Normalized(uncovered)));
  }

  lemma ListMembers(s: seq<Owner>, owners: set<Owner>)
    requires IsList(s, owners)
    ensures SetOf(s) == owners
  {
  }

  lemma SetAppend(s: seq<Owner>, o: Owner)
    ensures SetOf(s + [o]) == SetOf(s) + {o}
  {
  }

  lemma CoveredAppend(c: Coverage, gens: Generations, owners: set<Owner>, o: Owner)
    ensures CoveredOf(c, gens, owners + {o}) == CoveredOf(c, gens, owners) + (if Covers(c, gens, o) then {o} else {})
    ensures o in owners ==> (o in CoveredOf(c, gens, owners) <==> Covers(c, gens, o))
    ensures !Covers(c, gens, o) ==> o !in CoveredOf(c, gens, owners)
  {
  }

  /** The owners' current generations. */
  function Current(owners: set<Owner>, gens: Generations): map<Owner, u64> {
    map o | o in owners :: GenerationOf(gens, o)
  }

  lemma CurrentAppend(seen: map<Owner, u64>, owners: set<Owner>, gens: Generations, o: Owner)
    ensures seen + Current(owners + {o}, gens) == (seen + Current(owners, gens))[o := GenerationOf(gens, o)]
  {
  }

  method CoverAudience(c: Coverage, a: Audience, gens: Generations, keys: seq<Owner>) returns (r: Coverage)
    requires IsList(keys, Installed(gens))
    ensures r == Cover(c, a, gens)
  {
    hide RequestedOwners, RequestedList, IsList, Current, SetOf, GenerationOf;
    var owners := RequestedList(a, keys);
    RequestedListIs(a, gens, keys);
    ListMembers(owners, RequestedOwners(a, gens));
    var seen := c.owners;
    NothingCurrent(seen, gens);
    assert owners[..0] == [];
    var i := 0;
    while i < |owners|
      invariant 0 <= i <= |owners|
      invariant seen == c.owners + Current(SetOf(owners[..i]), gens)
    {
      assert owners[..i + 1] == owners[..i] + [owners[i]];
      SetAppend(owners[..i], owners[i]);
      CurrentAppend(c.owners, SetOf(owners[..i]), gens, owners[i]);
      seen := seen[owners[i] := GenerationOf(gens, owners[i])];
      i := i + 1;
    }
    assert owners[..|owners|] == owners;
    r := Coverage(c.base || !a.Owners?, seen);
  }

  lemma NothingCurrent(seen: map<Owner, u64>, gens: Generations)
    ensures seen + Current(SetOf([]), gens) == seen
  {
  }
}
