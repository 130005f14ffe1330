/** Compilation of portable interests into provider log filters
    (crates/hypersync/src/query_plan.rs). */
module QueryPlan {
  import opened Protocol
  import opened Ordering

  const MAX_COMPILED_LOG_FILTERS := 4096

  datatype Filter = Filter(addresses: seq<Bytes>, topics: seq<seq<Bytes>>)

  /** The provider filter without any constraint. */
  const MATCH_ALL := Filter([], [])

  datatype Query = Query(
    fromBlock: u64,
    toBlockExcl: Option<u64>,
    maxBlocks: nat,
    maxLogs: nat,
    filters: seq<Filter>,
    allHeaderFields: bool)

  datatype PlanError =
    | InvalidRange
    | TooManyTopicPositions(ownerId: string, positions: nat)
    | InvalidLogFilter(ownerId: string)
    | TooManyCompiledLogFilters

  /** One interest as a named owner asked for it. */
  datatype Asked = Asked(ownerId: string, interest: Interest)

  // ----- What a filter accepts -----

  /** An empty list accepts anything; otherwise the value must be listed. */
  predicate PositionAccepts(values: seq<Bytes>, topics: seq<Bytes>, k: nat) {
    values == [] || (k < |topics| && topics[k] in values)
  }

  predicate Accepts(addresses: seq<Bytes>, topics: seq<seq<Bytes>>, log: LogEvent) {
    && (addresses == [] || log.address in addresses)
    && (forall k :: 0 <= k < |topics| ==> PositionAccepts(topics[k], log.topics, k))
  }

  /** An interest against an event, as records are routed. */
  predicate InterestMatches(interest: Interest, event: ChainEvent) {
    match (interest, event)
    case (BlockInterest(_), BlockHeader(_, _, _, _)) => true
    case (LogInterest(addresses, topics), Log(log)) => Accepts(addresses, topics, log)
    case _ => false
  }

  // ----- Canonical filters -----

  predicate ByteLess(a: byte, b: byte) { a < b }

  function BytesOrder(): (Bytes, Bytes) -> bool { Lex(ByteLess) }

  function ListOrder(): (seq<Bytes>, seq<Bytes>) -> bool { Lex(BytesOrder()) }

  function TopicsOrder(): (seq<seq<Bytes>>, seq<seq<Bytes>>) -> bool { Lex(ListOrder()) }

  /** The key order of the ordered map. */
  predicate FilterLess(f: Filter, g: Filter) {
    ListOrder()(f.addresses, g.addresses) || (f.addresses == g.addresses && TopicsOrder()(f.topics, g.topics))
  }

  lemma OrdersTotal()
    ensures StrictTotal(BytesOrder()) && StrictTotal(ListOrder()) && StrictTotal(TopicsOrder())
  {
    LexTotal(ByteLess);
    LexTotal(BytesOrder());
    LexTotal(ListOrder());
  }

  lemma FilterOrderTotal()
    ensures StrictTotal(FilterLess)
  {
    OrdersTotal();
    var la, lt := ListOrder(), TopicsOrder();
    hide BytesOrder, ListOrder, TopicsOrder;
    forall f, g, h | FilterLess(f, g) && FilterLess(g, h) ensures FilterLess(f, h) {
      assert la(f.addresses, g.addresses) && la(g.addresses, h.addresses) ==> la(f.addresses, h.addresses);
      assert lt(f.topics, g.topics) && lt(g.topics, h.topics) ==> lt(f.topics, h.topics);
    }
    forall f, g ensures FilterLess(f, g) || f == g || FilterLess(g, f) {
      assert la(f.addresses, g.addresses) || f.addresses == g.addresses || la(g.addresses, f.addresses);
      assert lt(f.topics, g.topics) || f.topics == g.topics || lt(g.topics, f.topics);
    }
  }

  function SortEach(topics: seq<seq<Bytes>>): (r: seq<seq<Bytes>>)
    ensures |r| == |topics|
    ensures forall k :: 0 <= k < |r| ==> r[k] == SortDedup(BytesOrder(), topics[k])
  {
    if topics == [] then []
    else SortEach(topics[..|topics| - 1]) + [SortDedup(BytesOrder(), topics[|topics| - 1])]
  }

  /** Drops the unconstrained positions at the end. */
  function TrimEmpty(topics: seq<seq<Bytes>>): seq<seq<Bytes>> {
    if topics != [] && topics[|topics| - 1] == [] then TrimEmpty(topics[..|topics| - 1]) else topics
  }

  function Canonical(addresses: seq<Bytes>, topics: seq<seq<Bytes>>): Filter {
    Filter(SortDedup(BytesOrder(), addresses), TrimEmpty(SortEach(topics)))
  }

  method CanonicalLogFilter(addresses: seq<Bytes>, topics: seq<seq<Bytes>>) returns (f: Filter)
    ensures f == Canonical(addresses, topics)
  {
    var trimmed := SortEach(topics);
    while trimmed != [] && trimmed[|trimmed| - 1] == []
      invariant TrimEmpty(trimmed) == TrimEmpty(SortEach(topics))
      decreases |trimmed|
    {
      trimmed := trimmed[..|trimmed| - 1];
    }
    f := Filter(SortDedup(BytesOrder(), addresses), trimmed);
  }

  lemma SortKeepsMembers(values: seq<Bytes>)
    ensures forall v :: v in SortDedup(BytesOrder(), values) <==> v in values
    ensures SortDedup(BytesOrder(), values) == [] <==> values == []
  {
    OrdersTotal();
    var sorted := SortDedup(BytesOrder(), values);
    SortDedupCorrect(BytesOrder(), values);
    assert values != [] ==> values[0] in sorted;
    assert sorted != [] ==> sorted[0] in values;
  }

  lemma {:induction false} TrimKeepsMeaning(addresses: seq<Bytes>, topics: seq<seq<Bytes>>, log: LogEvent)
    ensures Accepts(addresses, TrimEmpty(topics), log) <==> Accepts(addresses, topics, log)
  {
    if topics != [] && topics[|topics| - 1] == [] {
      var front := topics[..|topics| - 1];
      TrimKeepsMeaning(addresses, front, log);
      assert forall k :: 0 <= k < |front| ==> front[k] == topics[k];
      assert PositionAccepts(topics[|topics| - 1], log.topics, |topics| - 1);
      assert Accepts(addresses, front, log) ==>
          forall k :: 0 <= k < |topics| ==> PositionAccepts(topics[k], log.topics, k) by {
        if Accepts(addresses, front, log) {
          forall k | 0 <= k < |topics| ensures PositionAccepts(topics[k], log.topics, k) {
            if k < |front| { assert PositionAccepts(front[k], log.topics, k); }
          }
        }
      }
      assert Accepts(addresses, topics, log) ==> Accepts(addresses, front, log);
    }
  }

  /** Canonicalization does not change what a filter accepts. */
  lemma CanonicalKeepsMeaning(addresses: seq<Bytes>, topics: seq<seq<Bytes>>, log: LogEvent)
    ensures var f := Canonical(addresses, topics);
            Accepts(f.addresses, f.topics, log) <==> Accepts(addresses, topics, log)
  {
    var sorted := SortDedup(BytesOrder(), addresses);
    var each := SortEach(topics);
    SortKeepsMembers(addresses);
    TrimKeepsMeaning(sorted, each, log);
    forall k | 0 <= k < |topics|
      ensures PositionAccepts(each[k], log.topics, k) <==> PositionAccepts(topics[k], log.topics, k)
    {
      SortKeepsMembers(topics[k]);
    }
    hide SortDedup, TrimEmpty, SortEach, PositionAccepts, BytesOrder;
    assert Accepts(sorted, each, log) <==> Accepts(addresses, topics, log);
  }

  // ----- The plan -----

  function AskedBy(owner: OwnerInterests, n: nat): seq<Asked>
    requires n <= |owner.interests|
  {
    seq(n, k requires 0 <= k < n => Asked(owner.ownerId, owner.interests[k]))
  }

  /** Every interest in the order the owners list them. */
  function Flat(owners: seq<OwnerInterests>): seq<Asked> {
    if owners == [] then []
    else Flat(owners[..|owners| - 1]) + AskedBy(owners[|owners| - 1], |owners[|owners| - 1].interests|)
  }

  predicate WidthsOk(addresses: seq<Bytes>, topics: seq<seq<Bytes>>) {
    && (forall a | a in addresses :: |a| == 20)
    && (forall values | values in topics :: forall t | t in values :: |t| == 32)
  }

  function Refusal(a: Asked): Option<PlanError> {
    match a.interest
    case LogInterest(addresses, topics) =>
      if |topics| > 4 then Some(TooManyTopicPositions(a.ownerId, |topics|))
      else if !WidthsOk(addresses, topics) then Some(InvalidLogFilter(a.ownerId))
      else None
    case _ => None
  }

  /** The first refused interest decides the error. */
  function FirstRefusal(asked: seq<Asked>): Option<PlanError> {
    if asked == [] then None else OrElse(FirstRefusal(asked[..|asked| - 1]), Refusal(asked[|asked| - 1]))
  }

  function FiltersOf(asked: seq<Asked>): seq<Filter> {
    if asked == [] then []
    else
      var front, last := FiltersOf(asked[..|asked| - 1]), asked[|asked| - 1].interest;
      if last.LogInterest? then front + [Canonical(last.addresses, last.topics)] else front
  }

  /** The distinct canonical filters in key order. */
  function DistinctFilters(asked: seq<Asked>): seq<Filter> {
    SortDedup(FilterLess, FiltersOf(asked))
  }

  predicate WantsHeaders(asked: seq<Asked>) {
    exists k :: 0 <= k < |asked| && asked[k].interest.BlockInterest?
  }

  function AtLeastOne(n: nat): nat { if n == 0 then 1 else n }

  /** The compiled query: one unconstrained filter when any interest is
      unconstrained, else all distinct filters when they fit the limit. */
  function Compile(owners: seq<OwnerInterests>, fromBlock: u64, toBlockExcl: Option<u64>, maxBlocks: nat, maxLogs: nat): Result<Query, PlanError> {
    var asked := Flat(owners);
    var distinct := DistinctFilters(asked);
    if toBlockExcl.Some? && toBlockExcl.value <= fromBlock then Err(InvalidRange)
    else if FirstRefusal(asked).Some? then Err(FirstRefusal(asked).value)
    else if MATCH_ALL !in distinct && |distinct| > MAX_COMPILED_LOG_FILTERS then Err(TooManyCompiledLogFilters)
    else
      var filters := if MATCH_ALL in distinct then [MATCH_ALL] else distinct;
      Ok(Query(fromBlock, toBlockExcl, AtLeastOne(maxBlocks), AtLeastOne(maxLogs), filters, WantsHeaders(asked)))
  }

  // ----- The compiler as it runs -----

  /** What the single pass knows about the interests it has seen. */
  datatype Pass = Pass(keys: seq<Filter>, exceeded: bool, matchAll: bool, headers: bool)

  /** The pass holds what the distinct filters call for. */
  predicate Holds(p: Pass, distinct: seq<Filter>) {
    && p.matchAll == (MATCH_ALL in distinct)
    && (if p.matchAll then p.keys == [MATCH_ALL]
        else
          && |p.keys| <= MAX_COMPILED_LOG_FILTERS
          && (p.exceeded <==> |distinct| > MAX_COMPILED_LOG_FILTERS)
          && (p.exceeded ==> |p.keys| == MAX_COMPILED_LOG_FILTERS)
          && (!p.exceeded ==> p.keys == distinct))
  }

  ghost predicate PassOf(p: Pass, asked: seq<Asked>) {
    && FirstRefusal(asked).None?
    && p.headers == WantsHeaders(asked)
    && Holds(p, DistinctFilters(asked))
  }

  function AddFilter(p: Pass, key: Filter): Pass {
    if key == MATCH_ALL then p.(matchAll := true, keys := [key])
    else if !p.matchAll && key !in p.keys then
      if |p.keys| == MAX_COMPILED_LOG_FILTERS then p.(exceeded := true)
      else p.(keys := Insert(FilterLess, p.keys, key))
    else p
  }

  /** One turn of the pass over an accepted interest. */
  function Absorb(p: Pass, interest: Interest): Pass {
    match interest
    case LogInterest(addresses, topics) => AddFilter(p, Canonical(addresses, topics))
    case BlockInterest(_) => p.(headers := true)
    case MissingKind => p
  }

  lemma DistinctSorted(asked: seq<Asked>)
    ensures StrictTotal(FilterLess) && Sorted(FilterLess, DistinctFilters(asked))
    ensures forall f :: f in DistinctFilters(asked) <==> f in FiltersOf(asked)
  {
    FilterOrderTotal();
    SortDedupCorrect(FilterLess, FiltersOf(asked));
  }

  lemma HeadersGrow(asked: seq<Asked>, a: Asked)
    ensures WantsHeaders(asked + [a]) <==> WantsHeaders(asked) || a.interest.BlockInterest?
  {
    var all := asked + [a];
    assert all[|asked|] == a && forall k :: 0 <= k < |asked| ==> all[k] == asked[k];
  }

  lemma FilterAdded(p: Pass, distinct: seq<Filter>, key: Filter)
    requires StrictTotal(FilterLess) && Sorted(FilterLess, distinct) && Holds(p, distinct)
    ensures Holds(AddFilter(p, key), Insert(FilterLess, distinct, key))
  {
    InsertSorted(FilterLess, distinct, key);
    InsertMembers(FilterLess, distinct, key);
    hide Insert, Sorted, StrictTotal;
  }

  lemma DistinctGrow(asked: seq<Asked>, a: Asked)
    ensures DistinctFilters(asked + [a]) ==
            if a.interest.LogInterest? then Insert(FilterLess, DistinctFilters(asked), Canonical(a.interest.addresses, a.interest.topics))
            else DistinctFilters(asked)
  {
    var all := asked + [a];
    assert all[..|all| - 1] == asked;
    hide Canonical;
    if a.interest.LogInterest? {
      var filters := FiltersOf(asked) + [Canonical(a.interest.addresses, a.interest.topics)];
      assert filters[..|filters| - 1] == FiltersOf(asked);
    }
  }

  lemma RefusalGrow(asked: seq<Asked>, a: Asked)
    ensures FirstRefusal(asked + [a]) == OrElse(FirstRefusal(asked), Refusal(a))
  {
    assert (asked + [a])[..|asked|] == asked;
  }

  lemma PassKept(p: Pass, asked: seq<Asked>, a: Asked)
    requires PassOf(p, asked) && Refusal(a).None?
    ensures PassOf(Absorb(p, a.interest), asked + [a])
  {
    HeadersGrow(asked, a);
    RefusalGrow(asked, a);
    DistinctGrow(asked, a);
    DistinctSorted(asked);
    hide WantsHeaders, FirstRefusal, DistinctFilters, Canonical, Refusal, Sorted, StrictTotal;
    if a.interest.LogInterest? {
      FilterAdded(p, DistinctFilters(asked), Canonical(a.interest.addresses, a.interest.topics));
    }
  }

  lemma {:induction false} RefusalSplit(a: seq<Asked>, b: seq<Asked>)
    ensures FirstRefusal(a + b) == OrElse(FirstRefusal(a), FirstRefusal(b))
  {
    if b == [] {
      assert a + b == a;
    } else {
      RefusalSplit(a, b[..|b| - 1]);
      assert (a + b)[..|a + b| - 1] == a + b[..|b| - 1];
    }
  }

  lemma {:induction false} FlatSplit(owners: seq<OwnerInterests>, i: nat)
    requires i <= |owners|
    ensures Flat(owners) == Flat(owners[..i]) + Flat(owners[i..])
  {
    if i == |owners| {
      assert owners[..i] == owners;
    } else {
      var front, tail := owners[..|owners| - 1], owners[i..];
      FlatSplit(front, i);
      assert front[..i] == owners[..i];
      assert tail[..|tail| - 1] == front[i..] && tail[|tail| - 1] == owners[|owners| - 1];
    }
  }

  /** What is asked from one interest on. */
  function AskedFrom(owners: seq<OwnerInterests>, i: nat, j: nat): seq<Asked>
    requires i < |owners| && j <= |owners[i].interests|
  {
    AskedBy(owners[i], |owners[i].interests|)[j..] + Flat(owners[i + 1..])
  }

  lemma Regroup(before: seq<Asked>, all: seq<Asked>, j: nat, after: seq<Asked>)
    requires j < |all|
    ensures before + all + after == before + all[..j] + [all[j]] + (all[j + 1..] + after)
  {
    assert all == all[..j] + [all[j]] + all[j + 1..];
  }

  lemma FlatAround(owners: seq<OwnerInterests>, i: nat, j: nat)
    requires i < |owners| && j < |owners[i].interests|
    ensures Flat(owners) ==
            Flat(owners[..i]) + AskedBy(owners[i], j) + [Asked(owners[i].ownerId, owners[i].interests[j])] + AskedFrom(owners, i, j + 1)
  {
    var all := AskedBy(owners[i], |owners[i].interests|);
    FlatSplit(owners, i + 1);
    AskedStep(owners, i, |owners[i].interests|);
    assert all[..j] == AskedBy(owners[i], j) && all[j] == Asked(owners[i].ownerId, owners[i].interests[j]);
    hide Flat, AskedBy;
    Regroup(Flat(owners[..i]), all, j, Flat(owners[i + 1..]));
  }

  /** A refused interest after accepted ones decides the whole plan. */
  lemma RefusedHere(owners: seq<OwnerInterests>, i: nat, j: nat)
    requires i < |owners| && j < |owners[i].interests|
    requires FirstRefusal(Flat(owners[..i]) + AskedBy(owners[i], j)).None?
    requires Refusal(Asked(owners[i].ownerId, owners[i].interests[j])).Some?
    ensures FirstRefusal(Flat(owners)) == Refusal(Asked(owners[i].ownerId, owners[i].interests[j]))
  {
    var before := Flat(owners[..i]) + AskedBy(owners[i], j);
    var here := Asked(owners[i].ownerId, owners[i].interests[j]);
    FlatAround(owners, i, j);
    hide Flat, AskedBy, Refusal, AskedFrom;
    assert (before + [here])[..|before|] == before;
    RefusalSplit(before + [here], AskedFrom(owners, i, j + 1));
  }

  lemma AskedStep(owners: seq<OwnerInterests>, i: nat, j: nat)
    requires i < |owners| && j <= |owners[i].interests|
    ensures j == 0 ==> Flat(owners[..i]) + AskedBy(owners[i], j) == Flat(owners[..i])
    ensures j < |owners[i].interests| ==>
              Flat(owners[..i]) + AskedBy(owners[i], j + 1) ==
              Flat(owners[..i]) + AskedBy(owners[i], j) + [Asked(owners[i].ownerId, owners[i].interests[j])]
    ensures j == |owners[i].interests| ==> Flat(owners[..i]) + AskedBy(owners[i], j) == Flat(owners[..i + 1])
  {
    assert owners[..i + 1][..i] == owners[..i];
  }

  method CompileQuery(owners: seq<OwnerInterests>, fromBlock: u64, toBlockExcl: Option<u64>, maxBlocks: nat, maxLogs: nat) returns (r: Result<Query, PlanError>)
    ensures r == Compile(owners, fromBlock, toBlockExcl, maxBlocks, maxLogs)
  {
    if toBlockExcl.Some? && toBlockExcl.value <= fromBlock { return Err(InvalidRange); }
    hide FirstRefusal, Refusal, PassOf, Absorb, Flat, AskedBy;
    var pass := Pass([], false, false, false);
    NothingSeen();
    assert owners[..0] == [];
    var i := 0;
    while i < |owners|
      invariant 0 <= i <= |owners|
      invariant PassOf(pass, Flat(owners[..i]))
    {
      var j := 0;
      AskedStep(owners, i, 0);
      while j < |owners[i].interests|
        invariant 0 <= j <= |owners[i].interests|
        invariant PassOf(pass, Flat(owners[..i]) + AskedBy(owners[i], j))
      {
        var asked := Asked(owners[i].ownerId, owners[i].interests[j]);
        var refusal := Refusal(asked);
        if refusal.Some? {
          PassAccepted(pass, Flat(owners[..i]) + AskedBy(owners[i], j));
          RefusedHere(owners, i, j);
          return Err(refusal.value);
        }
        PassKept(pass, Flat(owners[..i]) + AskedBy(owners[i], j), asked);
        AskedStep(owners, i, j);
        pass := Absorb(pass, asked.interest);
        j := j + 1;
      }
      AskedStep(owners, i, j);
      i := i + 1;
    }
    assert owners[..|owners|] == owners;
    PassDone(pass, owners, fromBlock, toBlockExcl, maxBlocks, maxLogs);
    if pass.exceeded && !pass.matchAll { return Err(TooManyCompiledLogFilters); }
    r := Ok(Query(fromBlock, toBlockExcl, AtLeastOne(maxBlocks), AtLeastOne(maxLogs), pass.keys, pass.headers));
  }

  lemma NothingSeen()
    ensures PassOf(Pass([], false, false, false), Flat([]))
  {
  }

  lemma PassAccepted(p: Pass, asked: seq<Asked>)
    requires PassOf(p, asked)
    ensures FirstRefusal(asked).None?
  {
  }

  lemma PassDone(p: Pass, owners: seq<OwnerInterests>, fromBlock: u64, toBlockExcl: Option<u64>, maxBlocks: nat, maxLogs: nat)
    requires PassOf(p, Flat(owners)) && (toBlockExcl.Some? ==> toBlockExcl.value > fromBlock)
    ensures Compile(owners, fromBlock, toBlockExcl, maxBlocks, maxLogs) ==
            if p.exceeded && !p.matchAll then Err(TooManyCompiledLogFilters)
            else Ok(Query(fromBlock, toBlockExcl, AtLeastOne(maxBlocks), AtLeastOne(maxLogs), p.keys, p.headers))
  {
  }

  // ----- What the compiled query means -----

  predicate SomeFilterAccepts(filters: seq<Filter>, log: LogEvent) {
    exists k :: 0 <= k < |filters| && Accepts(filters[k].addresses, filters[k].topics, log)
  }

  predicate SomeInterestMatches(asked: seq<Asked>, log: LogEvent) {
    exists k :: 0 <= k < |asked| && InterestMatches(asked[k].interest, Log(log))
  }

  lemma {:induction false} FiltersCover(asked: seq<Asked>, log: LogEvent)
    ensures SomeFilterAccepts(FiltersOf(asked), log) <==> SomeInterestMatches(asked, log)
  {
    if asked != [] {
      var front, last := asked[..|asked| - 1], asked[|asked| - 1];
      FiltersCover(front, log);
      MatchSplit(front, last, log);
      assert asked == front + [last];
      if last.interest.LogInterest? {
        CanonicalKeepsMeaning(last.interest.addresses, last.interest.topics, log);
        AcceptSplit(FiltersOf(front), Canonical(last.interest.addresses, last.interest.topics), log);
      }
    }
  }

  lemma MatchSplit(front: seq<Asked>, last: Asked, log: LogEvent)
    ensures SomeInterestMatches(front + [last], log) <==> SomeInterestMatches(front, log) || InterestMatches(last.interest, Log(log))
  {
    var all := front + [last];
    assert all[|front|] == last && forall k :: 0 <= k < |front| ==> all[k] == front[k];
  }

  lemma AcceptSplit(front: seq<Filter>, last: Filter, log: LogEvent)
    ensures SomeFilterAccepts(front + [last], log) <==> SomeFilterAccepts(front, log) || Accepts(last.addresses, last.topics, log)
  {
    var all := front + [last];
    assert all[|front|] == last && forall k :: 0 <= k < |front| ==> all[k] == front[k];
  }

  lemma AcceptMembers(a: seq<Filter>, b: seq<Filter>, log: LogEvent)
    requires forall f :: f in a ==> f in b
    requires SomeFilterAccepts(a, log)
    ensures SomeFilterAccepts(b, log)
  {
    var k :| 0 <= k < |a| && Accepts(a[k].addresses, a[k].topics, log);
    assert a[k] in b;
  }

  /** A log satisfies the compiled filters exactly when some interest asks for
      it: nothing wanted is left unfetched and nothing else is requested. */
  lemma CompiledQueryIsExact(owners: seq<OwnerInterests>, fromBlock: u64, toBlockExcl: Option<u64>, maxBlocks: nat, maxLogs: nat, log: LogEvent)
    requires Compile(owners, fromBlock, toBlockExcl, maxBlocks, maxLogs).Ok?
    ensures SomeFilterAccepts(Compile(owners, fromBlock, toBlockExcl, maxBlocks, maxLogs).value.filters, log)
            <==> SomeInterestMatches(Flat(owners), log)
  {
    var asked := Flat(owners);
    var filters := FiltersOf(asked);
    var distinct := DistinctFilters(asked);
    DistinctSorted(asked);
    FiltersCover(asked, log);
    hide FiltersOf, DistinctFilters, SomeFilterAccepts, Canonical;
    if MATCH_ALL in distinct {
      UnconstrainedAccepts(filters, log);
      UnconstrainedAccepts([MATCH_ALL], log);
    } else {
      if SomeFilterAccepts(filters, log) { AcceptMembers(filters, distinct, log); }
      if SomeFilterAccepts(distinct, log) { AcceptMembers(distinct, filters, log); }
    }
  }

  lemma UnconstrainedAccepts(filters: seq<Filter>, log: LogEvent)
    requires MATCH_ALL in filters
    ensures SomeFilterAccepts(filters, log)
  {
    var k :| 0 <= k < |filters| && filters[k] == MATCH_ALL;
    assert Accepts(filters[k].addresses, filters[k].topics, log);
  }

  // ----- Independence of the order of owners and interests -----

  ghost predicate AsksFor(owners: seq<OwnerInterests>, interest: Interest) {
    exists k :: 0 <= k < |Flat(owners)| && Flat(owners)[k].interest == interest
  }

  /** More than four topic positions, an address that is not 20 bytes, or a topic
      that is not 32. */
  predicate InterestRefused(interest: Interest) {
    interest.LogInterest? &&
    (|| |interest.topics| > 4
     || (exists a :: a in interest.addresses && |a| != 20)
     || (exists k :: 0 <= k < |interest.topics| && exists t :: t in interest.topics[k] && |t| != 32))
  }

  lemma WidthsWhen(addresses: seq<Bytes>, topics: seq<seq<Bytes>>)
    ensures !WidthsOk(addresses, topics) <==>
            || (exists a :: a in addresses && |a| != 20)
            || (exists k :: 0 <= k < |topics| && exists t :: t in topics[k] && |t| != 32)
  {
    if k :| 0 <= k < |topics| && exists t :: t in topics[k] && |t| != 32 {
      var t :| t in topics[k] && |t| != 32;
      assert topics[k] in topics;
    }
    if !WidthsOk(addresses, topics) && forall a | a in addresses :: |a| == 20 {
      var values :| values in topics && exists t | t in values :: |t| != 32;
      var t :| t in values && |t| != 32;
      var k :| 0 <= k < |topics| && topics[k] == values;
      assert t in topics[k];
    }
  }

  lemma RefusedWhen(a: Asked)
    ensures Refusal(a).Some? <==> InterestRefused(a.interest)
    ensures Refusal(a).Some? ==>
              (Refusal(a).value == if |a.interest.topics| > 4 then TooManyTopicPositions(a.ownerId, |a.interest.topics|) else InvalidLogFilter(a.ownerId))
  {
    if a.interest.LogInterest? {
      WidthsWhen(a.interest.addresses, a.interest.topics);
      hide WidthsOk;
    }
  }

  lemma {:induction false} RefusedIff(asked: seq<Asked>)
    ensures FirstRefusal(asked).Some? <==> exists k :: 0 <= k < |asked| && InterestRefused(asked[k].interest)
    ensures FirstRefusal(asked).Some? ==> !FirstRefusal(asked).value.TooManyCompiledLogFilters? && !FirstRefusal(asked).value.InvalidRange?
  {
    if asked != [] {
      var front := asked[..|asked| - 1];
      RefusedIff(front);
      RefusedWhen(asked[|asked| - 1]);
      hide Refusal, InterestRefused;
      assert forall k :: 0 <= k < |front| ==> front[k] == asked[k];
    }
  }

  lemma {:induction false} FilterOfInterest(asked: seq<Asked>, f: Filter)
    ensures f in FiltersOf(asked) <==> exists k :: 0 <= k < |asked| && IsFilterOf(asked[k].interest, f)
  {
    if asked != [] {
      var front := asked[..|asked| - 1];
      FilterOfInterest(front, f);
      assert forall k :: 0 <= k < |front| ==> front[k] == asked[k];
      hide Canonical;
    }
  }

  predicate IsFilterOf(interest: Interest, f: Filter) {
    interest.LogInterest? && Canonical(interest.addresses, interest.topics) == f
  }

  lemma SameFilters(a: seq<OwnerInterests>, b: seq<OwnerInterests>, f: Filter)
    requires forall i :: AsksFor(a, i) ==> AsksFor(b, i)
    requires f in FiltersOf(Flat(a))
    ensures f in FiltersOf(Flat(b))
  {
    FilterOfInterest(Flat(a), f);
    FilterOfInterest(Flat(b), f);
    hide FiltersOf, Canonical;
    var k :| 0 <= k < |Flat(a)| && IsFilterOf(Flat(a)[k].interest, f);
    assert AsksFor(a, Flat(a)[k].interest);
  }

  lemma SameRefusal(a: seq<OwnerInterests>, b: seq<OwnerInterests>)
    requires forall i :: AsksFor(a, i) ==> AsksFor(b, i)
    requires FirstRefusal(Flat(a)).Some?
    ensures FirstRefusal(Flat(b)).Some?
  {
    RefusedIff(Flat(a));
    RefusedIff(Flat(b));
    var k :| 0 <= k < |Flat(a)| && InterestRefused(Flat(a)[k].interest);
    assert AsksFor(a, Flat(a)[k].interest);
  }

  lemma SameHeaders(a: seq<OwnerInterests>, b: seq<OwnerInterests>)
    requires forall i :: AsksFor(a, i) ==> AsksFor(b, i)
    requires WantsHeaders(Flat(a))
    ensures WantsHeaders(Flat(b))
  {
    var k :| 0 <= k < |Flat(a)| && Flat(a)[k].interest.BlockInterest?;
    assert AsksFor(a, Flat(a)[k].interest);
  }

  /** Two desired states that ask for the same interests, in whatever order and
      however spread over owners, compile to the same filter list, agree on
      success, and agree on whether the filter limit is exceeded. */
  lemma OrderDoesNotMatter(a: seq<OwnerInterests>, b: seq<OwnerInterests>, fromBlock: u64, toBlockExcl: Option<u64>, maxBlocks: nat, maxLogs: nat)
    requires forall i :: AsksFor(a, i) <==> AsksFor(b, i)
    ensures var ra := Compile(a, fromBlock, toBlockExcl, maxBlocks, maxLogs);
            var rb := Compile(b, fromBlock, toBlockExcl, maxBlocks, maxLogs);
            && (ra.Ok? <==> rb.Ok?)
            && (ra.Ok? ==> ra == rb)
            && (ra == Err(TooManyCompiledLogFilters) <==> rb == Err(TooManyCompiledLogFilters))
  {
    forall f ensures f in FiltersOf(Flat(a)) <==> f in FiltersOf(Flat(b)) {
      if f in FiltersOf(Flat(a)) { SameFilters(a, b, f); }
      if f in FiltersOf(Flat(b)) { SameFilters(b, a, f); }
    }
    FilterOrderTotal();
    SortDedupOfMembers(FilterLess, FiltersOf(Flat(a)), FiltersOf(Flat(b)));
    RefusedIff(Flat(a));
    RefusedIff(Flat(b));
    if FirstRefusal(Flat(a)).Some? { SameRefusal(a, b); }
    if FirstRefusal(Flat(b)).Some? { SameRefusal(b, a); }
    if WantsHeaders(Flat(a)) { SameHeaders(a, b); }
    if WantsHeaders(Flat(b)) { SameHeaders(b, a); }
    hide FiltersOf, FirstRefusal, WantsHeaders, AsksFor, Flat;
  }

  // ----- The plan over what the owners list -----

  /** An owner of that name lists the interest. */
  ghost predicate Wants(owners: seq<OwnerInterests>, id: string, interest: Interest) {
    exists i, j :: 0 <= i < |owners| && 0 <= j < |owners[i].interests| && owners[i].ownerId == id && owners[i].interests[j] == interest
  }

  lemma AskedByHas(owner: OwnerInterests, a: Asked)
    ensures a in AskedBy(owner, |owner.interests|) <==> owner.ownerId == a.ownerId && a.interest in owner.interests
  {
    var all := AskedBy(owner, |owner.interests|);
    if owner.ownerId == a.ownerId && a.interest in owner.interests {
      var j :| 0 <= j < |owner.interests| && owner.interests[j] == a.interest;
      assert all[j] == a;
    }
  }

  lemma WantsGrow(front: seq<OwnerInterests>, last: OwnerInterests, id: string, interest: Interest)
    ensures Wants(front + [last], id, interest) <==> Wants(front, id, interest) || (last.ownerId == id && interest in last.interests)
  {
    var all := front + [last];
    assert all[|front|] == last;
    if Wants(front, id, interest) {
      var i, j :| 0 <= i < |front| && 0 <= j < |front[i].interests| && front[i].ownerId == id && front[i].interests[j] == interest;
      assert all[i].interests[j] == interest;
    }
    if last.ownerId == id && interest in last.interests {
      var j :| 0 <= j < |last.interests| && last.interests[j] == interest;
      assert all[|front|].interests[j] == interest;
    }
    if Wants(all, id, interest) {
      var i, j :| 0 <= i < |all| && 0 <= j < |all[i].interests| && all[i].ownerId == id && all[i].interests[j] == interest;
      if i < |front| { assert front[i].interests[j] == interest; }
    }
  }

  lemma {:induction false} FlatHas(owners: seq<OwnerInterests>, a: Asked)
    ensures a in Flat(owners) <==> Wants(owners, a.ownerId, a.interest)
  {
    if owners != [] {
      var front, last := owners[..|owners| - 1], owners[|owners| - 1];
      FlatHas(front, a);
      AskedByHas(last, a);
      WantsGrow(front, last, a.ownerId, a.interest);
      hide Wants, AskedBy;
      assert owners == front + [last];
    }
  }

  /** The first owner's first malformed interest decides the error. */
  lemma FirstRefusedDecides(owners: seq<OwnerInterests>, fromBlock: u64, toBlockExcl: Option<u64>, maxBlocks: nat, maxLogs: nat, i: nat, j: nat)
    requires toBlockExcl.Some? ==> fromBlock < toBlockExcl.value
    requires i < |owners| && j < |owners[i].interests| && InterestRefused(owners[i].interests[j])
    requires forall a, b :: 0 <= a < i && 0 <= b < |owners[a].interests| ==> !InterestRefused(owners[a].interests[b])
    requires forall b :: 0 <= b < j ==> !InterestRefused(owners[i].interests[b])
    ensures var topics := owners[i].interests[j].topics;
            Compile(owners, fromBlock, toBlockExcl, maxBlocks, maxLogs) ==
            Err(if |topics| > 4 then TooManyTopicPositions(owners[i].ownerId, |topics|) else InvalidLogFilter(owners[i].ownerId))
  {
    var here := Asked(owners[i].ownerId, owners[i].interests[j]);
    var before := Flat(owners[..i]) + AskedBy(owners[i], j);
    RefusedWhen(here);
    hide InterestRefused, Refusal, FirstRefusal;
    forall k | 0 <= k < |before| ensures !InterestRefused(before[k].interest) {
      if k < |Flat(owners[..i])| {
        FlatHas(owners[..i], before[k]);
        assert before[k] in Flat(owners[..i]);
        var a, b :| 0 <= a < i && 0 <= b < |owners[..i][a].interests| && owners[..i][a].ownerId == before[k].ownerId && owners[..i][a].interests[b] == before[k].interest;
        assert owners[a].interests[b] == before[k].interest;
      } else {
        assert before[k].interest == owners[i].interests[k - |Flat(owners[..i])|];
      }
    }
    RefusedIff(before);
    RefusedHere(owners, i, j);
    hide Flat, AskedBy;
  }

  /** The topic values a filter lists at a position. */
  ghost function ValuesAt(topics: seq<seq<Bytes>>, k: nat): set<Bytes> {
    if k < |topics| then set v | v in topics[k] else {}
  }

  lemma {:induction false} TrimIs(topics: seq<seq<Bytes>>)
    ensures |TrimEmpty(topics)| <= |topics| && TrimEmpty(topics) == topics[..|TrimEmpty(topics)|]
    ensures TrimEmpty(topics) != [] ==> topics[|TrimEmpty(topics)| - 1] != []
    ensures forall k :: |TrimEmpty(topics)| <= k < |topics| ==> topics[k] == []
  {
    if topics != [] && topics[|topics| - 1] == [] {
      var front := topics[..|topics| - 1];
      TrimIs(front);
      assert forall k :: 0 <= k < |front| ==> front[k] == topics[k];
    }
  }

  lemma SortedValues(topics: seq<seq<Bytes>>, k: nat)
    ensures ValuesAt(TrimEmpty(SortEach(topics)), k) == ValuesAt(topics, k)
  {
    TrimIs(SortEach(topics));
    hide SortEach, TrimEmpty;
    if k < |topics| {
      SortKeepsMembers(topics[k]);
      hide SortDedup, BytesOrder;
      assert SortEach(topics)[k] == SortDedup(BytesOrder(), topics[k]);
    }
  }

  lemma NoShorter(x: seq<seq<Bytes>>, y: seq<seq<Bytes>>)
    requires forall k: nat :: (if k < |x| then x[k] else []) == (if k < |y| then y[k] else [])
    ensures |TrimEmpty(y)| <= |TrimEmpty(x)|
  {
    TrimIs(x);
    TrimIs(y);
    hide TrimEmpty;
    var n := |TrimEmpty(y)|;
    if n > 0 { assert (if n - 1 < |x| then x[n - 1] else []) == y[n - 1]; }
  }

  lemma SameTrimmed(a: seq<seq<Bytes>>, b: seq<seq<Bytes>>)
    requires forall k: nat :: ValuesAt(a, k) == ValuesAt(b, k)
    ensures TrimEmpty(SortEach(a)) == TrimEmpty(SortEach(b))
  {
    var x, y := SortEach(a), SortEach(b);
    TrimIs(x);
    TrimIs(y);
    hide TrimEmpty;
    forall k: nat ensures (if k < |x| then x[k] else []) == (if k < |y| then y[k] else []) { SameSorted(a, b, k); }
    NoShorter(x, y);
    NoShorter(y, x);
    assert x[..|TrimEmpty(x)|] == y[..|TrimEmpty(y)|];
  }

  lemma SameSorted(a: seq<seq<Bytes>>, b: seq<seq<Bytes>>, k: nat)
    requires ValuesAt(a, k) == ValuesAt(b, k)
    ensures (if k < |a| then SortEach(a)[k] else []) == (if k < |b| then SortEach(b)[k] else [])
  {
    OrdersTotal();
    hide BytesOrder;
    var x, y := (if k < |a| then a[k] else []), (if k < |b| then b[k] else []);
    forall v ensures v in x <==> v in y { assert v in ValuesAt(a, k) <==> v in ValuesAt(b, k); }
    SortDedupOfMembers(BytesOrder(), x, y);
  }

  /** Two filters share their canonical form exactly when they list the same
      addresses and the same values at every topic position. */
  lemma CanonicalForm(a: Interest, b: Interest)
    requires a.LogInterest? && b.LogInterest?
    ensures Canonical(a.addresses, a.topics) == Canonical(b.addresses, b.topics)
            <==> (forall v :: v in a.addresses <==> v in b.addresses) && (forall k: nat :: ValuesAt(a.topics, k) == ValuesAt(b.topics, k))
  {
    SortKeepsMembers(a.addresses);
    SortKeepsMembers(b.addresses);
    OrdersTotal();
    hide SortDedup, BytesOrder, TrimEmpty, SortEach, ValuesAt;
    if Canonical(a.addresses, a.topics) == Canonical(b.addresses, b.topics) {
      forall k: nat ensures ValuesAt(a.topics, k) == ValuesAt(b.topics, k) {
        SortedValues(a.topics, k);
        SortedValues(b.topics, k);
      }
    }
    if (forall v :: v in a.addresses <==> v in b.addresses) && (forall k: nat :: ValuesAt(a.topics, k) == ValuesAt(b.topics, k)) {
      SortDedupOfMembers(BytesOrder(), a.addresses, b.addresses);
      SameTrimmed(a.topics, b.topics);
    }
  }

  /** The canonical filters of everything that is listed. */
  ghost predicate Named(owners: seq<OwnerInterests>, f: Filter) {
    exists i, j :: 0 <= i < |owners| && 0 <= j < |owners[i].interests| && IsFilterOf(owners[i].interests[j], f)
  }

  lemma NamedIff(owners: seq<OwnerInterests>, f: Filter)
    ensures f in DistinctFilters(Flat(owners)) <==> Named(owners, f)
  {
    DistinctSorted(Flat(owners));
    FilterOfInterest(Flat(owners), f);
    hide FiltersOf, DistinctFilters, IsFilterOf, Flat;
    if f in FiltersOf(Flat(owners)) {
      var k :| 0 <= k < |Flat(owners)| && IsFilterOf(Flat(owners)[k].interest, f);
      FlatHas(owners, Flat(owners)[k]);
    }
    if Named(owners, f) {
      var i, j :| 0 <= i < |owners| && 0 <= j < |owners[i].interests| && IsFilterOf(owners[i].interests[j], f);
      var a := Asked(owners[i].ownerId, owners[i].interests[j]);
      FlatHas(owners, a);
      var k :| 0 <= k < |Flat(owners)| && Flat(owners)[k] == a;
    }
  }

  lemma HeadersIff(owners: seq<OwnerInterests>)
    ensures WantsHeaders(Flat(owners)) <==> exists i, j :: 0 <= i < |owners| && 0 <= j < |owners[i].interests| && owners[i].interests[j].BlockInterest?
  {
    hide Flat;
    if WantsHeaders(Flat(owners)) {
      var k :| 0 <= k < |Flat(owners)| && Flat(owners)[k].interest.BlockInterest?;
      FlatHas(owners, Flat(owners)[k]);
    }
    if i, j :| 0 <= i < |owners| && 0 <= j < |owners[i].interests| && owners[i].interests[j].BlockInterest? {
      var a := Asked(owners[i].ownerId, owners[i].interests[j]);
      FlatHas(owners, a);
      var k :| 0 <= k < |Flat(owners)| && Flat(owners)[k] == a;
    }
  }

  lemma {:induction false} DistinctCount(fs: seq<Filter>)
    requires forall i, j :: 0 <= i < j < |fs| ==> fs[i] != fs[j]
    ensures |set f | f in fs| == |fs|
  {
    if fs != [] {
      var front, last := fs[..|fs| - 1], fs[|fs| - 1];
      DistinctCount(front);
      assert fs == front + [last];
      assert (set f | f in fs) == (set f | f in front) + {last};
    }
  }

  /** The compiled query carries the range and the limits asked for, each limit at
      least one, asks for headers exactly when some owner lists a block interest,
      and lists one filter per distinct canonical form, in key order, unless one of
      them is unconstrained. */
  lemma CompiledAsAsked(owners: seq<OwnerInterests>, fromBlock: u64, toBlockExcl: Option<u64>, maxBlocks: nat, maxLogs: nat)
    requires Compile(owners, fromBlock, toBlockExcl, maxBlocks, maxLogs).Ok?
    ensures var q := Compile(owners, fromBlock, toBlockExcl, maxBlocks, maxLogs).value;
            && q.fromBlock == fromBlock && q.toBlockExcl == toBlockExcl
            && q.maxBlocks >= 1 && (maxBlocks >= 1 ==> q.maxBlocks == maxBlocks) && (maxBlocks == 0 ==> q.maxBlocks == 1)
            && q.maxLogs >= 1 && (maxLogs >= 1 ==> q.maxLogs == maxLogs) && (maxLogs == 0 ==> q.maxLogs == 1)
            && (q.allHeaderFields <==> exists i, j :: 0 <= i < |owners| && 0 <= j < |owners[i].interests| && owners[i].interests[j].BlockInterest?)
            && |q.filters| <= MAX_COMPILED_LOG_FILTERS && Sorted(FilterLess, q.filters)
            && (Named(owners, MATCH_ALL) ==> q.filters == [MATCH_ALL])
            && (!Named(owners, MATCH_ALL) ==> forall f :: f in q.filters <==> Named(owners, f))
  {
    var distinct := DistinctFilters(Flat(owners));
    DistinctSorted(Flat(owners));
    HeadersIff(owners);
    forall f ensures f in distinct <==> Named(owners, f) { NamedIff(owners, f); }
    hide Flat, DistinctFilters, WantsHeaders, Named, FirstRefusal;
  }

  ghost predicate AnyRefused(owners: seq<OwnerInterests>) {
    exists i, j :: 0 <= i < |owners| && 0 <= j < |owners[i].interests| && InterestRefused(owners[i].interests[j])
  }

  lemma AnyRefusedIff(owners: seq<OwnerInterests>)
    ensures FirstRefusal(Flat(owners)).Some? <==> AnyRefused(owners)
  {
    RefusedIff(Flat(owners));
    hide Flat, FirstRefusal, InterestRefused;
    if FirstRefusal(Flat(owners)).Some? {
      var k :| 0 <= k < |Flat(owners)| && InterestRefused(Flat(owners)[k].interest);
      FlatHas(owners, Flat(owners)[k]);
    }
    if AnyRefused(owners) {
      var i, j :| 0 <= i < |owners| && 0 <= j < |owners[i].interests| && InterestRefused(owners[i].interests[j]);
      var a := Asked(owners[i].ownerId, owners[i].interests[j]);
      FlatHas(owners, a);
      var k :| 0 <= k < |Flat(owners)| && Flat(owners)[k] == a;
    }
  }

  /** A plan is compiled exactly when its range is not empty, no listed interest is
      malformed, and the distinct canonical filters fit the limit or one of them is
      unconstrained. */
  lemma CompilesIff(owners: seq<OwnerInterests>, fromBlock: u64, toBlockExcl: Option<u64>, maxBlocks: nat, maxLogs: nat, forms: set<Filter>)
    requires forall f :: f in forms <==> Named(owners, f)
    ensures var r := Compile(owners, fromBlock, toBlockExcl, maxBlocks, maxLogs);
            && (r == Err(InvalidRange) <==> toBlockExcl.Some? && toBlockExcl.value <= fromBlock)
            && var sound := (toBlockExcl.Some? ==> fromBlock < toBlockExcl.value) && !AnyRefused(owners);
            var fits := Named(owners, MATCH_ALL) || |forms| <= MAX_COMPILED_LOG_FILTERS;
            (r.Ok? <==> sound && fits) && (r == Err(TooManyCompiledLogFilters) <==> sound && !fits)
  {
    var distinct := DistinctFilters(Flat(owners));
    DistinctSorted(Flat(owners));
    AnyRefusedIff(owners);
    RefusedIff(Flat(owners));
    forall f ensures f in distinct <==> Named(owners, f) { NamedIff(owners, f); }
    assert forms == set f | f in distinct;
    DistinctCount(distinct);
    hide Flat, DistinctFilters, WantsHeaders, Named, FirstRefusal, AnyRefused;
  }
}
