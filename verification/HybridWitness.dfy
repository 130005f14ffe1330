/** Witnesses of committed inputs and how two of them merge
    (crates/remote/src/hybrid.rs, `merge_witness`, `compatible_block_ref`,
    `merge_optional_metadata`, `merge_witness_lifecycle`). */
module HybridWitness {
  import opened Protocol

  /** A block identity whose metadata may still be unknown. */
  datatype Block = Block(number: u64, hash: Bytes, parentHash: Option<Bytes>, timestamp: Option<u64>)

  datatype Lifecycle = Included | Safe | Finalized | Reorged | Pending

  datatype Witness = Witness(
    payloadDigest: Bytes,
    chainId: u64,
    lifecycle: Lifecycle,
    block: Option<Block>,
    transactionIndex: Option<u64>,
    logIndex: Option<u64>,
    logBlockTimestamp: Option<u64>)

  /** Known metadata wins over unknown; two known values must agree. */
  function MergeOptional<T(==)>(left: Option<T>, right: Option<T>): Option<Option<T>> {
    if left.Some? && right.Some? && left != right then None else Some(OrElse(left, right))
  }

  function CompatibleBlock(left: Block, right: Block): Option<Block> {
    if left.number != right.number || left.hash != right.hash then None
    else
      var parent, timestamp := MergeOptional(left.parentHash, right.parentHash), MergeOptional(left.timestamp, right.timestamp);
      if parent.None? || timestamp.None? then None
      else Some(Block(left.number, left.hash, parent.value, timestamp.value))
  }

  function MergeBlocks(left: Option<Block>, right: Option<Block>): Option<Option<Block>> {
    if left.None? then Some(right)
    else if right.None? then Some(left)
    else
      var merged := CompatibleBlock(left.value, right.value);
      if merged.None? then None else Some(merged)
  }

  predicate OnChain(l: Lifecycle) { l.Included? || l.Safe? || l.Finalized? }

  function MergeLifecycle(left: Lifecycle, right: Lifecycle): Option<Lifecycle> {
    if OnChain(left) && OnChain(right) then
      Some(if left.Finalized? || right.Finalized? then Finalized else if left.Safe? || right.Safe? then Safe else Included)
    else if left == right then Some(left)
    else None
  }

  /** The merged witness, or nothing when the two contradict each other. */
  function Merge(left: Witness, right: Witness): Option<Witness> {
    if || left.payloadDigest != right.payloadDigest || left.chainId != right.chainId
       || left.transactionIndex != right.transactionIndex || left.logIndex != right.logIndex
    then None
    else
      var lifecycle := MergeLifecycle(left.lifecycle, right.lifecycle);
      var block := MergeBlocks(left.block, right.block);
      var timestamp := MergeOptional(left.logBlockTimestamp, right.logBlockTimestamp);
      if lifecycle.None? || block.None? || timestamp.None? then None
      else Some(left.(lifecycle := lifecycle.value, block := block.value, logBlockTimestamp := timestamp.value))
  }

  // ----- Merging is a partial join -----

  /** Merging where either side may already be a contradiction. */
  function MergeDefined(a: Option<Witness>, b: Option<Witness>): Option<Witness> {
    if a.None? || b.None? then None else Merge(a.value, b.value)
  }

  lemma MergeIdempotent(a: Witness)
    ensures Merge(a, a) == Some(a)
  {
  }

  lemma MergeCommutes(a: Witness, b: Witness)
    ensures Merge(a, b) == Merge(b, a)
  {
  }

  function BindBlock(a: Option<Option<Block>>, b: Option<Option<Block>>): Option<Option<Block>> {
    if a.None? || b.None? then None else MergeBlocks(a.value, b.value)
  }

  lemma BlocksAssociate(a: Option<Block>, b: Option<Block>, c: Option<Block>)
    ensures BindBlock(MergeBlocks(a, b), Some(c)) == BindBlock(Some(a), MergeBlocks(b, c))
  {
  }

  function BindOptional<T(==)>(a: Option<Option<T>>, b: Option<Option<T>>): Option<Option<T>> {
    if a.None? || b.None? then None else MergeOptional(a.value, b.value)
  }

  lemma OptionalAssociates<T>(a: Option<T>, b: Option<T>, c: Option<T>)
    ensures BindOptional(MergeOptional(a, b), Some(c)) == BindOptional(Some(a), MergeOptional(b, c))
  {
  }

  function BindLifecycle(a: Option<Lifecycle>, b: Option<Lifecycle>): Option<Lifecycle> {
    if a.None? || b.None? then None else MergeLifecycle(a.value, b.value)
  }

  lemma LifecycleAssociates(a: Lifecycle, b: Lifecycle, c: Lifecycle)
    ensures BindLifecycle(MergeLifecycle(a, b), Some(c)) == BindLifecycle(Some(a), MergeLifecycle(b, c))
  {
  }

  /** Grouping does not matter, for the value nor for being defined. */
  lemma MergeAssociates(a: Witness, b: Witness, c: Witness)
    ensures MergeDefined(Merge(a, b), Some(c)) == MergeDefined(Some(a), Merge(b, c))
  {
    BlocksAssociate(a.block, b.block, c.block);
    OptionalAssociates(a.logBlockTimestamp, b.logBlockTimestamp, c.logBlockTimestamp);
    LifecycleAssociates(a.lifecycle, b.lifecycle, c.lifecycle);
    hide MergeBlocks, MergeOptional, MergeLifecycle;
  }

  /** `b` knows everything `a` knows and nothing against it. */
  predicate Extends(b: Witness, a: Witness) {
    Merge(a, b) == Some(b)
  }

  /** Included, then safe, then finalized; reorged and pending stand alone. */
  predicate NoFurther(a: Lifecycle, b: Lifecycle) {
    a == b || (a.Included? && (b.Safe? || b.Finalized?)) || (a.Safe? && b.Finalized?)
  }

  predicate KnowsBlock(b: Block, a: Block) {
    && b.number == a.number && b.hash == a.hash
    && (a.parentHash.Some? ==> b.parentHash == a.parentHash) && (a.timestamp.Some? ==> b.timestamp == a.timestamp)
  }

  /** The same input, no less final, with every optional fact the other has. */
  predicate Knows(b: Witness, a: Witness) {
    && b.payloadDigest == a.payloadDigest && b.chainId == a.chainId
    && b.transactionIndex == a.transactionIndex && b.logIndex == a.logIndex
    && NoFurther(a.lifecycle, b.lifecycle)
    && (a.block.Some? ==> b.block.Some? && KnowsBlock(b.block.value, a.block.value))
    && (a.logBlockTimestamp.Some? ==> b.logBlockTimestamp == a.logBlockTimestamp)
  }

  /** Extending is knowing: with the merge being the least witness that extends both
      sides, this fixes what it is. */
  lemma ExtendsIsKnowing(a: Witness, b: Witness)
    ensures Extends(b, a) <==> Knows(b, a)
  {
    assert MergeBlocks(a.block, b.block) == Some(b.block) <==> (a.block.Some? ==> b.block.Some? && KnowsBlock(b.block.value, a.block.value));
    assert MergeLifecycle(a.lifecycle, b.lifecycle) == Some(b.lifecycle) <==> NoFurther(a.lifecycle, b.lifecycle);
    hide MergeBlocks, MergeLifecycle, KnowsBlock, NoFurther;
  }

  lemma ExtendsTransitive(a: Witness, b: Witness, c: Witness)
    requires Extends(b, a) && Extends(c, b)
    ensures Extends(c, a)
  {
    MergeAssociates(a, b, c);
  }

  lemma ExtendsAntisymmetric(a: Witness, b: Witness)
    requires Extends(b, a) && Extends(a, b)
    ensures a == b
  {
    MergeCommutes(a, b);
  }

  /** A merge is the least witness that extends both sides. */
  lemma MergeIsJoin(a: Witness, b: Witness)
    ensures Merge(a, b).Some? ==> Extends(Merge(a, b).value, a) && Extends(Merge(a, b).value, b)
    ensures forall d :: Extends(d, a) && Extends(d, b) ==> Merge(a, b).Some? && Extends(d, Merge(a, b).value)
  {
    MergeAssociates(a, a, b);
    MergeAssociates(b, b, a);
    MergeIdempotent(a);
    MergeIdempotent(b);
    MergeCommutes(a, b);
    hide Merge;
    forall d | Extends(d, a) && Extends(d, b) ensures Merge(a, b).Some? && Extends(d, Merge(a, b).value) {
      MergeAssociates(a, b, d);
    }
  }

  // ----- Arrival order -----

  /** The stored witness after sightings arrive one after the other. */
  function Stored(sightings: seq<Witness>): Option<Witness>
    requires sightings != []
  {
    if |sightings| == 1 then Some(sightings[0])
    else MergeDefined(Stored(sightings[..|sightings| - 1]), Some(sightings[|sightings| - 1]))
  }

  ghost predicate ExtendsAll(d: Witness, sightings: seq<Witness>) {
    forall w :: w in sightings ==> Extends(d, w)
  }

  lemma {:induction false} StoredExtendsAll(sightings: seq<Witness>)
    requires sightings != [] && Stored(sightings).Some?
    ensures ExtendsAll(Stored(sightings).value, sightings)
  {
    var front, last := sightings[..|sightings| - 1], sightings[|sightings| - 1];
    if front == [] {
      MergeIdempotent(last);
    } else {
      StoredExtendsAll(front);
      var m := Stored(front).value;
      MergeIsJoin(m, last);
      hide Merge, Extends;
      forall w | w in sightings ensures Extends(Stored(sightings).value, w) {
        if w in front { ExtendsTransitive(w, m, Stored(sightings).value); }
        else { assert sightings == front + [last] && w == last; }
      }
    }
  }

  lemma {:induction false} StoredIsLeast(sightings: seq<Witness>, d: Witness)
    requires sightings != [] && ExtendsAll(d, sightings)
    ensures Stored(sightings).Some? && Extends(d, Stored(sightings).value)
  {
    var front, last := sightings[..|sightings| - 1], sightings[|sightings| - 1];
    if front != [] {
      hide Merge, Extends;
      forall w | w in front ensures Extends(d, w) { assert w in sightings; }
      StoredIsLeast(front, d);
      assert last in sightings;
      MergeIsJoin(Stored(front).value, last);
    }
  }

  lemma SameSightingsExtend(a: seq<Witness>, b: seq<Witness>)
    requires a != [] && b != [] && (forall w :: w in a <==> w in b) && Stored(a).Some?
    ensures Stored(b).Some? && Extends(Stored(a).value, Stored(b).value)
  {
    StoredExtendsAll(a);
    hide Merge, Extends, Stored;
    forall w | w in b ensures Extends(Stored(a).value, w) { assert w in a; }
    StoredIsLeast(b, Stored(a).value);
  }

  /** The stored witness, and whether there is one, depends only on what was
      seen: not on the order of arrival nor on repetition. */
  lemma ArrivalOrderDoesNotMatter(a: seq<Witness>, b: seq<Witness>)
    requires a != [] && b != [] && forall w :: w in a <==> w in b
    ensures Stored(a) == Stored(b)
  {
    if Stored(a).Some? {
      SameSightingsExtend(a, b);
      SameSightingsExtend(b, a);
      ExtendsAntisymmetric(Stored(a).value, Stored(b).value);
    } else if Stored(b).Some? {
      SameSightingsExtend(b, a);
    }
  }
}
