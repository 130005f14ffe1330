/** Bounded canonical block history (crates/hypersync/src/canonical.rs). */
module Canonical {
  import opened Protocol

  datatype CanonicalError =
    | ConflictingBlockMetadata(number: u64)
    | NonContiguousInput(expected: u64, received: u64)
    | Gap(expected: u64, received: u64)
    | HistoryExhausted(required: u64)
    | UnknownParent(number: u64, parentHash: Bytes)
    | InvalidHashWidth(width: nat)
    | BlockNumberOverflow

  /** Retention depth: at least one block. */
  type Depth = n: nat | n >= 1 witness 1

  datatype ReorgDelta = ReorgDelta(commonAncestor: BlockRef, oldTip: BlockRef, newTip: BlockRef)

  function SaturatingSuccessor(n: u64): u64 {
    if n == U64_MAX then n else n + 1
  }

  /** First violation of strictly consecutive input heights. */
  function OrderError(blocks: seq<BlockRef>): Option<CanonicalError> {
    if |blocks| < 2 then None
    else if blocks[0].number == U64_MAX then Some(BlockNumberOverflow)
    else if blocks[1].number != blocks[0].number + 1 then Some(NonContiguousInput(blocks[0].number + 1, blocks[1].number))
    else OrderError(blocks[1..])
  }

  function WidthError(b: BlockRef): Option<CanonicalError> {
    if |b.hash| != 32 then Some(InvalidHashWidth(|b.hash|))
    else if |b.parentHash| != 32 then Some(InvalidHashWidth(|b.parentHash|))
    else None
  }

  function Find(s: seq<BlockRef>, n: int): Option<BlockRef> {
    if s == [] then None else if s[0].number == n then Some(s[0]) else Find(s[1..], n)
  }

  function Tip(s: seq<BlockRef>): Option<BlockRef> {
    if s == [] then None else Some(s[|s| - 1])
  }

  function LastN(s: seq<BlockRef>, n: nat): seq<BlockRef> {
    if |s| > n then s[|s| - n..] else s
  }

  /** Pops blocks above a height off the back. */
  function PopAbove(s: seq<BlockRef>, n: int): seq<BlockRef> {
    if s != [] && s[|s| - 1].number > n then PopAbove(s[..|s| - 1], n) else s
  }

  datatype Placed = Placed(blocks: seq<BlockRef>, ancestor: Option<BlockRef>)

  /** Places one block: already retained, replacing a suffix, or extending the tip. */
  function Place(s: seq<BlockRef>, depth: nat, b: BlockRef): Result<Placed, CanonicalError> {
    var existing := Find(s, b.number);
    if WidthError(b).Some? then Err(WidthError(b).value)
    else if existing.Some? then
      if existing.value.hash == b.hash then
        if existing.value != b then Err(ConflictingBlockMetadata(b.number)) else Ok(Placed(s, None))
      else if b.number == 0 then Err(UnknownParent(0, b.parentHash))
      else
        var ancestor := Find(s, b.number - 1);
        if ancestor.None? then Err(HistoryExhausted(b.number - 1))
        else if ancestor.value.hash != b.parentHash then Err(UnknownParent(b.number, b.parentHash))
        else Ok(Placed(LastN(PopAbove(s, ancestor.value.number) + [b], depth), ancestor))
    else
      var tip := Tip(s);
      if tip.None? then Ok(Placed(LastN(s + [b], depth), None))
      else if b.number == SaturatingSuccessor(tip.value.number) && b.parentHash == tip.value.hash
      then Ok(Placed(LastN(s + [b], depth), None))
      else if b.number > SaturatingSuccessor(tip.value.number)
      then Err(Gap(SaturatingSuccessor(tip.value.number), b.number))
      else Err(HistoryExhausted(b.number))
  }

  /** Places blocks in order, remembering the first replaced suffix's ancestor. */
  function PlaceAll(s: seq<BlockRef>, depth: nat, blocks: seq<BlockRef>, ancestor: Option<BlockRef>): Result<Placed, CanonicalError>
    decreases |blocks|
  {
    if blocks == [] then Ok(Placed(s, ancestor))
    else
      var r := Place(s, depth, blocks[0]);
      if r.Err? then Err(r.error)
      else PlaceAll(r.value.blocks, depth, blocks[1..], OrElse(ancestor, r.value.ancestor))
  }

  datatype Tracked = Tracked(blocks: seq<BlockRef>, reorg: Option<ReorgDelta>)

  function Apply(s: seq<BlockRef>, depth: nat, blocks: seq<BlockRef>): Result<Tracked, CanonicalError> {
    if OrderError(blocks).Some? then Err(OrderError(blocks).value)
    else
      var r := PlaceAll(s, depth, blocks, None);
      if r.Err? then Err(r.error)
      else Ok(Tracked(r.value.blocks, DeltaOf(s, r.value)))
  }

  function DeltaOf(before: seq<BlockRef>, after: Placed): Option<ReorgDelta> {
    if after.ancestor.Some? && Tip(before).Some? && Tip(after.blocks).Some?
    then Some(ReorgDelta(after.ancestor.value, Tip(before).value, Tip(after.blocks).value))
    else None
  }

  // ----- The tracker as an object -----

  class CanonicalTracker {
    const depth: Depth
    var blocks: seq<BlockRef>

    constructor (depth: nat)
      ensures this.depth == (if depth == 0 then 1 else depth) && blocks == []
    {
      this.depth := if depth == 0 then 1 else depth;
      blocks := [];
    }

    /** Works on a candidate and commits it only on success. */
    method ApplyBlocks(input: seq<BlockRef>) returns (r: Result<Option<ReorgDelta>, CanonicalError>)
      modifies this`blocks
      ensures match Apply(old(blocks), depth, input)
              case Ok(t) => blocks == t.blocks && r == Ok(t.reorg)
              case Err(e) => blocks == old(blocks) && r == Err(e)
    {
      var orderError := ValidateInputOrder(input);
      if orderError.Some? { return Err(orderError.value); }
      var candidate := blocks;
      var ancestor: Option<BlockRef> := None;
      var i := 0;
      while i < |input|
        invariant 0 <= i <= |input|
        invariant PlaceAll(blocks, depth, input, None) == PlaceAll(candidate, depth, input[i..], ancestor)
        invariant blocks == old(blocks)
      {
        var placed := Place(candidate, depth, input[i]);
        assert input[i..][1..] == input[i + 1..];
        if placed.Err? { return Err(placed.error); }
        candidate := placed.value.blocks;
        if ancestor.None? { ancestor := placed.value.ancestor; }
        i := i + 1;
      }
      var delta := DeltaOf(blocks, Placed(candidate, ancestor));
      blocks := candidate;
      r := Ok(delta);
    }

    /** Replaces the history by a durable one, keeping the old one on failure. */
    method RestoreBlocks(input: seq<BlockRef>) returns (r: Result<(), CanonicalError>)
      modifies this`blocks
      ensures match Apply([], depth, input)
              case Ok(t) => blocks == t.blocks && r == Ok(())
              case Err(e) => blocks == old(blocks) && r == Err(e)
    {
      var replacement := new CanonicalTracker(depth);
      var applied := replacement.ApplyBlocks(input);
      if applied.Err? { return Err(applied.error); }
      blocks := replacement.blocks;
      r := Ok(());
    }
  }

  method ValidateInputOrder(blocks: seq<BlockRef>) returns (e: Option<CanonicalError>)
    ensures e == OrderError(blocks)
  {
    var i := 0;
    while i + 1 < |blocks|
      invariant 0 <= i <= |blocks|
      invariant OrderError(blocks) == OrderError(blocks[i..])
    {
      assert blocks[i..][1..] == blocks[i + 1..];
      if blocks[i].number == U64_MAX { return Some(BlockNumberOverflow); }
      if blocks[i + 1].number != blocks[i].number + 1 {
        return Some(NonContiguousInput(blocks[i].number + 1, blocks[i + 1].number));
      }
      i := i + 1;
    }
    e := None;
  }

  // ----- Shape of linked histories -----

  ghost predicate Contiguous(s: seq<BlockRef>) {
    forall i :: 0 <= i < |s| ==> s[i].number == s[0].number + i
  }

  lemma {:induction false} LinkedContiguous(s: seq<BlockRef>)
    requires Linked(s)
    ensures Contiguous(s)
  {
    if |s| > 1 {
      LinkedContiguous(s[..|s| - 1]);
      assert Follows(s[|s| - 2], s[|s| - 1]);
      assert s[..|s| - 1][|s| - 2] == s[|s| - 2];
    }
  }

  lemma {:induction false} FindContiguous(s: seq<BlockRef>, n: int)
    requires Contiguous(s)
    ensures Find(s, n) == if s != [] && s[0].number <= n < s[0].number + |s| then Some(s[n - s[0].number]) else None
  {
    if s != [] && s[0].number != n {
      assert forall i :: 0 <= i < |s| - 1 ==> s[1..][i] == s[i + 1];
      FindContiguous(s[1..], n);
    }
  }

  lemma {:induction false} PopContiguous(s: seq<BlockRef>, n: int)
    requires Contiguous(s) && s != [] && s[0].number <= n < s[0].number + |s|
    ensures PopAbove(s, n) == s[..n - s[0].number + 1]
  {
    if s[|s| - 1].number > n {
      PopContiguous(s[..|s| - 1], n);
      assert s[..|s| - 1][..n - s[0].number + 1] == s[..n - s[0].number + 1];
    }
  }

  lemma ConsContiguous(blocks: seq<BlockRef>)
    requires |blocks| >= 2
    ensures Contiguous(blocks) <==> blocks[1].number == blocks[0].number + 1 && Contiguous(blocks[1..])
  {
    if blocks[1].number == blocks[0].number + 1 && Contiguous(blocks[1..]) {
      forall i | 0 <= i < |blocks| ensures blocks[i].number == blocks[0].number + i {
        if i > 0 { assert blocks[1..][i - 1] == blocks[i]; }
      }
    }
    if Contiguous(blocks) {
      assert forall i :: 0 <= i < |blocks| - 1 ==> blocks[1..][i] == blocks[i + 1];
    }
  }

  lemma {:induction false} OrderedContiguous(blocks: seq<BlockRef>)
    ensures OrderError(blocks).None? <==> Contiguous(blocks)
  {
    if |blocks| >= 2 {
      OrderedContiguous(blocks[1..]);
      ConsContiguous(blocks);
    }
  }

  predicate AllOk(s: seq<BlockRef>) {
    forall i :: 0 <= i < |s| ==> BlockRefOk(s[i])
  }

  /** A retained history: linked, bounded and of well-formed blocks. */
  ghost predicate Retained(s: seq<BlockRef>, depth: nat) {
    Linked(s) && AllOk(s) && |s| <= depth
  }

  lemma LastNLast(s: seq<BlockRef>, b: BlockRef, depth: nat)
    requires depth >= 1
    ensures LastN(LastN(s, depth) + [b], depth) == LastN(s + [b], depth)
    ensures Tip(LastN(s + [b], depth)) == Some(b)
  {
  }

  lemma LastNRetained(s: seq<BlockRef>, depth: nat)
    requires Linked(s) && AllOk(s)
    ensures Retained(LastN(s, depth), depth)
  {
    var t := LastN(s, depth);
    forall i | 0 <= i < |t| - 1 ensures Follows(t[i], t[i + 1]) {
      var k := |s| - |t|;
      assert t[i] == s[k + i] && t[i + 1] == s[k + i + 1];
    }
  }

  lemma LinkedAppend(s: seq<BlockRef>, b: BlockRef)
    requires Linked(s) && AllOk(s) && BlockRefOk(b) && (s != [] ==> Follows(s[|s| - 1], b))
    ensures Linked(s + [b]) && AllOk(s + [b])
  {
    var t := s + [b];
    forall i | 0 <= i < |t| - 1 ensures Follows(t[i], t[i + 1]) {
      if i < |s| - 1 { assert Follows(s[i], s[i + 1]); }
    }
  }

  /** A block right above the tip is accepted exactly when it extends it. */
  lemma PlaceAbove(s: seq<BlockRef>, depth: nat, b: BlockRef)
    requires Retained(s, depth) && s != [] && b.number == s[|s| - 1].number + 1
    ensures var r := Place(s, depth, b);
            && (r.Ok? <==> BlockRefOk(b) && Follows(s[|s| - 1], b))
            && (r.Ok? ==> r.value == Placed(LastN(s + [b], depth), None))
  {
    LinkedContiguous(s);
    FindContiguous(s, b.number);
  }

  lemma SplitLinked(front: seq<BlockRef>, b: BlockRef, back: seq<BlockRef>)
    requires front != []
    ensures Linked(front + [b] + back) && AllOk(front + [b] + back) ==> BlockRefOk(b) && Follows(front[|front| - 1], b)
  {
    var all := front + [b] + back;
    assert all[|front|] == b && all[|front| - 1] == front[|front| - 1];
  }

  lemma ExtendStep(depth: nat, chain: seq<BlockRef>, rest: seq<BlockRef>, ancestor: Option<BlockRef>)
    requires depth >= 1 && chain != [] && Linked(chain) && AllOk(chain)
    requires rest != [] && rest[0].number == chain[|chain| - 1].number + 1
    ensures var r := PlaceAll(LastN(chain, depth), depth, rest, ancestor);
            if BlockRefOk(rest[0]) && Follows(chain[|chain| - 1], rest[0])
            then r == PlaceAll(LastN(chain + [rest[0]], depth), depth, rest[1..], ancestor)
            else r.Err?
  {
    LastNRetained(chain, depth);
    PlaceAbove(LastN(chain, depth), depth, rest[0]);
    LastNLast(chain, rest[0], depth);
  }

  /** Blocks above the tip are accepted exactly when they extend it, and the
      bounded history is then the tail of the whole chain. */
  lemma {:induction false} ExtendTip(depth: nat, chain: seq<BlockRef>, rest: seq<BlockRef>, ancestor: Option<BlockRef>)
    requires depth >= 1 && chain != [] && Linked(chain) && AllOk(chain)
    requires Contiguous(rest) && (rest != [] ==> rest[0].number == chain[|chain| - 1].number + 1)
    ensures var r := PlaceAll(LastN(chain, depth), depth, rest, ancestor);
            && (r.Ok? <==> Linked(chain + rest) && AllOk(chain + rest))
            && (r.Ok? ==> r.value == Placed(LastN(chain + rest, depth), ancestor))
    decreases |rest|
  {
    if rest == [] {
      assert chain + rest == chain;
    } else {
      var b := rest[0];
      ExtendStep(depth, chain, rest, ancestor);
      assert chain + rest == chain + [b] + rest[1..];
      SplitLinked(chain, b, rest[1..]);
      if BlockRefOk(b) && Follows(chain[|chain| - 1], b) {
        LinkedAppend(chain, b);
        if |rest| >= 2 { ConsContiguous(rest); }
        ExtendTip(depth, chain + [b], rest[1..], ancestor);
      }
    }
  }

  // ----- What a call accepts and does -----

  /** How many leading input blocks are already retained. */
  function Agreeing(s: seq<BlockRef>, blocks: seq<BlockRef>): (k: nat)
    ensures k <= |blocks|
    ensures forall i :: 0 <= i < k ==> blocks[i] in s
    ensures k < |blocks| ==> blocks[k] !in s
  {
    if blocks == [] || blocks[0] !in s then 0 else 1 + Agreeing(s, blocks[1..])
  }

  /** The chain below a height, followed by replacement blocks. */
  function Rebase(s: seq<BlockRef>, rest: seq<BlockRef>): seq<BlockRef> {
    if rest == [] then s else PopAbove(s, rest[0].number - 1) + rest
  }

  /** A block attaches when its parent is retained at the preceding height and
      no retained block shares its height and hash; anything starts an empty
      history. */
  predicate AttachesAt(s: seq<BlockRef>, b: BlockRef) {
    s == [] ||
    (var parent, sibling := Find(s, b.number - 1), Find(s, b.number);
     && parent.Some? && parent.value.hash == b.parentHash
     && (sibling.Some? ==> sibling.value.hash != b.hash))
  }

  ghost predicate Attaches(s: seq<BlockRef>, rest: seq<BlockRef>) {
    rest == [] || (AllOk(rest) && Linked(rest) && AttachesAt(s, rest[0]))
  }

  /** Common ancestor when a block displaces a retained one. */
  function Displaced(s: seq<BlockRef>, b: BlockRef): Option<BlockRef> {
    if Find(s, b.number).Some? then Find(s, b.number - 1) else None
  }

  lemma InHistory(s: seq<BlockRef>, b: BlockRef)
    requires Contiguous(s)
    ensures b in s <==> Find(s, b.number) == Some(b)
  {
    FindContiguous(s, b.number);
    if b in s {
      var i :| 0 <= i < |s| && s[i] == b;
    }
  }

  /** What stays below an attached block is linked and ends at its parent. */
  lemma KeptBelow(s: seq<BlockRef>, depth: nat, b: BlockRef)
    requires Retained(s, depth) && AttachesAt(s, b)
    ensures var keep := PopAbove(s, b.number - 1);
            && Linked(keep) && AllOk(keep)
            && (keep == [] <==> s == [])
            && (keep != [] ==> Follows(keep[|keep| - 1], b))
            && (Find(s, b.number).None? ==> keep == s)
            && (s != [] ==> 0 < b.number - s[0].number <= |s| && keep == s[..b.number - s[0].number])
  {
    LinkedContiguous(s);
    FindContiguous(s, b.number - 1);
    FindContiguous(s, b.number);
    if s != [] {
      PopContiguous(s, b.number - 1);
      var keep := PopAbove(s, b.number - 1);
      assert forall i :: 0 <= i < |keep| ==> keep[i] == s[i];
    }
  }

  /** Placing a block that is not retained succeeds exactly when it attaches. */
  lemma PlaceNew(s: seq<BlockRef>, depth: nat, b: BlockRef)
    requires depth >= 1 && Retained(s, depth) && b !in s
    ensures var r := Place(s, depth, b);
            && (r.Ok? <==> BlockRefOk(b) && AttachesAt(s, b))
            && (r.Ok? ==> r.value == Placed(LastN(PopAbove(s, b.number - 1) + [b], depth), Displaced(s, b)))
  {
    LinkedContiguous(s);
    FindContiguous(s, b.number);
    FindContiguous(s, b.number - 1);
    InHistory(s, b);
    if BlockRefOk(b) && AttachesAt(s, b) {
      KeptBelow(s, depth, b);
    }
  }

  lemma RestLinked(keep: seq<BlockRef>, rest: seq<BlockRef>)
    requires keep != [] ==> rest != [] && Follows(keep[|keep| - 1], rest[0])
    requires Linked(keep) && AllOk(keep)
    ensures Linked(keep + rest) && AllOk(keep + rest) <==> Linked(rest) && AllOk(rest)
  {
    var all := keep + rest;
    if Linked(all) && AllOk(all) {
      forall i | 0 <= i < |rest| ensures BlockRefOk(rest[i]) && (i < |rest| - 1 ==> Follows(rest[i], rest[i + 1])) {
        assert all[|keep| + i] == rest[i];
        if i < |rest| - 1 { assert all[|keep| + i + 1] == rest[i + 1]; }
      }
    }
    if Linked(rest) && AllOk(rest) {
      forall i | 0 <= i < |all| ensures BlockRefOk(all[i]) && (i < |all| - 1 ==> Follows(all[i], all[i + 1])) {
        if i < |keep| - 1 { assert Follows(keep[i], keep[i + 1]); }
        else if |keep| <= i < |all| - 1 { assert Follows(rest[i - |keep|], rest[i - |keep| + 1]); }
      }
    }
  }

  /** Blocks after an attached first one are placed exactly when linked. */
  lemma PlaceTail(depth: nat, keep: seq<BlockRef>, rest: seq<BlockRef>, ancestor: Option<BlockRef>)
    requires depth >= 1 && Linked(keep) && AllOk(keep) && Contiguous(rest) && rest != [] && BlockRefOk(rest[0])
    requires keep != [] ==> Follows(keep[|keep| - 1], rest[0])
    ensures var r := PlaceAll(LastN(keep + [rest[0]], depth), depth, rest[1..], ancestor);
            && (r.Ok? <==> Linked(rest) && AllOk(rest))
            && (r.Ok? ==> Linked(keep + rest) && AllOk(keep + rest) && r.value == Placed(LastN(keep + rest, depth), ancestor))
  {
    hide Linked, AllOk;
    LinkedAppend(keep, rest[0]);
    if |rest| >= 2 { ConsContiguous(rest); }
    ExtendTip(depth, keep + [rest[0]], rest[1..], ancestor);
    assert (keep + [rest[0]]) + rest[1..] == keep + rest;
    RestLinked(keep, rest);
  }

  /** Placing the first block that is not retained decides the whole call. */
  lemma PlaceRest(s: seq<BlockRef>, depth: nat, rest: seq<BlockRef>)
    requires depth >= 1 && Retained(s, depth) && Contiguous(rest) && rest != [] && rest[0] !in s
    ensures var r := PlaceAll(s, depth, rest, None);
            && (r.Ok? <==> Attaches(s, rest))
            && (r.Ok? ==> r.value == Placed(LastN(Rebase(s, rest), depth), Displaced(s, rest[0])))
            && (r.Ok? ==> Linked(Rebase(s, rest)) && AllOk(Rebase(s, rest)))
  {
    hide Linked, PopAbove;
    PlaceNew(s, depth, rest[0]);
    if BlockRefOk(rest[0]) && AttachesAt(s, rest[0]) {
      KeptBelow(s, depth, rest[0]);
      PlaceTail(depth, PopAbove(s, rest[0].number - 1), rest, Displaced(s, rest[0]));
    }
  }

  lemma {:induction false} SkipAgreeing(s: seq<BlockRef>, depth: nat, blocks: seq<BlockRef>)
    requires Retained(s, depth)
    ensures var k := Agreeing(s, blocks);
            PlaceAll(s, depth, blocks, None) == PlaceAll(s, depth, blocks[k..], None)
  {
    var k := Agreeing(s, blocks);
    if k > 0 {
      LinkedContiguous(s);
      InHistory(s, blocks[0]);
      FindContiguous(s, blocks[0].number);
      SkipAgreeing(s, depth, blocks[1..]);
      assert blocks[1..][k - 1..] == blocks[k..];
    } else {
      assert blocks[0..] == blocks;
    }
  }

  function DeltaFor(s: seq<BlockRef>, rest: seq<BlockRef>): Option<ReorgDelta> {
    if rest == [] || s == [] || Displaced(s, rest[0]).None? then None
    else Some(ReorgDelta(Displaced(s, rest[0]).value, s[|s| - 1], rest[|rest| - 1]))
  }

  lemma RebasedTip(s: seq<BlockRef>, depth: nat, rest: seq<BlockRef>)
    requires depth >= 1 && rest != []
    ensures Tip(LastN(Rebase(s, rest), depth)) == Some(rest[|rest| - 1])
  {
  }

  lemma SliceContiguous(blocks: seq<BlockRef>, k: nat)
    requires Contiguous(blocks) && k <= |blocks|
    ensures Contiguous(blocks[k..])
  {
    assert forall i :: 0 <= i < |blocks[k..]| ==> blocks[k..][i] == blocks[k + i];
  }

  lemma PlaceMeaning(s: seq<BlockRef>, depth: nat, blocks: seq<BlockRef>)
    requires depth >= 1 && Retained(s, depth) && Contiguous(blocks)
    ensures var rest := blocks[Agreeing(s, blocks)..];
            var r := PlaceAll(s, depth, blocks, None);
            && (r.Ok? <==> Attaches(s, rest))
            && (r.Ok? ==> r.value.blocks == LastN(Rebase(s, rest), depth))
            && (r.Ok? ==> r.value.ancestor == (if rest == [] then None else Displaced(s, rest[0])))
            && (r.Ok? ==> Retained(r.value.blocks, depth))
  {
    SkipAgreeing(s, depth, blocks);
    var k := Agreeing(s, blocks);
    var rest := blocks[k..];
    if rest != [] {
      SliceContiguous(blocks, k);
      PlaceRest(s, depth, rest);
      if Attaches(s, rest) { LastNRetained(Rebase(s, rest), depth); }
    }
  }

  /** The exact meaning of one call: after the blocks already retained, the rest
      must attach to a retained parent; the new history is the bounded tail of
      the rebased chain; and a delta is reported exactly when the rest displaces
      a retained block. At most one suffix is replaced. */
  lemma ApplyMeaning(s: seq<BlockRef>, depth: nat, blocks: seq<BlockRef>)
    requires depth >= 1 && Retained(s, depth)
    ensures var rest := blocks[Agreeing(s, blocks)..];
            var r := Apply(s, depth, blocks);
            && (r.Ok? <==> Contiguous(blocks) && Attaches(s, rest))
            && (r.Ok? ==> r.value == Tracked(LastN(Rebase(s, rest), depth), DeltaFor(s, rest)))
            && (r.Ok? ==> Retained(r.value.blocks, depth))
  {
    OrderedContiguous(blocks);
    if Contiguous(blocks) {
      PlaceMeaning(s, depth, blocks);
      var rest := blocks[Agreeing(s, blocks)..];
      if rest != [] { RebasedTip(s, depth, rest); }
    }
  }

  // ----- Refinement of the unbounded chain -----

  /** The bounded history is a tail of the unbounded one. */
  ghost predicate Tracks(s: seq<BlockRef>, depth: nat, ideal: seq<BlockRef>) {
    && Linked(ideal) && AllOk(ideal)
    && |s| <= |ideal| && |s| <= depth && (s == [] ==> ideal == [])
    && ideal[|ideal| - |s|..] == s
  }

  /** The unbounded replace-suffix chain. */
  function IdealApply(ideal: seq<BlockRef>, blocks: seq<BlockRef>): seq<BlockRef> {
    Rebase(ideal, blocks[Agreeing(ideal, blocks)..])
  }

  function IdealDelta(ideal: seq<BlockRef>, blocks: seq<BlockRef>): Option<ReorgDelta> {
    DeltaFor(ideal, blocks[Agreeing(ideal, blocks)..])
  }

  /** The bounded history finds what the unbounded one finds, above its start. */
  lemma FindTracked(s: seq<BlockRef>, depth: nat, ideal: seq<BlockRef>, n: int)
    requires Tracks(s, depth, ideal) && s != []
    ensures n >= s[0].number ==> Find(s, n) == Find(ideal, n)
    ensures Find(s, n).Some? ==> n >= s[0].number
  {
    TracksRetained(s, depth, ideal);
    LinkedContiguous(s);
    FindContiguous(s, n);
    FindContiguous(ideal, n);
  }

  lemma TracksRetained(s: seq<BlockRef>, depth: nat, ideal: seq<BlockRef>)
    requires Tracks(s, depth, ideal)
    ensures Retained(s, depth) && Contiguous(ideal)
    ensures s != [] ==> s[0].number == ideal[|ideal| - |s|].number && s[|s| - 1] == ideal[|ideal| - 1]
  {
    LinkedContiguous(ideal);
    var k := |ideal| - |s|;
    forall i | 0 <= i < |s| ensures BlockRefOk(s[i]) && (i < |s| - 1 ==> Follows(s[i], s[i + 1])) {
      assert s[i] == ideal[k + i];
      if i < |s| - 1 { assert s[i + 1] == ideal[k + i + 1]; }
    }
  }

  lemma AttachedUnbounded(s: seq<BlockRef>, depth: nat, ideal: seq<BlockRef>, b: BlockRef)
    requires Tracks(s, depth, ideal) && AttachesAt(s, b)
    ensures AttachesAt(ideal, b) && Displaced(ideal, b) == Displaced(s, b)
    ensures b in ideal ==> b in s
  {
    TracksRetained(s, depth, ideal);
    LinkedContiguous(s);
    if s != [] {
      FindTracked(s, depth, ideal, b.number - 1);
      FindTracked(s, depth, ideal, b.number);
      InHistory(s, b);
      InHistory(ideal, b);
    }
  }

  /** On accepted input the agreeing prefix does not depend on the bound. */
  lemma {:induction false} AgreeingUnbounded(s: seq<BlockRef>, depth: nat, ideal: seq<BlockRef>, blocks: seq<BlockRef>)
    requires Tracks(s, depth, ideal)
    requires Attaches(s, blocks[Agreeing(s, blocks)..])
    ensures Agreeing(ideal, blocks) == Agreeing(s, blocks)
  {
    if blocks != [] {
      if blocks[0] in s {
        assert blocks[0] in ideal[|ideal| - |s|..];
        assert blocks[1..][Agreeing(s, blocks[1..])..] == blocks[Agreeing(s, blocks)..];
        AgreeingUnbounded(s, depth, ideal, blocks[1..]);
      } else {
        assert blocks[0..] == blocks;
        AttachedUnbounded(s, depth, ideal, blocks[0]);
      }
    }
  }

  lemma TailOfTail(big: seq<BlockRef>, small: seq<BlockRef>, k: nat, depth: nat)
    requires k <= |big| && big[k..] == small && depth >= 1 && small != []
    ensures var t := LastN(small, depth); 0 < |t| <= |big| && big[|big| - |t|..] == t
  {
    var t := LastN(small, depth);
    assert forall i :: 0 <= i < |small| ==> small[i] == big[k + i];
  }

  lemma RebaseLinked(s: seq<BlockRef>, rest: seq<BlockRef>)
    requires Linked(s) && AllOk(s) && rest != [] && Attaches(s, rest)
    ensures Linked(Rebase(s, rest)) && AllOk(Rebase(s, rest))
  {
    KeptBelow(s, |s|, rest[0]);
    RestLinked(PopAbove(s, rest[0].number - 1), rest);
  }

  lemma KeptTail(s: seq<BlockRef>, ideal: seq<BlockRef>, k: nat, n: nat, rest: seq<BlockRef>)
    requires k <= |ideal| && ideal[k..] == s && n <= |s|
    ensures (ideal[..k + n] + rest)[k..] == s[..n] + rest
  {
    assert ideal[..k + n][k..] == ideal[k..][..n];
  }

  lemma RebaseTail(s: seq<BlockRef>, ideal: seq<BlockRef>, rest: seq<BlockRef>)
    requires s != [] && rest != [] && |s| <= |ideal| && ideal[|ideal| - |s|..] == s
    requires ideal[0].number + |ideal| - |s| == s[0].number
    requires 0 < rest[0].number - s[0].number <= |s|
    requires PopAbove(s, rest[0].number - 1) == s[..rest[0].number - s[0].number]
    requires PopAbove(ideal, rest[0].number - 1) == ideal[..rest[0].number - ideal[0].number]
    ensures |ideal| - |s| <= |Rebase(ideal, rest)|
    ensures Rebase(ideal, rest)[|ideal| - |s|..] == Rebase(s, rest)
  {
    KeptTail(s, ideal, |ideal| - |s|, rest[0].number - s[0].number, rest);
  }

  lemma KeptSlice(s: seq<BlockRef>, b: BlockRef)
    requires Linked(s) && AllOk(s) && s != [] && AttachesAt(s, b)
    ensures 0 < b.number - s[0].number <= |s|
    ensures PopAbove(s, b.number - 1) == s[..b.number - s[0].number]
  {
    KeptBelow(s, |s|, b);
  }

  lemma AlignedStart(s: seq<BlockRef>, depth: nat, ideal: seq<BlockRef>)
    requires Tracks(s, depth, ideal) && s != []
    ensures ideal[0].number + |ideal| - |s| == s[0].number
    ensures Linked(s) && AllOk(s)
  {
    TracksRetained(s, depth, ideal);
  }

  lemma RebasedTail(s: seq<BlockRef>, depth: nat, ideal: seq<BlockRef>, rest: seq<BlockRef>)
    requires Tracks(s, depth, ideal) && rest != [] && AttachesAt(s, rest[0]) && AttachesAt(ideal, rest[0])
    ensures |ideal| - |s| <= |Rebase(ideal, rest)|
    ensures Rebase(ideal, rest)[|ideal| - |s|..] == Rebase(s, rest)
  {
    if s != [] {
      AlignedStart(s, depth, ideal);
      KeptSlice(s, rest[0]);
      KeptSlice(ideal, rest[0]);
      RebaseTail(s, ideal, rest);
    }
  }

  lemma TailOfRebase(s: seq<BlockRef>, depth: nat, ideal: seq<BlockRef>, rest: seq<BlockRef>)
    requires depth >= 1 && Tracks(s, depth, ideal) && rest != [] && Attaches(s, rest)
    ensures Tracks(LastN(Rebase(s, rest), depth), depth, Rebase(ideal, rest))
  {
    hide Linked, AllOk, AttachesAt, PopAbove;
    AttachedUnbounded(s, depth, ideal, rest[0]);
    RebaseLinked(ideal, rest);
    RebasedTail(s, depth, ideal, rest);
    TailOfTail(Rebase(ideal, rest), Rebase(s, rest), |ideal| - |s|, depth);
  }

  /** Every accepted call keeps the bounded history a tail of the unbounded
      chain and reports exactly that chain's ancestor, old tip and new tip. */
  lemma TrackerRefinesIdeal(s: seq<BlockRef>, depth: nat, ideal: seq<BlockRef>, blocks: seq<BlockRef>)
    requires depth >= 1 && Tracks(s, depth, ideal)
    ensures var r := Apply(s, depth, blocks);
            r.Ok? ==>
              && Tracks(r.value.blocks, depth, IdealApply(ideal, blocks))
              && r.value.reorg == IdealDelta(ideal, blocks)
  {
    TracksRetained(s, depth, ideal);
    ApplyMeaning(s, depth, blocks);
    if Apply(s, depth, blocks).Ok? {
      var rest := blocks[Agreeing(s, blocks)..];
      AgreeingUnbounded(s, depth, ideal, blocks);
      if rest != [] {
        TailOfRebase(s, depth, ideal, rest);
        AttachedUnbounded(s, depth, ideal, rest[0]);
      }
    }
  }

  /** The same over any sequence of calls, refused calls changing nothing. */
  function ApplyOrKeep(s: seq<BlockRef>, depth: nat, blocks: seq<BlockRef>): seq<BlockRef> {
    var r := Apply(s, depth, blocks);
    if r.Ok? then r.value.blocks else s
  }

  function TrackedAfter(depth: nat, calls: seq<seq<BlockRef>>): seq<BlockRef> {
    if calls == [] then [] else ApplyOrKeep(TrackedAfter(depth, calls[..|calls| - 1]), depth, calls[|calls| - 1])
  }

  /** The unbounded chain fed with the calls the tracker accepted. */
  function IdealAfter(depth: nat, calls: seq<seq<BlockRef>>): seq<BlockRef> {
    if calls == [] then []
    else
      var front, last := calls[..|calls| - 1], calls[|calls| - 1];
      if Apply(TrackedAfter(depth, front), depth, last).Ok? then IdealApply(IdealAfter(depth, front), last)
      else IdealAfter(depth, front)
  }

  lemma {:induction false} TrackerRefinesIdealOverRuns(depth: nat, calls: seq<seq<BlockRef>>)
    requires depth >= 1
    ensures Tracks(TrackedAfter(depth, calls), depth, IdealAfter(depth, calls))
  {
    if calls != [] {
      var front := calls[..|calls| - 1];
      TrackerRefinesIdealOverRuns(depth, front);
      TrackerRefinesIdeal(TrackedAfter(depth, front), depth, IdealAfter(depth, front), calls[|calls| - 1]);
    }
  }
}
