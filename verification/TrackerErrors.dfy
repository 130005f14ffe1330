/** Which blocks the retained history refuses, and with which error
    (crates/hypersync/src/canonical.rs). */
module TrackerErrors {
  import opened Protocol
  import opened Canonical

  /** Another block is retained at this block's height. */
  ghost predicate Displaces(s: seq<BlockRef>, b: BlockRef) {
    exists x :: x in s && x.number == b.number && x.hash != b.hash
  }

  /** Nothing is retained at this height. */
  ghost predicate Absent(s: seq<BlockRef>, number: int) {
    forall x :: x in s ==> x.number != number
  }

  ghost predicate PlaceFails(s: seq<BlockRef>, b: BlockRef, e: CanonicalError) {
    match e
    case InvalidHashWidth(w) => w != 32 && w == if |b.hash| != 32 then |b.hash| else |b.parentHash|
    case ConflictingBlockMetadata(n) =>
      BlockRefOk(b) && n == b.number && exists x :: x in s && x.number == n && x.hash == b.hash && x != b
    case UnknownParent(n, parent) =>
      && BlockRefOk(b) && n == b.number && parent == b.parentHash && Displaces(s, b)
      && (n == 0 || exists y :: y in s && y.number == n - 1 && y.hash != parent)
    case Gap(expected, n) =>
      BlockRefOk(b) && s != [] && n == b.number && expected == SaturatingSuccessor(s[|s| - 1].number) && n > expected
    case HistoryExhausted(n) =>
      BlockRefOk(b) &&
      (|| (n == b.number - 1 && b.number > 0 && Displaces(s, b) && Absent(s, n))
       || (&& n == b.number && s != [] && Absent(s, n) && n <= SaturatingSuccessor(s[|s| - 1].number)
           && (n == SaturatingSuccessor(s[|s| - 1].number) ==> b.parentHash != s[|s| - 1].hash)))
    case _ => false
  }

  lemma FoundIff(s: seq<BlockRef>, n: int)
    requires Contiguous(s)
    ensures Find(s, n).None? <==> Absent(s, n)
    ensures forall x :: x in s && x.number == n <==> Find(s, n) == Some(x)
  {
    FindContiguous(s, n);
    if Find(s, n).Some? { assert Find(s, n).value in s; }
  }

  /** A block is refused exactly as described. */
  lemma PlaceErrors(s: seq<BlockRef>, depth: nat, b: BlockRef, e: CanonicalError)
    requires Contiguous(s)
    ensures Place(s, depth, b) == Err(e) <==> PlaceFails(s, b, e)
  {
    FoundIff(s, b.number);
    FoundIff(s, b.number - 1);
    hide Find, Absent, LastN, PopAbove, Contiguous;
  }

  lemma {:induction false} PlaceAllSnoc(s: seq<BlockRef>, depth: nat, blocks: seq<BlockRef>, b: BlockRef, ancestor: Option<BlockRef>)
    ensures var front := PlaceAll(s, depth, blocks, ancestor);
            PlaceAll(s, depth, blocks + [b], ancestor) ==
            if front.Err? then front
            else
              var r := Place(front.value.blocks, depth, b);
              if r.Err? then Err(r.error) else Ok(Placed(r.value.blocks, OrElse(front.value.ancestor, r.value.ancestor)))
    decreases |blocks|
  {
    hide Place;
    var all := blocks + [b];
    if blocks == [] {
      assert all[1..] == [];
    } else {
      assert all[1..] == blocks[1..] + [b];
      var r := Place(s, depth, blocks[0]);
      if r.Ok? { PlaceAllSnoc(r.value.blocks, depth, blocks[1..], b, OrElse(ancestor, r.value.ancestor)); }
    }
  }

  /** The history a prefix of the input leaves refuses the next block. */
  ghost predicate FailsAt(s: seq<BlockRef>, depth: nat, blocks: seq<BlockRef>, i: nat, e: CanonicalError)
    requires i < |blocks|
  {
    var r := Apply(s, depth, blocks[..i]);
    r.Ok? && PlaceFails(r.value.blocks, blocks[i], e)
  }

  lemma {:induction false} OrderPrefix(blocks: seq<BlockRef>)
    requires blocks != [] && OrderError(blocks).None?
    ensures OrderError(blocks[..|blocks| - 1]).None?
  {
    if |blocks| > 1 {
      OrderPrefix(blocks[1..]);
      assert blocks[1..][..|blocks| - 2] == blocks[..|blocks| - 1][1..];
    }
  }

  /** Input in order is refused exactly when some block is, after those before it
      were taken, and with that block's error. */
  lemma {:induction false} ApplyErrors(s: seq<BlockRef>, depth: nat, blocks: seq<BlockRef>, e: CanonicalError)
    requires depth >= 1 && Retained(s, depth) && OrderError(blocks).None?
    ensures Apply(s, depth, blocks) == Err(e) <==> exists i :: 0 <= i < |blocks| && FailsAt(s, depth, blocks, i, e)
  {
    if blocks != [] {
      var n := |blocks| - 1;
      var front, last := blocks[..n], blocks[n];
      OrderPrefix(blocks);
      ApplyErrors(s, depth, front, e);
      assert blocks == front + [last];
      PlaceAllSnoc(s, depth, front, last, None);
      forall i | 0 <= i < n ensures FailsAt(s, depth, blocks, i, e) <==> FailsAt(s, depth, front, i, e) {
        assert blocks[..i] == front[..i] && blocks[i] == front[i];
      }
      var r := Apply(s, depth, front);
      if r.Ok? {
        ApplyMeaning(s, depth, front);
        LinkedContiguous(r.value.blocks);
        PlaceErrors(r.value.blocks, depth, last, e);
        NoEarlier(s, depth, front);
        hide PlaceFails, PlaceAll, Place, OrderError;
        assert FailsAt(s, depth, blocks, n, e) <==> Apply(s, depth, blocks) == Err(e);
      } else {
        hide PlaceFails, PlaceAll, Place, OrderError;
        assert !FailsAt(s, depth, blocks, n, e);
      }
    }
  }

  /** Accepted input has no refused block. */
  lemma NoEarlier(s: seq<BlockRef>, depth: nat, blocks: seq<BlockRef>)
    requires depth >= 1 && Retained(s, depth) && OrderError(blocks).None? && Apply(s, depth, blocks).Ok?
    ensures forall i, e :: 0 <= i < |blocks| ==> !FailsAt(s, depth, blocks, i, e)
  {
    forall i, e | 0 <= i < |blocks| ensures !FailsAt(s, depth, blocks, i, e) {
      if FailsAt(s, depth, blocks, i, e) { ApplyErrors(s, depth, blocks, e); }
    }
  }

  /** The numbers of the input break at the given pair. */
  ghost predicate BreaksAt(blocks: seq<BlockRef>, i: nat) {
    && i + 1 < |blocks| && blocks[i + 1].number != blocks[i].number + 1
    && forall k :: 0 <= k < i ==> Consecutive(blocks, k)
  }

  predicate Consecutive(blocks: seq<BlockRef>, k: nat)
  {
    k + 1 < |blocks| && blocks[k + 1].number == blocks[k].number + 1
  }

  ghost predicate OrderFailsAt(blocks: seq<BlockRef>, i: nat, e: CanonicalError) {
    BreaksAt(blocks, i) &&
    e == if blocks[i].number == U64_MAX then BlockNumberOverflow else NonContiguousInput(blocks[i].number + 1, blocks[i + 1].number)
  }

  lemma BreaksShift(blocks: seq<BlockRef>, i: nat, e: CanonicalError)
    requires |blocks| >= 2 && blocks[1].number == blocks[0].number + 1
    ensures OrderFailsAt(blocks, i + 1, e) <==> OrderFailsAt(blocks[1..], i, e)
  {
    var rest := blocks[1..];
    assert forall k :: 0 <= k < |rest| ==> rest[k] == blocks[k + 1];
    assert forall k: nat :: Consecutive(rest, k) <==> Consecutive(blocks, k + 1);
    if BreaksAt(rest, i) {
      forall k | 0 <= k < i + 1 ensures Consecutive(blocks, k) { if k > 0 { assert Consecutive(rest, k - 1); } }
    }
  }

  lemma BreaksFirst(blocks: seq<BlockRef>, i: nat, e: CanonicalError)
    requires |blocks| >= 2 && blocks[1].number != blocks[0].number + 1
    ensures OrderFailsAt(blocks, i, e) <==>
            i == 0 && (e == if blocks[0].number == U64_MAX then BlockNumberOverflow else NonContiguousInput(blocks[0].number + 1, blocks[1].number))
  {
    assert !Consecutive(blocks, 0);
  }

  /** Input out of order is refused at the first pair that does not follow on. */
  lemma {:induction false} OrderErrors(blocks: seq<BlockRef>, e: CanonicalError)
    ensures OrderError(blocks) == Some(e) <==> exists i: nat :: OrderFailsAt(blocks, i, e)
  {
    if |blocks| >= 2 {
      var rest := blocks[1..];
      OrderErrors(rest, e);
      if blocks[1].number == blocks[0].number + 1 {
        forall i: nat ensures OrderFailsAt(blocks, i + 1, e) <==> OrderFailsAt(rest, i, e) { BreaksShift(blocks, i, e); }
        assert !OrderFailsAt(blocks, 0, e) && OrderError(blocks) == OrderError(rest) by { var next: u64 := blocks[1].number; }
        hide OrderFailsAt, OrderError;
        if i: nat :| OrderFailsAt(blocks, i, e) { assert OrderFailsAt(rest, i - 1, e); }
        if i: nat :| OrderFailsAt(rest, i, e) { assert OrderFailsAt(blocks, i + 1, e); }
      } else {
        forall i: nat ensures OrderFailsAt(blocks, i, e) <==>
          i == 0 && (e == if blocks[0].number == U64_MAX then BlockNumberOverflow else NonContiguousInput(blocks[0].number + 1, blocks[1].number))
        { BreaksFirst(blocks, i, e); }
        hide OrderFailsAt;
        assert OrderError(blocks) == Some(e) ==> OrderFailsAt(blocks, 0, e);
      }
    }
  }
}
