/** Canonical histories of the coordinator and its two sources under commits
    (crates/remote/src/hybrid.rs, `apply_canonical_mutations_to`,
    `seed_reorg_ancestors`, `rewind_other_source`, `apply_commit_to_checkpoint`). */
module HybridHistory {
  import opened Protocol
  import opened Ordering
  import opened HybridWitness

  datatype Mutation = Rewind(ancestor: Block) | Reset | Advance(block: Block)

  /** A bounded history and the coverage head it ends at. */
  datatype Track = Track(history: seq<Block>, head: Option<Block>)

  const EMPTY := Track([], None)

  predicate NumberLess(a: Block, b: Block) { a.number < b.number }

  predicate NumberLeq(a: Block, b: Block) { a.number <= b.number }

  /** The retained block at a height. */
  function At(history: seq<Block>, number: int): Option<Block> {
    if history == [] then None
    else if history[0].number == number then Some(history[0])
    else At(history[1..], number)
  }

  /** Replaces the first retained block at a height. */
  function Put(history: seq<Block>, number: int, b: Block): seq<Block> {
    if history == [] then []
    else if history[0].number == number then [b] + history[1..]
    else [history[0]] + Put(history[1..], number, b)
  }

  function UpTo(history: seq<Block>, number: int): seq<Block> {
    if history == [] then []
    else
      var front, last := UpTo(history[..|history| - 1], number), history[|history| - 1];
      if last.number <= number then front + [last] else front
  }

  function Truncated(history: seq<Block>, capacity: nat): seq<Block> {
    if |history| > capacity then history[|history| - capacity..] else history
  }

  function Sorted(history: seq<Block>): seq<Block> {
    StableSort(NumberLeq, history)
  }

  // ----- Mutations -----

  function RewindTo(t: Track, a: Block): Option<Track> {
    var known := At(t.history, a.number);
    if t.head.Some? && known.None? && (t.history == [] || t.history[0].number > a.number) then None
    else if known.Some? && CompatibleBlock(known.value, a).None? then None
    else if t.head.Some? && a.number > t.head.value.number then None
    else
      var kept := UpTo(t.history, a.number);
      var tail := if kept != [] && kept[|kept| - 1].number == a.number then CompatibleBlock(kept[|kept| - 1], a) else Some(a);
      if tail.None? then None
      else
        var history := if kept != [] && kept[|kept| - 1].number == a.number then kept[..|kept| - 1] + [tail.value] else kept + [a];
        var head := if t.head.Some? && t.head.value.number == a.number then CompatibleBlock(t.head.value, a) else Some(a);
        if head.None? then None else Some(Track(history, head))
  }

  /** Enriches the retained block at a height. */
  function Enriched(history: seq<Block>, b: Block): Option<seq<Block>> {
    var known := At(history, b.number);
    if known.None? then None
    else
      var merged := CompatibleBlock(known.value, b);
      if merged.None? then None else Some(Put(history, b.number, merged.value))
  }

  function AdvanceTo(t: Track, b: Block): Option<Track> {
    if t.head.Some? && b.number < t.head.value.number then
      var history := Enriched(t.history, b);
      if history.None? then None else Some(Track(history.value, t.head))
    else if t.head.Some? && b.number == t.head.value.number then
      var merged := CompatibleBlock(t.head.value, b);
      if merged.None? then None
      else if At(t.history, b.number).None? then Some(Track(t.history, merged))
      else
        var history := Enriched(t.history, merged.value);
        if history.None? then None else Some(Track(history.value, merged))
    else if t.head.Some? && b.number == t.head.value.number + 1 && b.parentHash.Some? && b.parentHash.value != t.head.value.hash then None
    else if At(t.history, b.number).Some? then
      var history := Enriched(t.history, b);
      if history.None? then None else Some(Track(history.value, Some(b)))
    else Some(Track(Sorted(t.history + [b]), Some(b)))
  }

  function ApplyOne(t: Track, m: Mutation, capacity: nat): Option<Track> {
    var r :=
      match m
      case Reset => Some(EMPTY)
      case Rewind(a) => RewindTo(t, a)
      case Advance(b) => AdvanceTo(t, b);
    var enriches := m.Advance? && t.head.Some? && m.block.number <= t.head.value.number;
    if r.None? || enriches then r else Some(r.value.(history := Truncated(r.value.history, capacity)))
  }

  function ApplyAll(t: Track, ms: seq<Mutation>, capacity: nat): Option<Track> {
    if ms == [] then Some(t)
    else
      var r := ApplyAll(t, ms[..|ms| - 1], capacity);
      if r.None? then None else ApplyOne(r.value, ms[|ms| - 1], capacity)
  }

  // ----- Invariant -----

  ghost predicate Ascending(history: seq<Block>) {
    Pairwise(NumberLess, history)
  }

  predicate SameBlock(a: Block, b: Block) {
    a.number == b.number && a.hash == b.hash
  }

  /** Strictly ascending, bounded, and ending at the coverage head. */
  ghost predicate TrackOk(t: Track, capacity: nat) {
    && Ascending(t.history) && |t.history| <= capacity
    && (t.history == [] <==> t.head.None?)
    && (t.history != [] ==> SameBlock(t.history[|t.history| - 1], t.head.value))
  }

  lemma {:induction false} AtMember(history: seq<Block>, n: int)
    ensures At(history, n).Some? ==> At(history, n).value in history && At(history, n).value.number == n
    ensures At(history, n).None? ==> forall b :: b in history ==> b.number != n
  {
    if history != [] {
      AtMember(history[1..], n);
      assert history == [history[0]] + history[1..];
    }
  }

  lemma {:induction false} PutShape(history: seq<Block>, n: int, b: Block)
    requires b.number == n
    ensures |Put(history, n, b)| == |history|
    ensures forall i :: 0 <= i < |history| ==> Put(history, n, b)[i].number == history[i].number
    ensures forall i :: 0 <= i < |history| && history[i].number != n ==> Put(history, n, b)[i] == history[i]
    ensures forall i :: 0 <= i < |history| && history[i].number == n ==> Put(history, n, b)[i] == b || Put(history, n, b)[i] == history[i]
  {
    if history != [] && history[0].number != n {
      PutShape(history[1..], n, b);
    }
  }

  lemma CompatibleSame(a: Block, b: Block)
    ensures CompatibleBlock(a, b).Some? ==> SameBlock(a, b) && SameBlock(CompatibleBlock(a, b).value, a)
  {
  }

  lemma EnrichedOk(history: seq<Block>, b: Block)
    requires Ascending(history) && Enriched(history, b).Some?
    ensures var r := Enriched(history, b).value;
            && Ascending(r) && |r| == |history|
            && (history != [] ==> SameBlock(r[|r| - 1], history[|history| - 1]))
  {
    var known := At(history, b.number).value;
    AtMember(history, b.number);
    CompatibleSame(known, b);
    PutShape(history, b.number, CompatibleBlock(known, b).value);
    hide Put, At, CompatibleBlock;
    var r := Enriched(history, b).value;
    forall i, j | 0 <= i < j < |r| ensures NumberLess(r[i], r[j]) { assert NumberLess(history[i], history[j]); }
    if history != [] {
      var last := history[|history| - 1];
      if last.number == b.number {
        LastIsGreatest(history, known);
      }
    }
  }

  lemma TruncatedOk(history: seq<Block>, capacity: nat)
    requires Ascending(history) && capacity >= 1
    ensures var r := Truncated(history, capacity);
            && Ascending(r) && |r| <= capacity && (r == [] <==> history == [])
            && (history != [] ==> r[|r| - 1] == history[|history| - 1])
  {
    var r := Truncated(history, capacity);
    var k := |history| - |r|;
    forall i, j | 0 <= i < j < |r| ensures NumberLess(r[i], r[j]) { assert NumberLess(history[k + i], history[k + j]); }
  }

  lemma {:induction false} UpToOk(history: seq<Block>, n: int)
    requires Ascending(history)
    ensures Ascending(UpTo(history, n))
    ensures forall b :: b in UpTo(history, n) <==> b in history && b.number <= n
  {
    if history != [] {
      var front, last := history[..|history| - 1], history[|history| - 1];
      assert history == front + [last];
      AppendPairwise(NumberLess, front, last);
      UpToOk(front, n);
      hide Pairwise;
      AppendPairwise(NumberLess, UpTo(front, n), last);
    }
  }

  lemma AppendAscending(history: seq<Block>, b: Block)
    requires Ascending(history) && forall x :: x in history ==> x.number < b.number
    ensures Ascending(history + [b]) && Sorted(history + [b]) == history + [b]
  {
    AppendPairwise(NumberLess, history, b);
    AppendPairwise(NumberLeq, history, b);
    assert Pairwise(NumberLeq, history);
    SortOfOrdered(NumberLeq, history + [b]);
  }

  lemma BelowHead(t: Track, capacity: nat, b: Block)
    requires TrackOk(t, capacity) && b in t.history
    ensures b.number <= t.head.value.number
  {
    var i :| 0 <= i < |t.history| && t.history[i] == b;
    if i < |t.history| - 1 { assert NumberLess(t.history[i], t.history[|t.history| - 1]); }
  }

  lemma ReplaceLast(kept: seq<Block>, b: Block)
    requires Ascending(kept) && kept != [] && kept[|kept| - 1].number == b.number
    ensures Ascending(kept[..|kept| - 1] + [b])
  {
    var r := kept[..|kept| - 1] + [b];
    forall i, j | 0 <= i < j < |r| ensures NumberLess(r[i], r[j]) { assert NumberLess(kept[i], kept[j]); }
  }

  lemma RewindOk(t: Track, a: Block, capacity: nat)
    requires TrackOk(t, capacity) && RewindTo(t, a).Some?
    ensures var r := RewindTo(t, a).value;
            && Ascending(r.history) && r.history != [] && r.head.Some?
            && SameBlock(r.history[|r.history| - 1], r.head.value) && r.head.value.number == a.number
  {
    var kept := UpTo(t.history, a.number);
    UpToOk(t.history, a.number);
    hide UpTo, At, Pairwise;
    if kept != [] && kept[|kept| - 1].number == a.number {
      var last := kept[|kept| - 1];
      CompatibleSame(last, a);
      ReplaceLast(kept, CompatibleBlock(last, a).value);
    } else {
      forall x | x in kept ensures x.number < a.number {
        LastIsGreatest(kept, x);
        assert kept[|kept| - 1] in kept;
      }
      AppendPairwise(NumberLess, kept, a);
    }
    if t.head.Some? { CompatibleSame(t.head.value, a); }
  }

  lemma LastIsGreatest(s: seq<Block>, x: Block)
    requires Ascending(s) && x in s
    ensures x == s[|s| - 1] || x.number < s[|s| - 1].number
  {
    var i :| 0 <= i < |s| && s[i] == x;
    if i < |s| - 1 { assert NumberLess(s[i], s[|s| - 1]); }
  }

  lemma AdvanceOk(t: Track, b: Block, capacity: nat)
    requires TrackOk(t, capacity) && AdvanceTo(t, b).Some?
    ensures t.head.Some? && b.number <= t.head.value.number ==> |AdvanceTo(t, b).value.history| == |t.history|
    ensures var r := AdvanceTo(t, b).value;
            && Ascending(r.history) && r.history != [] && r.head.Some?
            && SameBlock(r.history[|r.history| - 1], r.head.value)
            && r.head.value.number == if t.head.Some? && t.head.value.number > b.number then t.head.value.number else b.number
  {
    AtMember(t.history, b.number);
    hide At, Put, Pairwise, StableSort;
    if t.head.Some? && b.number <= t.head.value.number {
      CompatibleSame(t.head.value, b);
      var seen := if b.number == t.head.value.number then CompatibleBlock(t.head.value, b).value else b;
      if At(t.history, b.number).Some? { EnrichedOk(t.history, seen); }
    } else {
      forall x | x in t.history ensures x.number < b.number { BelowHead(t, capacity, x); }
      AppendAscending(t.history, b);
    }
  }

  lemma TruncateTrack(t: Track, capacity: nat)
    requires capacity >= 1 && Ascending(t.history) && t.history != [] && t.head.Some?
    requires SameBlock(t.history[|t.history| - 1], t.head.value)
    ensures TrackOk(t.(history := Truncated(t.history, capacity)), capacity)
  {
    TruncatedOk(t.history, capacity);
    hide Truncated, Pairwise;
  }

  lemma ApplyRewindOk(t: Track, a: Block, capacity: nat)
    requires capacity >= 1 && TrackOk(t, capacity) && ApplyOne(t, Rewind(a), capacity).Some?
    ensures var r := ApplyOne(t, Rewind(a), capacity).value;
            TrackOk(r, capacity) && r.head.Some? && r.head.value.number == a.number
  {
    hide RewindTo, Truncated, TrackOk, Ascending;
    RewindOk(t, a, capacity);
    TruncateTrack(RewindTo(t, a).value, capacity);
  }

  lemma ApplyAdvanceOk(t: Track, b: Block, capacity: nat)
    requires capacity >= 1 && TrackOk(t, capacity) && ApplyOne(t, Advance(b), capacity).Some?
    ensures var r := ApplyOne(t, Advance(b), capacity).value;
            && TrackOk(r, capacity) && r.head.Some?
            && r.head.value.number == if t.head.Some? && t.head.value.number > b.number then t.head.value.number else b.number
  {
    hide AdvanceTo, Truncated, Ascending;
    AdvanceOk(t, b, capacity);
    TruncateTrack(AdvanceTo(t, b).value, capacity);
  }

  /** Every successful mutation keeps the invariant; only a rewind or a reset
      lowers the head. */
  lemma ApplyOneOk(t: Track, m: Mutation, capacity: nat)
    requires capacity >= 1 && TrackOk(t, capacity) && ApplyOne(t, m, capacity).Some?
    ensures TrackOk(ApplyOne(t, m, capacity).value, capacity)
    ensures var head := ApplyOne(t, m, capacity).value.head;
            match m
            case Reset => head.None?
            case Rewind(a) => head.Some? && head.value.number == a.number
            case Advance(b) =>
              head.Some? && head.value.number == (if t.head.Some? && t.head.value.number > b.number then t.head.value.number else b.number)
  {
    match m
    case Reset => assert Truncated([], capacity) == [];
    case Rewind(a) => ApplyRewindOk(t, a, capacity);
    case Advance(b) => ApplyAdvanceOk(t, b, capacity);
  }

  // ----- Which blocks a history holds -----

  lemma AtIndex(history: seq<Block>, capacity: nat, n: int) returns (k: nat)
    requires Ascending(history) && At(history, n).Some?
    ensures k < |history| && history[k].number == n && At(history, n) == Some(history[k])
  {
    AtMember(history, n);
    k :| 0 <= k < |history| && history[k] == At(history, n).value;
  }

  lemma {:induction false} PutIs(history: seq<Block>, n: int, b: Block, k: nat)
    requires Ascending(history) && k < |history| && history[k].number == n
    ensures Put(history, n, b) == history[k := b]
  {
    if k > 0 {
      assert NumberLess(history[0], history[k]);
      var rest := history[1..];
      forall i, j | 0 <= i < j < |rest| ensures NumberLess(rest[i], rest[j]) { assert NumberLess(history[i + 1], history[j + 1]); }
      PutIs(rest, n, b, k - 1);
      assert [history[0]] + rest[k - 1 := b] == history[k := b];
    } else {
      assert [b] + history[1..] == history[0 := b];
    }
  }

  lemma UniqueAt(history: seq<Block>, k: nat)
    requires Ascending(history) && k < |history|
    ensures At(history, history[k].number) == Some(history[k])
  {
    AtMember(history, history[k].number);
    hide At;
    var x := At(history, history[k].number).value;
    var i :| 0 <= i < |history| && history[i] == x;
    assert (i < k ==> NumberLess(history[i], history[k])) && (k < i ==> NumberLess(history[k], history[i]));
  }

  /** An advance above the head, or into an empty history, appends: the history is
      the last `capacity` of the old one followed by the block. It is refused
      exactly when the block directly follows the head under another parent. */
  lemma AdvanceAbove(t: Track, b: Block, capacity: nat)
    requires capacity >= 1 && TrackOk(t, capacity) && (t.head.Some? ==> b.number > t.head.value.number)
    ensures var r := ApplyOne(t, Advance(b), capacity);
            && (r.None? <==> t.head.Some? && b.number == t.head.value.number + 1 && b.parentHash.Some? && b.parentHash.value != t.head.value.hash)
            && (r.Some? ==>
                  var all := t.history + [b];
                  r.value == Track(if |all| > capacity then all[|all| - capacity..] else all, Some(b)))
  {
    AtMember(t.history, b.number);
    forall x | x in t.history ensures x.number < b.number { BelowHead(t, capacity, x); }
    AppendAscending(t.history, b);
    hide At, Put, Pairwise, StableSort;
  }

  /** An advance at a height the history holds, at or below the head, merges the
      block into that one and touches nothing else; it is refused exactly when the
      two contradict each other. */
  lemma AdvanceInside(t: Track, b: Block, capacity: nat, k: nat)
    requires capacity >= 1 && TrackOk(t, capacity) && k < |t.history| && t.history[k].number == b.number
    ensures var r := ApplyOne(t, Advance(b), capacity);
            var last := k == |t.history| - 1;
            var head := if last then CompatibleBlock(t.head.value, b) else t.head;
            var merged := if last && head.Some? then CompatibleBlock(t.history[k], head.value) else CompatibleBlock(t.history[k], b);
            && (r.Some? <==> head.Some? && merged.Some?)
            && (r.Some? ==> r.value == Track(t.history[k := merged.value], head))
  {
    UniqueAt(t.history, k);
    BelowHead(t, capacity, t.history[k]);
    var last := k == |t.history| - 1;
    if !last { assert NumberLess(t.history[k], t.history[|t.history| - 1]); }
    if CompatibleBlock(t.head.value, b).Some? { CompatibleSame(t.head.value, b); }
    hide At, Put, Pairwise, StableSort, CompatibleBlock;
    forall m: Block | m.number == b.number ensures Put(t.history, b.number, m) == t.history[k := m] { PutIs(t.history, b.number, m, k); }
    if CompatibleBlock(t.history[k], b).Some? { CompatibleSame(t.history[k], b); }
    if last && CompatibleBlock(t.head.value, b).Some? { CompatibleSame(t.history[k], CompatibleBlock(t.head.value, b).value); }
  }

  /** Below the head, a height the history does not hold cannot be advanced. */
  lemma AdvanceOutside(t: Track, b: Block, capacity: nat)
    requires capacity >= 1 && TrackOk(t, capacity) && t.head.Some? && b.number <= t.head.value.number
    requires forall x :: x in t.history ==> x.number != b.number
    ensures ApplyOne(t, Advance(b), capacity).None?
  {
    AtMember(t.history, b.number);
    assert t.history[|t.history| - 1] in t.history;
    hide At, Put, Pairwise, StableSort, CompatibleBlock;
  }

  lemma {:induction false} UpToAll(history: seq<Block>, n: int)
    requires forall i :: 0 <= i < |history| ==> history[i].number <= n
    ensures UpTo(history, n) == history
  {
    if history != [] { UpToAll(history[..|history| - 1], n); }
  }

  lemma {:induction false} UpToIs(history: seq<Block>, n: int, k: nat)
    requires k <= |history|
    requires (forall i :: 0 <= i < k ==> history[i].number <= n) && (forall i :: k <= i < |history| ==> history[i].number > n)
    ensures UpTo(history, n) == history[..k]
  {
    if k == |history| {
      UpToAll(history, n);
      assert history[..k] == history;
    } else {
      var front := history[..|history| - 1];
      UpToIs(front, n, k);
      assert front[..k] == history[..k];
    }
  }

  /** `k` blocks of the history are below a height. */
  ghost predicate Splits(history: seq<Block>, n: int, k: nat) {
    && k <= |history|
    && (forall i :: 0 <= i < k ==> history[i].number < n) && (forall i :: k <= i < |history| ==> history[i].number >= n)
  }

  lemma {:induction false} SplitAt(history: seq<Block>, n: int) returns (k: nat)
    requires Ascending(history)
    ensures Splits(history, n, k)
  {
    if history == [] {
      k := 0;
    } else {
      var front, last := history[..|history| - 1], history[|history| - 1];
      assert forall i, j :: 0 <= i < j < |front| ==> NumberLess(history[i], history[j]);
      k := SplitAt(front, n);
      assert forall i :: 0 <= i < |front| ==> front[i] == history[i] && NumberLess(history[i], last);
      if last.number < n { k := |history|; }
    }
  }

  /** The block a rewind ends at: the retained one at that height, merged with the
      ancestor, or the ancestor itself. */
  function RewoundTip(history: seq<Block>, k: nat, a: Block): Option<Block> {
    if k < |history| && history[k].number == a.number then CompatibleBlock(history[k], a) else Some(a)
  }

  lemma AboveSplit(h: seq<Block>, n: int, k: nat, i: nat)
    requires Ascending(h) && Splits(h, n, k) && k < i < |h|
    ensures h[i].number > n
  {
    assert NumberLess(h[k], h[i]);
  }

  /** A rewind to a retained height cuts the history down to it. */
  lemma RewindAt(h: seq<Block>, n: int, k: nat)
    requires Ascending(h) && Splits(h, n, k) && k < |h| && h[k].number == n
    ensures UpTo(h, n) == h[..k] + [h[k]] && At(h, n) == Some(h[k])
  {
    UniqueAt(h, k);
    forall i | k + 1 <= i < |h| ensures h[i].number > n { AboveSplit(h, n, k, i); }
    hide At, UpTo, Pairwise;
    UpToIs(h, n, k + 1);
    assert h[..k + 1] == h[..k] + [h[k]];
  }

  /** A rewind to any other height cuts it down to the blocks below. */
  lemma RewindBetween(h: seq<Block>, n: int, k: nat)
    requires Ascending(h) && Splits(h, n, k) && !(k < |h| && h[k].number == n)
    ensures UpTo(h, n) == h[..k] && At(h, n).None?
  {
    forall i | k <= i < |h| ensures h[i].number > n { if i > k { AboveSplit(h, n, k, i); } }
    AtMember(h, n);
    hide At, UpTo, Pairwise;
    UpToIs(h, n, k);
    forall x | x in h ensures x.number != n {
      var i :| 0 <= i < |h| && h[i] == x;
    }
  }

  lemma RewindRuns(t: Track, a: Block, k: nat)
    requires k <= |t.history| && (forall i :: 0 <= i < k ==> t.history[i].number < a.number)
    requires if k < |t.history| && t.history[k].number == a.number
             then UpTo(t.history, a.number) == t.history[..k] + [t.history[k]] && At(t.history, a.number) == Some(t.history[k])
             else UpTo(t.history, a.number) == t.history[..k] && At(t.history, a.number).None?
    ensures var r := RewindTo(t, a);
            var tip := RewoundTip(t.history, k, a);
            var head := if t.head.Some? && t.head.value.number == a.number then CompatibleBlock(t.head.value, a) else Some(a);
            && (r.Some? <==>
                  && tip.Some? && head.Some? && (t.head.Some? ==> a.number <= t.head.value.number)
                  && (t.head.Some? && At(t.history, a.number).None? ==> t.history != [] && t.history[0].number <= a.number))
            && (r.Some? ==> r.value == Track(t.history[..k] + [tip.value], head))
  {
    hide At, UpTo, CompatibleBlock;
    var h := t.history;
    assert (h[..k] + [a])[..k] == h[..k];
    if k < |h| && h[k].number == a.number { assert (h[..k] + [h[k]])[..k] == h[..k]; }
    else if k > 0 { assert h[..k][k - 1] == h[k - 1]; }
  }

  /** A rewind keeps exactly the blocks below the ancestor, followed by it. It is
      refused exactly when the ancestor is above the head, older than everything
      retained, or contradicts what is retained at its height. */
  lemma RewindMeaning(t: Track, a: Block, capacity: nat, k: nat)
    requires capacity >= 1 && TrackOk(t, capacity) && Splits(t.history, a.number, k)
    ensures var r := ApplyOne(t, Rewind(a), capacity);
            var tip := RewoundTip(t.history, k, a);
            var head := if t.head.Some? && t.head.value.number == a.number then CompatibleBlock(t.head.value, a) else Some(a);
            && (r.Some? <==>
                  && tip.Some? && head.Some?
                  && (t.head.Some? ==> t.history[0].number <= a.number <= t.head.value.number))
            && (r.Some? ==> r.value == Track(t.history[..k] + [tip.value], head))
  {
    var h := t.history;
    if k < |h| && h[k].number == a.number { RewindAt(h, a.number, k); } else { RewindBetween(h, a.number, k); }
    RewindRuns(t, a, k);
    hide At, UpTo, Pairwise, CompatibleBlock, RewindTo, RewoundTip;
    if t.head.Some? {
      assert k > 0 ==> h[0].number < a.number;
      assert k == 0 ==> h[0].number >= a.number;
      assert k == |h| ==> h[|h| - 1].number < a.number;
    }
  }

  /** A reset forgets everything. */
  lemma ResetMeaning(t: Track, capacity: nat)
    ensures ApplyOne(t, Reset, capacity) == Some(Track([], None))
  {
  }

  // ----- Where blocks come from and where they go -----

  /** The height and hash of some listed block. */
  predicate From(b: Block, sources: seq<Block>) {
    exists i :: 0 <= i < |sources| && SameBlock(b, sources[i])
  }

  function Named(m: Mutation): seq<Block> {
    match m
    case Reset => []
    case Rewind(a) => [a]
    case Advance(b) => [b]
  }

  /** Everything old in the new history was in the old one, and after a rewind at
      or below the ancestor. */
  ghost predicate Explained(t: Track, m: Mutation, r: Track) {
    forall y :: y in r.history ==>
      || From(y, Named(m))
      || (From(y, t.history) && !m.Reset? && (m.Rewind? ==> y.number < m.ancestor.number))
  }

  /** A block at a height the mutation spares is still there, or the bound dropped
      it: the history is full of later ones. */
  ghost predicate Kept(t: Track, m: Mutation, r: Track, capacity: nat) {
    forall x :: x in t.history && Spares([m], x.number) ==> From(x, r.history) || Crowded(r, x.number, capacity)
  }

  predicate Crowded(t: Track, n: int, capacity: nat) {
    |t.history| == capacity && forall y :: y in t.history ==> y.number > n
  }

  lemma FromMember(b: Block, x: Block, s: seq<Block>)
    requires x in s && SameBlock(b, x)
    ensures From(b, s)
  {
    var i :| 0 <= i < |s| && s[i] == x;
  }

  lemma AppendContents(history: seq<Block>, b: Block, capacity: nat, r: Track)
    requires capacity >= 1 && Ascending(history + [b]) && |history| <= capacity
    requires r.history == (if |history| == capacity then (history + [b])[1..] else history + [b])
    ensures forall y :: y in r.history ==> y == b || y in history
    ensures forall x :: x in history ==> x in r.history || Crowded(r, x.number, capacity)
    ensures b in r.history
  {
    var all := history + [b];
    if |history| == capacity {
      assert forall i :: 0 < i < |all| ==> NumberLess(all[0], all[i]);
      forall x | x in history ensures x in r.history || Crowded(r, x.number, capacity) {
        var i :| 0 <= i < |history| && history[i] == x;
        if i > 0 { assert r.history[i - 1] == x; }
      }
    }
    assert r.history[|r.history| - 1] == b;
  }

  lemma AppendExplains(t: Track, b: Block, capacity: nat, r: Track)
    requires forall y :: y in r.history ==> y == b || y in t.history
    requires forall x :: x in t.history ==> x in r.history || Crowded(r, x.number, capacity)
    requires b in r.history
    ensures Explained(t, Advance(b), r) && Kept(t, Advance(b), r, capacity) && From(b, r.history)
  {
    hide Spares, Crowded, From;
    assert Named(Advance(b)) == [b];
    forall y | y in r.history ensures From(y, Named(Advance(b))) || From(y, t.history) {
      if y == b { FromMember(y, b, Named(Advance(b))); } else { FromMember(y, y, t.history); }
    }
    forall x | x in t.history ensures From(x, r.history) || Crowded(r, x.number, capacity) {
      if x in r.history { FromMember(x, x, r.history); }
    }
    FromMember(b, b, r.history);
  }

  lemma MergeExplains(t: Track, b: Block, capacity: nat, r: Track, k: nat)
    requires k < |t.history| == |r.history| && SameBlock(b, r.history[k])
    requires forall i :: 0 <= i < |t.history| ==> SameBlock(r.history[i], t.history[i])
    ensures Explained(t, Advance(b), r) && Kept(t, Advance(b), r, capacity) && From(b, r.history)
  {
    hide Spares, Crowded;
    forall y | y in r.history ensures From(y, t.history) {
      var i :| 0 <= i < |r.history| && r.history[i] == y;
    }
    forall x | x in t.history ensures From(x, r.history) {
      var i :| 0 <= i < |t.history| && t.history[i] == x;
      assert SameBlock(x, r.history[i]);
    }
  }

  lemma AdvanceContents(t: Track, b: Block, capacity: nat)
    requires capacity >= 1 && TrackOk(t, capacity) && ApplyOne(t, Advance(b), capacity).Some?
    ensures var r := ApplyOne(t, Advance(b), capacity).value;
            Explained(t, Advance(b), r) && Kept(t, Advance(b), r, capacity) && From(b, r.history)
  {
    var r := ApplyOne(t, Advance(b), capacity).value;
    hide ApplyOne, Spares, CompatibleBlock, At, Explained, Kept, From, Pairwise, StableSort;
    if t.head.None? || b.number > t.head.value.number {
      AdvanceAbove(t, b, capacity);
      forall x | x in t.history ensures x.number < b.number { BelowHead(t, capacity, x); }
      AppendAscending(t.history, b);
      AppendContents(t.history, b, capacity, r);
      AppendExplains(t, b, capacity, r);
    } else {
      AtMember(t.history, b.number);
      if At(t.history, b.number).None? { AdvanceOutside(t, b, capacity); }
      var k := AtIndex(t.history, capacity, b.number);
      AdvanceInside(t, b, capacity, k);
      CompatibleSame(t.history[k], b);
      CompatibleSame(t.head.value, b);
      if CompatibleBlock(t.head.value, b).Some? { CompatibleSame(t.history[k], CompatibleBlock(t.head.value, b).value); }
      MergeExplains(t, b, capacity, r, k);
    }
  }

  lemma RewindContents(t: Track, a: Block, capacity: nat)
    requires capacity >= 1 && TrackOk(t, capacity) && ApplyOne(t, Rewind(a), capacity).Some?
    ensures var r := ApplyOne(t, Rewind(a), capacity).value;
            Explained(t, Rewind(a), r) && Kept(t, Rewind(a), r, capacity) && From(a, r.history)
  {
    var r := ApplyOne(t, Rewind(a), capacity).value;
    var k := SplitAt(t.history, a.number);
    RewindMeaning(t, a, capacity, k);
    if k < |t.history| { CompatibleSame(t.history[k], a); }
    hide ApplyOne, CompatibleBlock;
    assert Named(Rewind(a))[0] == a;
    assert SameBlock(r.history[k], a);
    forall y | y in r.history ensures From(y, Named(Rewind(a))) || (From(y, t.history) && y.number < a.number) {
      var i :| 0 <= i < |r.history| && r.history[i] == y;
      if i < k { assert SameBlock(y, t.history[i]); }
    }
    forall x | x in t.history && Spares([Rewind(a)], x.number) ensures From(x, r.history) {
      assert [Rewind(a)][0] == Rewind(a);
      var i :| 0 <= i < |t.history| && t.history[i] == x;
      assert i > k ==> NumberLess(t.history[k], t.history[i]);
      assert SameBlock(x, r.history[i]);
    }
  }

  /** Every successful mutation: what it names is retained, everything else comes
      from the old history, and what it spares stays up to the bound. */
  lemma OneContents(t: Track, m: Mutation, capacity: nat)
    requires capacity >= 1 && TrackOk(t, capacity) && ApplyOne(t, m, capacity).Some?
    ensures var r := ApplyOne(t, m, capacity).value;
            && Explained(t, m, r) && Kept(t, m, r, capacity)
            && forall i :: 0 <= i < |Named(m)| ==> From(Named(m)[i], r.history)
  {
    match m
    case Reset => ResetMeaning(t, capacity); assert [Reset][0] == Reset;
    case Rewind(a) => RewindContents(t, a, capacity);
    case Advance(b) => AdvanceContents(t, b, capacity);
  }

  /** A height no mutation rewinds or resets below. */
  ghost predicate Spares(ms: seq<Mutation>, number: int) {
    forall i :: 0 <= i < |ms| ==> !ms[i].Reset? && (ms[i].Rewind? ==> number <= ms[i].ancestor.number)
  }

  lemma {:induction false} ApplyAllOk(t: Track, ms: seq<Mutation>, capacity: nat)
    requires capacity >= 1 && TrackOk(t, capacity) && ApplyAll(t, ms, capacity).Some?
    ensures TrackOk(ApplyAll(t, ms, capacity).value, capacity)
  {
    if ms != [] {
      ApplyAllOk(t, ms[..|ms| - 1], capacity);
      ApplyOneOk(ApplyAll(t, ms[..|ms| - 1], capacity).value, ms[|ms| - 1], capacity);
    }
  }

  /** Where a retained block may come from: the old history, or a mutation that
      names it, with nothing after that rewinds or resets below it. */
  ghost predicate Origin(t: Track, ms: seq<Mutation>, y: Block) {
    || (From(y, t.history) && Spares(ms, y.number))
    || exists j :: 0 <= j < |ms| && NamedLast(ms, j, y)
  }

  ghost predicate NamedLast(ms: seq<Mutation>, j: nat, y: Block)
    requires j < |ms|
  {
    From(y, Named(ms[j])) && Spares(ms[j + 1..], y.number)
  }

  /** At some point the bound dropped everything up to a height. */
  ghost predicate CrowdedOut(t: Track, ms: seq<Mutation>, capacity: nat, n: int) {
    exists k :: 0 <= k <= |ms| && CrowdedAt(t, ms, capacity, n, k)
  }

  ghost predicate CrowdedAt(t: Track, ms: seq<Mutation>, capacity: nat, n: int, k: nat)
    requires k <= |ms|
  {
    ApplyAll(t, ms[..k], capacity).Some? && Crowded(ApplyAll(t, ms[..k], capacity).value, n, capacity)
  }

  lemma SameFrom(x: Block, y: Block, s: seq<Block>)
    requires SameBlock(x, y)
    ensures From(x, s) <==> From(y, s)
  {
  }

  lemma OriginGrows(t: Track, front: seq<Mutation>, m: Mutation, y: Block)
    ensures Origin(t, front + [m], y) <==> (Origin(t, front, y) && Spares([m], y.number)) || From(y, Named(m))
  {
    var all := front + [m];
    SparesSplit(front, m, y.number);
    forall j | 0 <= j < |front| ensures NamedLast(all, j, y) <==> NamedLast(front, j, y) && Spares([m], y.number) {
      assert all[j + 1..] == front[j + 1..] + [m] && all[j] == front[j];
      SparesSplit(front[j + 1..], m, y.number);
    }
    assert all[|front|] == m && all[|front| + 1..] == [];
    assert NamedLast(all, |front|, y) <==> From(y, Named(m));
    hide Spares, From, NamedLast;
    if Origin(t, front, y) && Spares([m], y.number) && !(From(y, t.history) && Spares(front, y.number)) {
      var j :| 0 <= j < |front| && NamedLast(front, j, y);
      assert NamedLast(all, j, y);
    }
    if Origin(t, all, y) && !(From(y, t.history) && Spares(all, y.number)) {
      var j :| 0 <= j < |all| && NamedLast(all, j, y);
      if j < |front| { assert NamedLast(front, j, y); }
    }
  }

  lemma CrowdedGrows(t: Track, front: seq<Mutation>, m: Mutation, capacity: nat, n: int)
    ensures CrowdedOut(t, front, capacity, n) ==> CrowdedOut(t, front + [m], capacity, n)
    ensures var all := front + [m];
            ApplyAll(t, all, capacity).Some? && Crowded(ApplyAll(t, all, capacity).value, n, capacity) ==> CrowdedOut(t, all, capacity, n)
  {
    var all := front + [m];
    hide ApplyAll, Crowded;
    assert all[..|all|] == all;
    if CrowdedOut(t, front, capacity, n) {
      var k :| 0 <= k <= |front| && CrowdedAt(t, front, capacity, n, k);
      assert all[..k] == front[..k];
      assert CrowdedAt(t, all, capacity, n, k);
    }
    if ApplyAll(t, all, capacity).Some? && Crowded(ApplyAll(t, all, capacity).value, n, capacity) {
      assert CrowdedAt(t, all, capacity, n, |all|);
    }
  }

  lemma StepFrom(mid: Track, m: Mutation, r: Track, y: Block)
    requires Explained(mid, m, r) && From(y, r.history)
    ensures From(y, Named(m)) || (From(y, mid.history) && Spares([m], y.number))
  {
    assert [m][0] == m;
    var i :| 0 <= i < |r.history| && SameBlock(y, r.history[i]);
    var z := r.history[i];
    assert z in r.history;
    SameFrom(y, z, mid.history);
    SameFrom(y, z, Named(m));
    hide From;
  }

  lemma StepKeeps(mid: Track, m: Mutation, r: Track, capacity: nat, y: Block)
    requires Kept(mid, m, r, capacity) && From(y, mid.history) && Spares([m], y.number)
    ensures From(y, r.history) || Crowded(r, y.number, capacity)
  {
    var i :| 0 <= i < |mid.history| && SameBlock(y, mid.history[i]);
    var z := mid.history[i];
    assert z in mid.history;
    SameFrom(y, z, r.history);
    hide From, Spares, Crowded;
  }

  lemma StepNames(m: Mutation, r: Track, y: Block)
    requires From(y, Named(m)) && forall i :: 0 <= i < |Named(m)| ==> From(Named(m)[i], r.history)
    ensures From(y, r.history)
  {
    var i :| 0 <= i < |Named(m)| && SameBlock(y, Named(m)[i]);
    SameFrom(y, Named(m)[i], r.history);
  }

  /** Over any sequence of mutations, up to the bound: a block is retained exactly
      when the old history holds it or a mutation names it, and nothing after that
      rewinds or resets below it. */
  lemma {:induction false} AllContents(t: Track, ms: seq<Mutation>, capacity: nat, y: Block)
    requires capacity >= 1 && TrackOk(t, capacity) && ApplyAll(t, ms, capacity).Some?
    ensures From(y, ApplyAll(t, ms, capacity).value.history) ==> Origin(t, ms, y)
    ensures Origin(t, ms, y) ==> From(y, ApplyAll(t, ms, capacity).value.history) || CrowdedOut(t, ms, capacity, y.number)
  {
    if ms != [] {
      var front, m := ms[..|ms| - 1], ms[|ms| - 1];
      assert ms == front + [m];
      AllContents(t, front, capacity, y);
      ApplyAllOk(t, front, capacity);
      var mid, r := ApplyAll(t, front, capacity).value, ApplyAll(t, ms, capacity).value;
      hide TrackOk, Origin, CrowdedOut, Crowded, From, Spares, ApplyOne, Named;
      OneContents(mid, m, capacity);
      OriginGrows(t, front, m, y);
      CrowdedGrows(t, front, m, capacity, y.number);
      hide ApplyAll, Explained, Kept;
      if From(y, r.history) { StepFrom(mid, m, r, y); }
      if From(y, Named(m)) { StepNames(m, r, y); }
      if From(y, mid.history) && Spares([m], y.number) { StepKeeps(mid, m, r, capacity, y); }
    }
  }

  predicate Reaches(head: Option<Block>, number: int) {
    head.Some? && number <= head.value.number
  }

  /** Mutations that spare a height leave the head at or above it. */
  lemma {:induction false} SparedHead(t: Track, ms: seq<Mutation>, capacity: nat, number: int)
    requires capacity >= 1 && TrackOk(t, capacity) && ApplyAll(t, ms, capacity).Some?
    requires Spares(ms, number) && Reaches(t.head, number)
    ensures Reaches(ApplyAll(t, ms, capacity).value.head, number)
  {
    if ms != [] {
      var front, last := ms[..|ms| - 1], ms[|ms| - 1];
      assert forall i :: 0 <= i < |front| ==> front[i] == ms[i];
      SparedHead(t, front, capacity, number);
      ApplyAllOk(t, front, capacity);
      hide ApplyOne, TrackOk;
      ApplyOneOk(ApplyAll(t, front, capacity).value, last, capacity);
    }
  }

  // ----- Source positions -----

  datatype Position = Position(track: Track, token: Option<Bytes>, checkpoint: Option<Bytes>, digest: Option<Bytes>)

  const NOWHERE := Position(EMPTY, None, None, None)

  /** Makes a rewind target part of a history that is ahead of it. */
  function SeedOne(t: Track, a: Block, capacity: nat): Option<Track> {
    var missing := t.head.Some? && t.head.value.number > a.number && At(t.history, a.number).None?;
    var history := if missing then Truncated(Sorted(t.history + [a]), capacity) else t.history;
    var known := At(history, a.number);
    if known.Some? && CompatibleBlock(known.value, a).None? then None else Some(t.(history := history))
  }

  function SeedAll(t: Track, ancestors: seq<Block>, capacity: nat): Option<Track> {
    if ancestors == [] then Some(t)
    else
      var r := SeedAll(t, ancestors[..|ancestors| - 1], capacity);
      if r.None? then None else SeedOne(r.value, ancestors[|ancestors| - 1], capacity)
  }

  /** Rewinds the source that did not report the reorg. */
  function RewindOther(p: Position, a: Block, capacity: nat): Option<Position> {
    if p.track.head.None? || p.track.head.value.number < a.number then Some(p)
    else
      var seeded := SeedOne(p.track, a, capacity);
      if seeded.None? then None
      else
        var rewound := ApplyOne(seeded.value, Rewind(a), capacity);
        if rewound.None? then None
        else if p.track.head.value.number > a.number then Some(Position(rewound.value, None, None, None))
        else Some(p.(track := rewound.value))
  }

  function RewindOthers(p: Position, ancestors: seq<Block>, capacity: nat): Option<Position> {
    if ancestors == [] then Some(p)
    else
      var r := RewindOthers(p, ancestors[..|ancestors| - 1], capacity);
      if r.None? then None else RewindOther(r.value, ancestors[|ancestors| - 1], capacity)
  }

  lemma {:induction false} InsertIs(low: seq<Block>, high: seq<Block>, a: Block)
    requires (low != [] ==> low[|low| - 1].number < a.number) && forall i :: 0 <= i < |high| ==> high[i].number > a.number
    ensures InsertStable(NumberLeq, low + high, a) == low + [a] + high
    decreases |high|
  {
    var all := low + high;
    if high == [] {
      assert all == low;
    } else {
      var front, last := high[..|high| - 1], high[|high| - 1];
      assert all[..|all| - 1] == low + front && all[|all| - 1] == last;
      assert high[|front|].number > a.number;
      InsertIs(low, front, a);
      assert low + [a] + front + [last] == low + [a] + high;
    }
  }

  /** Seeding puts a missing rewind target in its place and touches nothing else;
      it is refused exactly when the target contradicts the block at its height. */
  lemma SeedMeaning(t: Track, a: Block, capacity: nat, k: nat)
    requires capacity >= 1 && TrackOk(t, capacity) && Splits(t.history, a.number, k)
    ensures var r := SeedOne(t, a, capacity);
            var here := k < |t.history| && t.history[k].number == a.number;
            var seeded := t.history[..k] + [a] + t.history[k..];
            && (r.None? <==> here && CompatibleBlock(t.history[k], a).None?)
            && (r.Some? ==>
                  r.value == t.(history := if here || t.head.None? || t.head.value.number <= a.number then t.history
                                           else if |seeded| > capacity then seeded[|seeded| - capacity..] else seeded))
  {
    var h := t.history;
    AtMember(h, a.number);
    var here := k < |h| && h[k].number == a.number;
    if here {
      UniqueAt(h, k);
    } else {
      forall x | x in h ensures x.number != a.number {
        var i :| 0 <= i < |h| && h[i] == x;
        assert i > k ==> NumberLess(h[k], h[i]);
      }
      if t.head.Some? && t.head.value.number > a.number { SeededIs(h, a, capacity, k); }
    }
    hide At, Pairwise, CompatibleBlock, Sorted, Truncated;
  }

  lemma SortLast(h: seq<Block>, a: Block)
    requires Ascending(h)
    ensures Sorted(h + [a]) == InsertStable(NumberLeq, h, a)
  {
    assert Pairwise(NumberLeq, h);
    SortOfOrdered(NumberLeq, h);
    assert (h + [a])[..|h|] == h;
  }

  lemma SplitParts(h: seq<Block>, n: int, k: nat)
    requires Splits(h, n, k) && forall x :: x in h ==> x.number != n
    ensures h == h[..k] + h[k..] && (h[..k] != [] ==> h[..k][k - 1].number < n)
    ensures forall i :: 0 <= i < |h[k..]| ==> h[k..][i].number > n
  {
  }

  lemma SortedInsert(h: seq<Block>, a: Block, k: nat)
    requires Ascending(h) && Splits(h, a.number, k) && forall x :: x in h ==> x.number != a.number
    ensures Sorted(h + [a]) == h[..k] + [a] + h[k..]
  {
    hide Sorted, Ascending, InsertStable;
    SortLast(h, a);
    SplitParts(h, a.number, k);
    InsertIs(h[..k], h[k..], a);
  }

  lemma AtOnly(r: seq<Block>, a: Block)
    requires forall x :: x in r && x.number == a.number ==> x == a
    ensures At(r, a.number).None? || At(r, a.number) == Some(a)
  {
    AtMember(r, a.number);
  }

  lemma SeededIs(h: seq<Block>, a: Block, capacity: nat, k: nat)
    requires capacity >= 1 && Ascending(h) && Splits(h, a.number, k) && forall x :: x in h ==> x.number != a.number
    ensures var all := h[..k] + [a] + h[k..];
            var r := Truncated(Sorted(h + [a]), capacity);
            && r == (if |all| > capacity then all[|all| - capacity..] else all)
            && (At(r, a.number).None? || At(r, a.number) == Some(a))
            && At(h, a.number).None?
  {
    hide At, Sorted, Ascending, Truncated;
    SortedInsert(h, a, k);
    assert h == h[..k] + h[k..];
    NoneAt(h, a.number);
    TailOnly(h[..k], h[k..], a, capacity, h);
  }

  lemma NoneAt(h: seq<Block>, n: int)
    requires forall x :: x in h ==> x.number != n
    ensures At(h, n).None?
  {
    AtMember(h, n);
  }

  lemma TailOnly(low: seq<Block>, high: seq<Block>, a: Block, capacity: nat, h: seq<Block>)
    requires h == low + high && forall x :: x in h ==> x.number != a.number
    ensures var all := low + [a] + high;
            var r := Truncated(all, capacity);
            r == (if |all| > capacity then all[|all| - capacity..] else all) && (At(r, a.number).None? || At(r, a.number) == Some(a))
  {
    var all := low + [a] + high;
    var r := Truncated(all, capacity);
    forall x | x in r && x.number == a.number ensures x == a {
      assert x in all;
      assert x in low || x in high ==> x in h;
    }
    AtOnly(r, a);
  }

  lemma SeedOk(t: Track, a: Block, capacity: nat)
    requires capacity >= 1 && TrackOk(t, capacity) && SeedOne(t, a, capacity).Some?
    ensures TrackOk(SeedOne(t, a, capacity).value, capacity) && SeedOne(t, a, capacity).value.head == t.head
  {
    hide At, Sorted, Pairwise, CompatibleBlock, Truncated;
    if t.head.Some? && t.head.value.number > a.number && At(t.history, a.number).None? {
      InsertOk(t.history, a);
      TruncatedOk(Sorted(t.history + [a]), capacity);
    }
  }

  lemma InsertOk(history: seq<Block>, a: Block)
    requires Ascending(history) && history != [] && history[|history| - 1].number > a.number && At(history, a.number).None?
    ensures var r := Sorted(history + [a]);
            Ascending(r) && r != [] && r[|r| - 1] == history[|history| - 1]
  {
    AtMember(history, a.number);
    assert Pairwise(NumberLeq, history);
    SortOfOrdered(NumberLeq, history);
    assert (history + [a])[..|history|] == history;
    hide At;
    InsertStablePairwise(NumberLeq, NumberLess, history, a);
  }

  lemma {:induction false} SeedAllOk(t: Track, ancestors: seq<Block>, capacity: nat)
    requires capacity >= 1 && TrackOk(t, capacity) && SeedAll(t, ancestors, capacity).Some?
    ensures TrackOk(SeedAll(t, ancestors, capacity).value, capacity) && SeedAll(t, ancestors, capacity).value.head == t.head
  {
    if ancestors != [] {
      SeedAllOk(t, ancestors[..|ancestors| - 1], capacity);
      SeedOk(SeedAll(t, ancestors[..|ancestors| - 1], capacity).value, ancestors[|ancestors| - 1], capacity);
    }
  }

  lemma RewindOtherOk(p: Position, a: Block, capacity: nat)
    requires capacity >= 1 && TrackOk(p.track, capacity) && RewindOther(p, a, capacity).Some?
    ensures TrackOk(RewindOther(p, a, capacity).value.track, capacity)
    ensures forall n :: n <= a.number && Reaches(p.track.head, n) ==> Reaches(RewindOther(p, a, capacity).value.track.head, n)
  {
    hide SeedOne, ApplyOne, TrackOk;
    if p.track.head.Some? && p.track.head.value.number >= a.number {
      SeedOk(p.track, a, capacity);
      ApplyOneOk(SeedOne(p.track, a, capacity).value, Rewind(a), capacity);
    }
  }

  predicate Holds(h: seq<Block>, k: nat, a: Block) {
    k < |h| && h[k].number == a.number
  }

  /** A history seeded with a rewind target below its head. */
  function Seeded(h: seq<Block>, k: nat, a: Block, capacity: nat): seq<Block>
    requires k <= |h|
  {
    if Holds(h, k, a) || (|h| == capacity && k == 0) then h
    else if |h| == capacity then h[1..k] + [a] + h[k..]
    else h[..k] + [a] + h[k..]
  }

  /** What is left below the target: everything, or in a full history without it
      all but the oldest block. */
  function BelowTarget(h: seq<Block>, k: nat, a: Block, capacity: nat): seq<Block>
    requires k <= |h|
  {
    if !Holds(h, k, a) && |h| == capacity && k > 0 then h[1..k] else h[..k]
  }

  lemma SeededIsSo(t: Track, a: Block, capacity: nat, k: nat)
    requires capacity >= 1 && TrackOk(t, capacity) && Splits(t.history, a.number, k)
    requires t.head.Some? && t.head.value.number >= a.number
    ensures var r := SeedOne(t, a, capacity);
            && (r.None? <==> Holds(t.history, k, a) && CompatibleBlock(t.history[k], a).None?)
            && (r.Some? ==> r.value == t.(history := Seeded(t.history, k, a, capacity)))
  {
    SeedMeaning(t, a, capacity, k);
    var h := t.history;
    var all := h[..k] + [a] + h[k..];
    if |h| == capacity {
      if k == 0 { assert all[1..] == h; } else { assert all[1..] == h[1..k] + [a] + h[k..]; }
    }
    if t.head.value.number == a.number { LastHolds(t, a, capacity, k); }
    hide SeedOne, CompatibleBlock, Pairwise;
  }

  lemma LastHolds(t: Track, a: Block, capacity: nat, k: nat)
    requires TrackOk(t, capacity) && Splits(t.history, a.number, k) && t.head.Some? && t.head.value.number == a.number
    ensures Holds(t.history, k, a)
  {
    var h := t.history;
    assert h[|h| - 1].number == a.number;
    assert k < |h| - 1 ==> NumberLess(h[k], h[|h| - 1]);
  }

  lemma SeededSplits(h: seq<Block>, k: nat, a: Block, capacity: nat)
    requires Splits(h, a.number, k) && |h| <= capacity && h != []
    ensures var s, low := Seeded(h, k, a, capacity), BelowTarget(h, k, a, capacity);
            && s != [] && |low| <= |s| && Splits(s, a.number, |low|) && s[..|low|] == low
            && (s[0].number <= a.number <==> k > 0 || Holds(h, k, a) || |h| < capacity)
            && RewoundTip(s, |low|, a) == if Holds(h, k, a) then CompatibleBlock(h[k], a)
                                          else if k == 0 && |h| == capacity then Some(a) else CompatibleBlock(a, a)
  {
    hide CompatibleBlock;
    var s, low := Seeded(h, k, a, capacity), BelowTarget(h, k, a, capacity);
    assert s[..|low|] == low;
    assert Splits(s, a.number, |low|);
  }

  lemma SelfCompatible(a: Block)
    ensures CompatibleBlock(a, a) == Some(a)
  {
  }

  /** The source that did not report the reorg: behind the ancestor it is left
      alone; otherwise it keeps its blocks below the ancestor, followed by it. That
      is refused exactly when the ancestor contradicts what it retains, or is older
      than a full history. Its cursors go exactly when its head drops. */
  lemma RewindOtherMeaning(p: Position, a: Block, capacity: nat, k: nat)
    requires capacity >= 1 && TrackOk(p.track, capacity) && Splits(p.track.history, a.number, k)
    ensures var h, head := p.track.history, p.track.head;
            var r := RewindOther(p, a, capacity);
            if head.None? || head.value.number < a.number then r == Some(p)
            else
              var tip := RewoundTip(h, k, a);
              var top := if head.value.number == a.number then CompatibleBlock(head.value, a) else Some(a);
              && (r.Some? <==> tip.Some? && top.Some? && (k > 0 || Holds(h, k, a) || |h| < capacity))
              && (r.Some? ==>
                    && r.value.track == Track(BelowTarget(h, k, a, capacity) + [tip.value], top)
                    && r.value == (if head.value.number > a.number then Position(r.value.track, None, None, None) else p.(track := r.value.track)))
  {
    var t := p.track;
    if t.head.Some? && t.head.value.number >= a.number {
      SeededIsSo(t, a, capacity, k);
      SelfCompatible(a);
      var s := t.(history := Seeded(t.history, k, a, capacity));
      hide SeedOne, ApplyOne, CompatibleBlock, Seeded, Splits, Pairwise;
      if SeedOne(t, a, capacity).Some? {
        SeedOk(t, a, capacity);
        SeededSplits(t.history, k, a, capacity);
        RewindMeaning(s, a, capacity, |BelowTarget(t.history, k, a, capacity)|);
      }
    }
  }

  lemma {:induction false} RewindOthersOk(p: Position, ancestors: seq<Block>, capacity: nat, number: int)
    requires capacity >= 1 && TrackOk(p.track, capacity) && RewindOthers(p, ancestors, capacity).Some?
    ensures TrackOk(RewindOthers(p, ancestors, capacity).value.track, capacity)
    ensures Reaches(p.track.head, number) && (forall i :: 0 <= i < |ancestors| ==> number <= ancestors[i].number) ==>
              Reaches(RewindOthers(p, ancestors, capacity).value.track.head, number)
  {
    if ancestors != [] {
      var front := ancestors[..|ancestors| - 1];
      assert forall i :: 0 <= i < |front| ==> front[i] == ancestors[i];
      RewindOthersOk(p, front, capacity, number);
      hide RewindOther, TrackOk;
      RewindOtherOk(RewindOthers(p, front, capacity).value, ancestors[|ancestors| - 1], capacity);
    }
  }

  function Cursors(p: Position): (Option<Bytes>, Option<Bytes>, Option<Bytes>) {
    (p.token, p.checkpoint, p.digest)
  }

  predicate Lower(after: Option<Block>, before: Option<Block>) {
    before.Some? && (after.None? || after.value.number < before.value.number)
  }

  lemma OneOther(p: Position, a: Block, capacity: nat)
    requires capacity >= 1 && TrackOk(p.track, capacity) && RewindOther(p, a, capacity).Some?
    ensures var r := RewindOther(p, a, capacity).value;
            && (r.track.head.Some? <==> p.track.head.Some?)
            && (p.track.head.Some? ==>
                  r.track.head.value.number == if a.number < p.track.head.value.number then a.number else p.track.head.value.number)
            && Cursors(r) == (if Lower(r.track.head, p.track.head) then (None, None, None) else Cursors(p))
            && forall y :: From(y, r.track.history) ==> From(y, p.track.history) || From(y, [a])
  {
    var h := p.track.history;
    var k := SplitAt(h, a.number);
    RewindOtherMeaning(p, a, capacity, k);
    if p.track.head.Some? && p.track.head.value.number >= a.number {
      CompatibleSame(p.track.head.value, a);
      if k < |h| { CompatibleSame(h[k], a); }
      hide RewindOther, CompatibleBlock, TrackOk;
      var r := RewindOther(p, a, capacity).value;
      var low := BelowTarget(h, k, a, capacity);
      forall y | From(y, r.track.history) ensures From(y, h) || From(y, [a]) {
        var i :| 0 <= i < |r.track.history| && SameBlock(y, r.track.history[i]);
        if i < |low| { assert low[i] in h; FromMember(y, low[i], h); } else { FromMember(y, a, [a]); }
      }
    }
  }

  predicate AtOrBelow(n: int, ancestors: seq<Block>) {
    forall i :: 0 <= i < |ancestors| ==> n <= ancestors[i].number
  }

  predicate HeightOf(n: int, ancestors: seq<Block>) {
    exists i :: 0 <= i < |ancestors| && ancestors[i].number == n
  }

  lemma HeightsGrow(front: seq<Block>, a: Block, n: int)
    ensures AtOrBelow(n, front + [a]) <==> AtOrBelow(n, front) && n <= a.number
    ensures HeightOf(n, front + [a]) <==> HeightOf(n, front) || n == a.number
  {
    var all := front + [a];
    assert all[|front|] == a && forall i :: 0 <= i < |front| ==> all[i] == front[i];
  }

  lemma FromGrows(front: seq<Block>, a: Block, y: Block)
    ensures From(y, front + [a]) <==> From(y, front) || From(y, [a])
  {
    var all := front + [a];
    assert all[|front|] == a && [a][0] == a && forall i :: 0 <= i < |front| ==> all[i] == front[i];
  }

  lemma AtOrBelowLess(n: int, m: int, ancestors: seq<Block>)
    requires n <= m && AtOrBelow(m, ancestors)
    ensures AtOrBelow(n, ancestors)
  {
  }

  /** The other source after a whole reorg report: its head is the lowest of its
      own and the ancestors, and its cursors are cleared exactly when its head
      drops. */
  lemma {:induction false} OthersMeaning(p: Position, ancestors: seq<Block>, capacity: nat)
    requires capacity >= 1 && TrackOk(p.track, capacity) && RewindOthers(p, ancestors, capacity).Some?
    ensures var r := RewindOthers(p, ancestors, capacity).value;
            && (r.track.head.Some? <==> p.track.head.Some?)
            && (p.track.head.Some? ==>
                  var n, before := r.track.head.value.number, p.track.head.value.number;
                  n <= before && AtOrBelow(n, ancestors) && (n == before || HeightOf(n, ancestors)))
            && Cursors(r) == (if Lower(r.track.head, p.track.head) then (None, None, None) else Cursors(p))
  {
    if ancestors != [] {
      var front, a := ancestors[..|ancestors| - 1], ancestors[|ancestors| - 1];
      assert ancestors == front + [a];
      OthersMeaning(p, front, capacity);
      RewindOthersOk(p, front, capacity, 0);
      var mid := RewindOthers(p, front, capacity).value;
      hide RewindOther, TrackOk, From, AtOrBelow, HeightOf;
      OneOther(mid, a, capacity);
      if p.track.head.Some? {
        var n, m := RewindOther(mid, a, capacity).value.track.head.value.number, mid.track.head.value.number;
        HeightsGrow(front, a, n);
        HeightsGrow(front, a, m);
        AtOrBelowLess(n, m, front);
      }
    }
  }

  /** Its blocks are its own and the ancestors. */
  lemma {:induction false} OthersContents(p: Position, ancestors: seq<Block>, capacity: nat, y: Block)
    requires capacity >= 1 && TrackOk(p.track, capacity) && RewindOthers(p, ancestors, capacity).Some?
    ensures From(y, RewindOthers(p, ancestors, capacity).value.track.history) ==> From(y, p.track.history) || From(y, ancestors)
  {
    if ancestors != [] {
      var front, a := ancestors[..|ancestors| - 1], ancestors[|ancestors| - 1];
      assert ancestors == front + [a];
      OthersContents(p, front, capacity, y);
      RewindOthersOk(p, front, capacity, 0);
      hide RewindOther, TrackOk, From;
      OneOther(RewindOthers(p, front, capacity).value, a, capacity);
      FromGrows(front, a, y);
    }
  }

  // ----- Commits -----

  datatype Source = Historical | Live

  /** Historical coverage certified within one lifecycle generation. */
  datatype Proof = Proof(generation: u64, through: Block)

  /** A staged delivery: its mutations with the coordinator track they lead to,
      and what its source reports about itself. */
  datatype Plan = Plan(
    canonical: seq<Mutation>,
    source: Source,
    token: Option<Bytes>,
    checkpoint: Option<Bytes>,
    digest: Bytes,
    progress: Option<Block>,
    observed: Option<Block>,
    next: Track)

  datatype Ledger = Ledger(generation: u64, main: Track, historical: Position, live: Position, certified: Option<Proof>)

  function Ancestors(ms: seq<Mutation>): seq<Block> {
    if ms == [] then []
    else
      var front, last := Ancestors(ms[..|ms| - 1]), ms[|ms| - 1];
      if last.Rewind? then front + [last.ancestor] else front
  }

  predicate HasReset(ms: seq<Mutation>) {
    exists i :: 0 <= i < |ms| && ms[i].Reset?
  }

  predicate RewindsBelow(ancestors: seq<Block>, number: int) {
    exists i :: 0 <= i < |ancestors| && number > ancestors[i].number
  }

  /** A reset, or a rewind below the proof, clears it. */
  function Surviving(certified: Option<Proof>, ms: seq<Mutation>): Option<Proof> {
    if HasReset(ms) || (certified.Some? && RewindsBelow(Ancestors(ms), certified.value.through.number)) then None else certified
  }

  function AdvancedTo(t: Track, b: Option<Block>, past: bool, capacity: nat): Option<Track> {
    if b.Some? && (t.head.None? || b.value.number > t.head.value.number || (!past && b.value.number == t.head.value.number))
    then ApplyOne(t, Advance(b.value), capacity) else Some(t)
  }

  /** The committing source's track. */
  function SourceTrack(t: Track, plan: Plan, capacity: nat): Option<Track> {
    var seeded := SeedAll(t, Ancestors(plan.canonical), capacity);
    if seeded.None? then None
    else
      var applied := ApplyAll(seeded.value, plan.canonical, capacity);
      if applied.None? then None
      else
        var progressed := AdvancedTo(applied.value, plan.progress, true, capacity);
        if progressed.None? then None else AdvancedTo(progressed.value, plan.observed, false, capacity)
  }

  function OtherPosition(p: Position, plan: Plan, capacity: nat): Option<Position> {
    var rewound := RewindOthers(p, Ancestors(plan.canonical), capacity);
    if rewound.None? then None else if HasReset(plan.canonical) then Some(NOWHERE) else rewound
  }

  /** The higher of two proofs of one generation; equal heights must agree. */
  function Certify(current: Option<Proof>, next: Proof): Option<Proof> {
    if current.None? || current.value.generation != next.generation || current.value.through.number < next.through.number then Some(next)
    else if current.value.through.number > next.through.number then current
    else
      var merged := CompatibleBlock(current.value.through, next.through);
      if merged.None? then None else Some(Proof(next.generation, merged.value))
  }

  function CommitTo(l: Ledger, plan: Plan, capacity: nat): Option<Ledger> {
    var own, other := if plan.source.Historical? then l.historical else l.live, if plan.source.Historical? then l.live else l.historical;
    var track := SourceTrack(own.track, plan, capacity);
    var moved := OtherPosition(other, plan, capacity);
    var surviving := Surviving(l.certified, plan.canonical);
    var certified :=
      if plan.source.Historical? && plan.observed.Some? then Certify(surviving, Proof(l.generation, plan.observed.value)) else surviving;
    if track.None? || moved.None? then None
    else if plan.source.Historical? && plan.observed.Some? && certified.None? then None
    else
      var mine := Position(track.value, plan.token, plan.checkpoint, Some(plan.digest));
      Some(Ledger(l.generation, plan.next,
                  if plan.source.Historical? then mine else moved.value,
                  if plan.source.Historical? then moved.value else mine, certified))
  }

  ghost predicate LedgerOk(l: Ledger, capacity: nat) {
    && TrackOk(l.main, capacity) && TrackOk(l.historical.track, capacity) && TrackOk(l.live.track, capacity)
    && (l.certified.Some? ==>
          Reaches(l.main.head, l.certified.value.through.number) && Reaches(l.historical.track.head, l.certified.value.through.number))
  }

  /** What the core validator promises of a staged delivery: the next track is
      the coordinator's own with the mutations applied, and the observed block is
      inside it. */
  ghost predicate PlanOk(l: Ledger, plan: Plan, capacity: nat) {
    && ApplyAll(l.main, plan.canonical, capacity) == Some(plan.next)
    && (plan.observed.Some? ==> Reaches(plan.next.head, plan.observed.value.number))
  }

  lemma {:induction false} AncestorsAre(ms: seq<Mutation>, number: int)
    ensures (!HasReset(ms) && !RewindsBelow(Ancestors(ms), number)) <==> Spares(ms, number)
    ensures Spares(ms, number) ==> forall i :: 0 <= i < |Ancestors(ms)| ==> number <= Ancestors(ms)[i].number
  {
    if ms != [] {
      var front, last := ms[..|ms| - 1], ms[|ms| - 1];
      AncestorsAre(front, number);
      ResetSplit(front, last);
      SparesSplit(front, last, number);
      assert ms == front + [last];
      if last.Rewind? { BelowSplit(Ancestors(front), last.ancestor, number); }
    }
  }

  lemma ResetSplit(front: seq<Mutation>, last: Mutation)
    ensures HasReset(front + [last]) <==> HasReset(front) || last.Reset?
  {
    var all := front + [last];
    assert all[|front|] == last && forall i :: 0 <= i < |front| ==> all[i] == front[i];
  }

  lemma SparesSplit(front: seq<Mutation>, last: Mutation, number: int)
    ensures Spares(front + [last], number) <==> Spares(front, number) && Spares([last], number)
  {
    var all := front + [last];
    assert all[|front|] == last && forall i :: 0 <= i < |front| ==> all[i] == front[i];
    assert [last][0] == last;
  }

  lemma BelowSplit(front: seq<Block>, last: Block, number: int)
    ensures RewindsBelow(front + [last], number) <==> RewindsBelow(front, number) || number > last.number
  {
    var all := front + [last];
    assert all[|front|] == last && forall i :: 0 <= i < |front| ==> all[i] == front[i];
  }

  /** A proof survives exactly the mutations that spare its height. */
  lemma SurvivesIff(certified: Option<Proof>, ms: seq<Mutation>)
    ensures certified.Some? ==>
              Surviving(certified, ms) == (if Spares(ms, certified.value.through.number) then certified else None)
  {
    if certified.Some? { AncestorsAre(ms, certified.value.through.number); }
  }

  lemma AdvancedOk(t: Track, b: Option<Block>, past: bool, capacity: nat, number: int)
    requires capacity >= 1 && TrackOk(t, capacity) && AdvancedTo(t, b, past, capacity).Some?
    ensures TrackOk(AdvancedTo(t, b, past, capacity).value, capacity)
    ensures Reaches(t.head, number) ==> Reaches(AdvancedTo(t, b, past, capacity).value.head, number)
    ensures b.Some? ==> Reaches(AdvancedTo(t, b, past, capacity).value.head, b.value.number)
  {
    hide TrackOk, ApplyOne;
    if b.Some? && (t.head.None? || b.value.number > t.head.value.number || (!past && b.value.number == t.head.value.number)) {
      ApplyOneOk(t, Advance(b.value), capacity);
    }
  }

  // ----- What a commit leaves behind -----

  ghost predicate SeedCrowded(t: Track, ancestors: seq<Block>, capacity: nat, n: int) {
    exists k :: 0 <= k <= |ancestors| && SeedAll(t, ancestors[..k], capacity).Some? && Crowded(SeedAll(t, ancestors[..k], capacity).value, n, capacity)
  }

  lemma SeedOneContents(t: Track, a: Block, capacity: nat, y: Block)
    requires capacity >= 1 && TrackOk(t, capacity) && SeedOne(t, a, capacity).Some?
    ensures var r := SeedOne(t, a, capacity).value;
            && (From(y, r.history) ==> From(y, t.history) || From(y, [a]))
            && (From(y, t.history) ==> From(y, r.history) || Crowded(r, y.number, capacity))
  {
    var h := t.history;
    var k := SplitAt(h, a.number);
    SeedMeaning(t, a, capacity, k);
    assert forall j :: k < j < |h| ==> NumberLess(h[k], h[j]);
    var r := SeedOne(t, a, capacity).value;
    hide SeedOne, CompatibleBlock, From, Crowded, Pairwise;
    if r.history != h { InsertContents(h, a, capacity, k, r, y); }
  }

  lemma InsertContents(h: seq<Block>, a: Block, capacity: nat, k: nat, r: Track, y: Block)
    requires capacity >= 1 && Ascending(h) && |h| <= capacity && k <= |h| && Splits(h, a.number, k)
    requires forall j :: k <= j < |h| ==> h[j].number > a.number
    requires var all := h[..k] + [a] + h[k..]; r.history == if |all| > capacity then all[|all| - capacity..] else all
    ensures From(y, r.history) ==> From(y, h) || From(y, [a])
    ensures From(y, h) ==> From(y, r.history) || Crowded(r, y.number, capacity)
  {
    var all := h[..k] + [a] + h[k..];
    hide Ascending, Crowded, Splits;
    assert forall x :: x in all ==> x == a || x in h;
    if From(y, r.history) {
      var i :| 0 <= i < |r.history| && SameBlock(y, r.history[i]);
      var x := r.history[i];
      assert x in all;
      if x in h { FromMember(y, x, h); } else { FromMember(y, a, [a]); }
    }
    if From(y, h) {
      var i :| 0 <= i < |h| && SameBlock(y, h[i]);
      SeedKeeps(h, a, capacity, k, r, i);
      if h[i] in r.history { FromMember(y, h[i], r.history); }
    }
  }

  lemma SeedKeeps(h: seq<Block>, a: Block, capacity: nat, k: nat, r: Track, i: nat)
    requires capacity >= 1 && Ascending(h) && |h| <= capacity && k <= |h| && i < |h| && Splits(h, a.number, k)
    requires forall j :: k <= j < |h| ==> h[j].number > a.number
    requires var all := h[..k] + [a] + h[k..]; r.history == if |all| > capacity then all[|all| - capacity..] else all
    ensures h[i] in r.history || Crowded(r, h[i].number, capacity)
  {
    var all := h[..k] + [a] + h[k..];
    var at := if i < k then i else i + 1;
    assert all[at] == h[i];
    if |all| <= capacity {
    } else if at > 0 {
      assert r.history[at - 1] == all[at];
    } else {
      forall y | y in r.history ensures y.number > h[i].number {
        var j :| 0 <= j < |r.history| && r.history[j] == y;
        assert y == all[j + 1];
        if j + 1 < k { assert NumberLess(h[0], h[j + 1]); }
        else if j + 1 > k { assert y == h[j] && (j > 0 ==> NumberLess(h[0], h[j])); }
      }
    }
  }

  lemma {:induction false} SeedContents(t: Track, ancestors: seq<Block>, capacity: nat, y: Block)
    requires capacity >= 1 && TrackOk(t, capacity) && SeedAll(t, ancestors, capacity).Some?
    ensures var r := SeedAll(t, ancestors, capacity).value;
            && (From(y, r.history) ==> From(y, t.history) || From(y, ancestors))
            && (From(y, t.history) ==> From(y, r.history) || SeedCrowded(t, ancestors, capacity, y.number))
  {
    if ancestors != [] {
      var front, a := ancestors[..|ancestors| - 1], ancestors[|ancestors| - 1];
      assert forall i :: 0 <= i < |front| ==> front[i] == ancestors[i];
      assert ancestors[..|ancestors|] == ancestors;
      SeedContents(t, front, capacity, y);
      SeedAllOk(t, front, capacity);
      var mid, r := SeedAll(t, front, capacity).value, SeedAll(t, ancestors, capacity).value;
      hide SeedOne, TrackOk, SameBlock, Crowded;
      SeedOneContents(mid, a, capacity, y);
      if From(y, [a]) { assert SameBlock(y, ancestors[|ancestors| - 1]); }
      if From(y, front) { var i :| 0 <= i < |front| && SameBlock(y, front[i]); assert SameBlock(y, ancestors[i]); }
      if SeedCrowded(t, front, capacity, y.number) {
        var k :| 0 <= k <= |front| && SeedAll(t, front[..k], capacity).Some? && Crowded(SeedAll(t, front[..k], capacity).value, y.number, capacity);
        assert ancestors[..k] == front[..k];
      }
    }
  }

  /** What a source reports about its own progress. */
  function Reported(plan: Plan): seq<Block> {
    (if plan.progress.Some? then [plan.progress.value] else []) + (if plan.observed.Some? then [plan.observed.value] else [])
  }

  lemma ReportContents(t: Track, b: Option<Block>, past: bool, capacity: nat, y: Block)
    requires capacity >= 1 && TrackOk(t, capacity) && AdvancedTo(t, b, past, capacity).Some?
    ensures var r := AdvancedTo(t, b, past, capacity).value;
            && (From(y, r.history) ==> From(y, t.history) || (b.Some? && SameBlock(y, b.value)))
            && (From(y, t.history) ==> From(y, r.history) || Crowded(r, y.number, capacity))
  {
    if b.Some? && AdvancedTo(t, b, past, capacity) != Some(t) {
      var m := Advance(b.value);
      assert [m][0] == m;
      OneContents(t, m, capacity);
      var r := ApplyOne(t, m, capacity).value;
      hide ApplyOne, TrackOk, Crowded;
      if From(y, r.history) {
        StepFrom(t, m, r, y);
        if From(y, Named(m)) { var i :| 0 <= i < |Named(m)| && SameBlock(y, Named(m)[i]); }
      }
      if From(y, t.history) { StepKeeps(t, m, r, capacity, y); }
    }
  }

  /** Some step of the commit filled the history with blocks above a height. */
  ghost predicate BoundDrops(t: Track, plan: Plan, capacity: nat, n: int)
    requires SourceTrack(t, plan, capacity).Some?
  {
    var seeded := SeedAll(t, Ancestors(plan.canonical), capacity).value;
    var applied := ApplyAll(seeded, plan.canonical, capacity).value;
    var progressed := AdvancedTo(applied, plan.progress, true, capacity).value;
    || SeedCrowded(t, Ancestors(plan.canonical), capacity, n)
    || CrowdedOut(seeded, plan.canonical, capacity, n)
    || Crowded(progressed, n, capacity)
    || Crowded(SourceTrack(t, plan, capacity).value, n, capacity)
  }

  /** The committing source retains, up to the bound, exactly what its mutations
      leave, with the rewind targets and its own reports added. */
  lemma SourceContents(t: Track, plan: Plan, capacity: nat, y: Block)
    requires capacity >= 1 && TrackOk(t, capacity) && SourceTrack(t, plan, capacity).Some?
    ensures var r := SourceTrack(t, plan, capacity).value;
            && (From(y, r.history) ==> Origin(t, plan.canonical, y) || From(y, Ancestors(plan.canonical)) || From(y, Reported(plan)))
            && (Origin(t, plan.canonical, y) ==> From(y, r.history) || BoundDrops(t, plan, capacity, y.number))
  {
    var seeds := Ancestors(plan.canonical);
    var seeded := SeedAll(t, seeds, capacity).value;
    SeedAllOk(t, seeds, capacity);
    SeedContents(t, seeds, capacity, y);
    ApplyAllOk(seeded, plan.canonical, capacity);
    AllContents(seeded, plan.canonical, capacity, y);
    var applied := ApplyAll(seeded, plan.canonical, capacity).value;
    AdvancedOk(applied, plan.progress, true, capacity, 0);
    ReportContents(applied, plan.progress, true, capacity, y);
    ReportContents(AdvancedTo(applied, plan.progress, true, capacity).value, plan.observed, false, capacity, y);
    ReportedNames(plan, y);
    hide TrackOk, SeedAll, ApplyAll, AdvancedTo, From, Spares, SeedCrowded, CrowdedOut, Crowded, NamedLast, Reported, SameBlock;
  }

  lemma ReportedNames(plan: Plan, y: Block)
    ensures plan.progress.Some? && SameBlock(y, plan.progress.value) ==> From(y, Reported(plan))
    ensures plan.observed.Some? && SameBlock(y, plan.observed.value) ==> From(y, Reported(plan))
  {
    var s := Reported(plan);
    if plan.progress.Some? { assert s[0] == plan.progress.value; }
    if plan.observed.Some? { assert s[|s| - 1] == plan.observed.value; }
  }

  /** Where everything comes from after a successful commit: the coordinator's track
      is the planned one, the committing source takes over the delivery's token,
      checkpoint and digest, and the other source loses its own exactly when a
      reset comes or its head drops. */
  lemma CommitMeaning(l: Ledger, plan: Plan, capacity: nat)
    requires capacity >= 1 && LedgerOk(l, capacity) && CommitTo(l, plan, capacity).Some?
    ensures var after := CommitTo(l, plan, capacity).value;
            var own := if plan.source.Historical? then after.historical else after.live;
            var before, other := if plan.source.Historical? then l.live else l.historical, if plan.source.Historical? then after.live else after.historical;
            && after.main == plan.next
            && own.token == plan.token && own.checkpoint == plan.checkpoint && own.digest == Some(plan.digest)
            && (if exists i :: 0 <= i < |plan.canonical| && plan.canonical[i].Reset? then other == Position(Track([], None), None, None, None)
                else Cursors(other) == if Lower(other.track.head, before.track.head) then (None, None, None) else Cursors(before))
            && (plan.progress.Some? ==> Reaches(own.track.head, plan.progress.value.number))
            && (plan.observed.Some? ==> Reaches(own.track.head, plan.observed.value.number))
  {
    var mine, before := if plan.source.Historical? then l.historical else l.live, if plan.source.Historical? then l.live else l.historical;
    SourceTrackOk(mine.track, plan, capacity, 0);
    OthersMeaning(before, Ancestors(plan.canonical), capacity);
    hide SourceTrack, RewindOthers, TrackOk, Surviving, Certify, From;
  }

  lemma SourceTrackOk(t: Track, plan: Plan, capacity: nat, number: int)
    requires capacity >= 1 && TrackOk(t, capacity) && SourceTrack(t, plan, capacity).Some?
    ensures TrackOk(SourceTrack(t, plan, capacity).value, capacity)
    ensures Reaches(t.head, number) && Spares(plan.canonical, number) ==> Reaches(SourceTrack(t, plan, capacity).value.head, number)
    ensures plan.observed.Some? ==> Reaches(SourceTrack(t, plan, capacity).value.head, plan.observed.value.number)
    ensures plan.progress.Some? ==> Reaches(SourceTrack(t, plan, capacity).value.head, plan.progress.value.number)
  {
    hide TrackOk, ApplyAll, SeedAll, AdvancedTo, Spares;
    var seeded := SeedAll(t, Ancestors(plan.canonical), capacity).value;
    SeedAllOk(t, Ancestors(plan.canonical), capacity);
    ApplyAllOk(seeded, plan.canonical, capacity);
    if Reaches(t.head, number) && Spares(plan.canonical, number) { SparedHead(seeded, plan.canonical, capacity, number); }
    var applied := ApplyAll(seeded, plan.canonical, capacity).value;
    AdvancedOk(applied, plan.progress, true, capacity, number);
    var progressed := AdvancedTo(applied, plan.progress, true, capacity).value;
    AdvancedOk(progressed, plan.observed, false, capacity, number);
    if plan.progress.Some? { AdvancedOk(progressed, plan.observed, false, capacity, plan.progress.value.number); }
  }

  lemma AdvancedKnows(t: Track, b: Block, capacity: nat)
    requires AdvancedTo(t, Some(b), false, capacity).Some?
    ensures var r := AdvancedTo(t, Some(b), false, capacity).value;
            r.head.Some? && (r.head.value.number > b.number || KnowsBlock(r.head.value, b))
  {
  }

  /** A committed plan's observed block is the source's head, with everything the
      observation knows of it, unless the source is already past it. */
  lemma ObservedIsKnown(t: Track, plan: Plan, capacity: nat)
    requires SourceTrack(t, plan, capacity).Some? && plan.observed.Some?
    ensures var r := SourceTrack(t, plan, capacity).value;
            r.head.Some? && (r.head.value.number > plan.observed.value.number || KnowsBlock(r.head.value, plan.observed.value))
  {
    hide ApplyAll, SeedAll, AdvancedTo;
    var applied := ApplyAll(SeedAll(t, Ancestors(plan.canonical), capacity).value, plan.canonical, capacity).value;
    AdvancedKnows(AdvancedTo(applied, plan.progress, true, capacity).value, plan.observed.value, capacity);
  }

  lemma OtherPositionOk(p: Position, plan: Plan, capacity: nat, number: int)
    requires capacity >= 1 && TrackOk(p.track, capacity) && OtherPosition(p, plan, capacity).Some?
    ensures TrackOk(OtherPosition(p, plan, capacity).value.track, capacity)
    ensures Reaches(p.track.head, number) && Spares(plan.canonical, number) ==>
              Reaches(OtherPosition(p, plan, capacity).value.track.head, number)
  {
    AncestorsAre(plan.canonical, number);
    NowhereOk(capacity);
    hide TrackOk, RewindOthers, Spares, HasReset, RewindsBelow, Ancestors;
    RewindOthersOk(p, Ancestors(plan.canonical), capacity, number);
  }

  lemma NowhereOk(capacity: nat)
    ensures TrackOk(NOWHERE.track, capacity)
  {
  }

  lemma CommitTracksOk(l: Ledger, plan: Plan, capacity: nat, number: int)
    requires capacity >= 1 && LedgerOk(l, capacity) && PlanOk(l, plan, capacity) && CommitTo(l, plan, capacity).Some?
    ensures var after := CommitTo(l, plan, capacity).value;
            && TrackOk(after.main, capacity) && TrackOk(after.historical.track, capacity) && TrackOk(after.live.track, capacity)
            && (Spares(plan.canonical, number) && Reaches(l.main.head, number) ==> Reaches(after.main.head, number))
            && (Spares(plan.canonical, number) && Reaches(l.historical.track.head, number) ==> Reaches(after.historical.track.head, number))
            && (plan.source.Historical? && plan.observed.Some? ==>
                  Reaches(after.historical.track.head, plan.observed.value.number) && Reaches(after.main.head, plan.observed.value.number))
  {
    hide TrackOk, SourceTrack, OtherPosition, ApplyAll, Spares, Surviving, Certify;
    ApplyAllOk(l.main, plan.canonical, capacity);
    if Spares(plan.canonical, number) && Reaches(l.main.head, number) { SparedHead(l.main, plan.canonical, capacity, number); }
    if plan.source.Historical? {
      SourceTrackOk(l.historical.track, plan, capacity, number);
      OtherPositionOk(l.live, plan, capacity, number);
    } else {
      SourceTrackOk(l.live.track, plan, capacity, number);
      OtherPositionOk(l.historical, plan, capacity, number);
    }
  }

  lemma CertifyIs(current: Option<Proof>, next: Proof)
    ensures var r := Certify(current, next);
            r.Some? ==>
              && r.value.through.number >= next.through.number
              && (r.value.through.number == next.through.number || (current.Some? && r == current))
              && (current.Some? && current.value.generation == next.generation ==> r.value.through.number >= current.value.through.number)
  {
  }

  /** How the proof moves: a surviving proof of this generation never decreases,
      and nothing but a reset or a rewind below it clears it. */
  lemma CertifiedAfter(l: Ledger, plan: Plan, capacity: nat)
    requires CommitTo(l, plan, capacity).Some?
    ensures var before, after := l.certified, CommitTo(l, plan, capacity).value.certified;
            && (before.Some? && before.value.generation == l.generation && Spares(plan.canonical, before.value.through.number) ==>
                  after.Some? && after.value.through.number >= before.value.through.number)
            && (after.Some? ==>
                  || (before.Some? && Spares(plan.canonical, before.value.through.number) && after.value.through.number == before.value.through.number)
                  || (plan.source.Historical? && plan.observed.Some? && after.value.through.number == plan.observed.value.number))
  {
    SurvivesIff(l.certified, plan.canonical);
    hide SourceTrack, OtherPosition, Spares, HasReset, RewindsBelow;
    if plan.source.Historical? && plan.observed.Some? {
      CertifyIs(Surviving(l.certified, plan.canonical), Proof(l.generation, plan.observed.value));
    }
  }

  /** Every successful commit keeps all three histories ascending, bounded and
      ending at their heads, with the proof below both heads. */
  lemma CommitKeepsLedger(l: Ledger, plan: Plan, capacity: nat)
    requires capacity >= 1 && LedgerOk(l, capacity) && PlanOk(l, plan, capacity) && CommitTo(l, plan, capacity).Some?
    ensures LedgerOk(CommitTo(l, plan, capacity).value, capacity)
  {
    var after := CommitTo(l, plan, capacity).value;
    var number := if l.certified.Some? then l.certified.value.through.number else 0;
    CommitTracksOk(l, plan, capacity, number);
    CertifiedAfter(l, plan, capacity);
    hide TrackOk, CommitTo, Spares, ApplyAll;
  }

  // ----- Runs -----

  /** A refused commit leaves the ledger alone. */
  function CommitOrKeep(l: Ledger, plan: Plan, capacity: nat): Ledger {
    var r := CommitTo(l, plan, capacity);
    if r.Some? then r.value else l
  }

  function AfterPlans(l: Ledger, plans: seq<Plan>, capacity: nat): Ledger {
    if plans == [] then l else CommitOrKeep(AfterPlans(l, plans[..|plans| - 1], capacity), plans[|plans| - 1], capacity)
  }

  ghost predicate AllPlansOk(l: Ledger, plans: seq<Plan>, capacity: nat) {
    forall k :: 0 <= k < |plans| ==> PlanOk(AfterPlans(l, plans[..k], capacity), plans[k], capacity)
  }

  lemma {:induction false} RunsKeepLedger(l: Ledger, plans: seq<Plan>, capacity: nat)
    requires capacity >= 1 && LedgerOk(l, capacity) && AllPlansOk(l, plans, capacity)
    ensures LedgerOk(AfterPlans(l, plans, capacity), capacity) && AfterPlans(l, plans, capacity).generation == l.generation
  {
    if plans != [] {
      var front, last := plans[..|plans| - 1], plans[|plans| - 1];
      forall k | 0 <= k < |front| ensures PlanOk(AfterPlans(l, front[..k], capacity), front[k], capacity) {
        assert front[..k] == plans[..k] && front[k] == plans[k];
      }
      RunsKeepLedger(l, front, capacity);
      var before := AfterPlans(l, front, capacity);
      assert PlanOk(before, last, capacity) by { assert plans[..|plans| - 1] == front; }
      hide LedgerOk, PlanOk, CommitTo, AllPlansOk;
      if CommitTo(before, last, capacity).Some? {
        CommitKeepsLedger(before, last, capacity);
        GenerationKept(before, last, capacity);
      }
    }
  }

  lemma GenerationKept(l: Ledger, plan: Plan, capacity: nat)
    requires CommitTo(l, plan, capacity).Some?
    ensures CommitTo(l, plan, capacity).value.generation == l.generation
  {
    hide SourceTrack, OtherPosition, Surviving, Certify;
  }

  /** Over a run of commits that all spare it, the proof never goes down. */
  lemma {:induction false} ProofNeverDecreases(l: Ledger, plans: seq<Plan>, capacity: nat)
    requires capacity >= 1 && l.certified.Some? && l.certified.value.generation == l.generation
    requires forall k :: 0 <= k < |plans| ==> SparesProof(AfterPlans(l, plans[..k], capacity), plans[k])
    ensures var after := AfterPlans(l, plans, capacity);
            && after.generation == l.generation && after.certified.Some? && after.certified.value.generation == l.generation
            && after.certified.value.through.number >= l.certified.value.through.number
  {
    if plans != [] {
      var front, last := plans[..|plans| - 1], plans[|plans| - 1];
      forall k | 0 <= k < |front| ensures SparesProof(AfterPlans(l, front[..k], capacity), front[k]) {
        assert front[..k] == plans[..k] && front[k] == plans[k];
      }
      ProofNeverDecreases(l, front, capacity);
      var before := AfterPlans(l, front, capacity);
      assert SparesProof(before, last);
      hide CommitTo, Spares;
      if CommitTo(before, last, capacity).Some? {
        CertifiedAfter(before, last, capacity);
        GenerationKept(before, last, capacity);
        ProofGeneration(before, last, capacity);
      }
    }
  }

  /** The commit neither resets nor rewinds below the current proof. */
  ghost predicate SparesProof(l: Ledger, plan: Plan) {
    l.certified.Some? ==> Spares(plan.canonical, l.certified.value.through.number)
  }

  lemma ProofGeneration(l: Ledger, plan: Plan, capacity: nat)
    requires CommitTo(l, plan, capacity).Some? && (l.certified.Some? ==> l.certified.value.generation == l.generation)
    ensures var after := CommitTo(l, plan, capacity).value.certified; after.Some? ==> after.value.generation == l.generation
  {
    hide SourceTrack, OtherPosition, HasReset, RewindsBelow;
  }

  // ----- The operations as they run -----

  method ApplyCanonicalMutations(t: Track, ms: seq<Mutation>, capacity: nat) returns (r: Option<Track>)
    ensures r == ApplyAll(t, ms, capacity)
  {
    hide ApplyOne;
    var current := t;
    var i := 0;
    while i < |ms|
      invariant 0 <= i <= |ms| && ApplyAll(t, ms[..i], capacity) == Some(current)
    {
      assert ms[..i + 1][..i] == ms[..i];
      var next := ApplyOne(current, ms[i], capacity);
      if next.None? {
        StuckAt(t, ms, capacity, i + 1);
        return None;
      }
      current := next.value;
      i := i + 1;
    }
    assert ms[..|ms|] == ms;
    r := Some(current);
  }

  lemma {:induction false} StuckAt(t: Track, ms: seq<Mutation>, capacity: nat, i: nat)
    requires i <= |ms| && ApplyAll(t, ms[..i], capacity).None?
    ensures ApplyAll(t, ms, capacity).None?
    decreases |ms|
  {
    hide ApplyOne;
    if i == |ms| { assert ms[..i] == ms; }
    else {
      assert ms[..|ms| - 1][..i] == ms[..i];
      StuckAt(t, ms[..|ms| - 1], capacity, i);
    }
  }

  method SeedReorgAncestors(t: Track, ancestors: seq<Block>, capacity: nat) returns (r: Option<Track>)
    ensures r == SeedAll(t, ancestors, capacity)
  {
    hide SeedOne;
    r := Some(t);
    var i := 0;
    while i < |ancestors| && r.Some?
      invariant 0 <= i <= |ancestors| && r == SeedAll(t, ancestors[..i], capacity)
    {
      assert ancestors[..i + 1][..i] == ancestors[..i];
      r := SeedOne(r.value, ancestors[i], capacity);
      i := i + 1;
    }
    if r.None? { SeedStuck(t, ancestors, capacity, i); } else { assert ancestors[..|ancestors|] == ancestors; }
  }

  lemma {:induction false} SeedStuck(t: Track, ancestors: seq<Block>, capacity: nat, i: nat)
    requires i <= |ancestors| && SeedAll(t, ancestors[..i], capacity).None?
    ensures SeedAll(t, ancestors, capacity).None?
    decreases |ancestors|
  {
    hide SeedOne;
    if i == |ancestors| { assert ancestors[..i] == ancestors; }
    else {
      assert ancestors[..|ancestors| - 1][..i] == ancestors[..i];
      SeedStuck(t, ancestors[..|ancestors| - 1], capacity, i);
    }
  }

  method RewindOtherSource(p: Position, ancestors: seq<Block>, capacity: nat) returns (r: Option<Position>)
    ensures r == RewindOthers(p, ancestors, capacity)
  {
    hide RewindOther;
    r := Some(p);
    var i := 0;
    while i < |ancestors| && r.Some?
      invariant 0 <= i <= |ancestors| && r == RewindOthers(p, ancestors[..i], capacity)
    {
      assert ancestors[..i + 1][..i] == ancestors[..i];
      r := RewindOther(r.value, ancestors[i], capacity);
      i := i + 1;
    }
    if r.None? { RewindStuck(p, ancestors, capacity, i); } else { assert ancestors[..|ancestors|] == ancestors; }
  }

  lemma {:induction false} RewindStuck(p: Position, ancestors: seq<Block>, capacity: nat, i: nat)
    requires i <= |ancestors| && RewindOthers(p, ancestors[..i], capacity).None?
    ensures RewindOthers(p, ancestors, capacity).None?
    decreases |ancestors|
  {
    hide RewindOther;
    if i == |ancestors| { assert ancestors[..i] == ancestors; }
    else {
      assert ancestors[..|ancestors| - 1][..i] == ancestors[..i];
      RewindStuck(p, ancestors[..|ancestors| - 1], capacity, i);
    }
  }

  class Coordinator {
    const capacity: nat
    var generation: u64
    var main: Track
    var historical: Position
    var live: Position
    var certified: Option<Proof>

    function State(): Ledger
      reads this
    {
      Ledger(generation, main, historical, live, certified)
    }

    ghost predicate Valid()
      reads this
    {
      capacity >= 1 && LedgerOk(State(), capacity)
    }

    /** Works on a candidate checkpoint and installs it only when every part of
        the commit succeeds. */
    method CommitCoordinator(plan: Plan) returns (ok: bool)
      requires Valid() && PlanOk(State(), plan, capacity)
      modifies this`main, this`historical, this`live, this`certified
      ensures Valid()
      ensures ok <==> CommitTo(old(State()), plan, capacity).Some?
      ensures State() == CommitOrKeep(old(State()), plan, capacity)
    {
      ghost var before := State();
      if CommitTo(before, plan, capacity).Some? { CommitKeepsLedger(before, plan, capacity); }
      var own, other := if plan.source.Historical? then historical else live, if plan.source.Historical? then live else historical;
      var surviving := Surviving(certified, plan.canonical);
      hide LedgerOk, PlanOk, Certify, Surviving, HasReset, ApplyOne;
      var track := CommitSource(own.track, plan);
      var rewound := RewindOtherSource(other, Ancestors(plan.canonical), capacity);
      if track.None? || rewound.None? { return false; }
      var moved := if HasReset(plan.canonical) then NOWHERE else rewound.value;
      if plan.source.Historical? && plan.observed.Some? {
        surviving := Certify(surviving, Proof(generation, plan.observed.value));
        if surviving.None? { return false; }
      }
      var mine := Position(track.value, plan.token, plan.checkpoint, Some(plan.digest));
      main, certified := plan.next, surviving;
      if plan.source.Historical? { historical, live := mine, moved; } else { historical, live := moved, mine; }
      ok := true;
    }

    method CommitSource(t: Track, plan: Plan) returns (r: Option<Track>)
      ensures r == SourceTrack(t, plan, capacity)
    {
      hide ApplyOne, SeedAll, ApplyAll;
      var seeded := SeedReorgAncestors(t, Ancestors(plan.canonical), capacity);
      if seeded.None? { return None; }
      var applied := ApplyCanonicalMutations(seeded.value, plan.canonical, capacity);
      if applied.None? { return None; }
      var progressed := AdvancedTo(applied.value, plan.progress, true, capacity);
      if progressed.None? { return None; }
      r := AdvancedTo(progressed.value, plan.observed, false, capacity);
    }
  }
}
