/** Cursor progress and reorg-replacement certification
    (crates/event-service/src/session_store.rs, `validate_delivery_progress`,
    `delivery_certifies_reorg_tip`, `expected_reorg_tip_after_ack`). */
module ProgressRules {
  import opened Protocol
  import opened PayloadRules

  /** Scopes decode, and records outside owner catch-up carry an event. */
  predicate RecordsReadable(rs: seq<EventRecord>) {
    forall i :: 0 <= i < |rs| ==>
      && SCOPE_UNSPECIFIED <= rs[i].scope <= SCOPE_OWNER_CATCHUP
      && (rs[i].scope != SCOPE_OWNER_CATCHUP ==> rs[i].event.Some?)
  }

  function RecordBlock(r: EventRecord): Option<BlockRef> {
    if r.scope == SCOPE_OWNER_CATCHUP || r.event.None? then None else ExplicitBlock(r.event.value)
  }

  /** Canonical blocks named by headers and progress records, in record order. */
  function ExplicitBlocks(rs: seq<EventRecord>): seq<BlockRef> {
    if rs == [] then []
    else
      var front := ExplicitBlocks(rs[..|rs| - 1]);
      var b := RecordBlock(rs[|rs| - 1]);
      if b.Some? then front + [b.value] else front
  }

  predicate Ascending(bs: seq<BlockRef>) {
    forall i :: 0 <= i < |bs| - 1 ==> bs[i].number <= bs[i + 1].number
  }

  function Last<T>(s: seq<T>): Option<T> {
    if s == [] then None else Some(s[|s| - 1])
  }

  predicate AllOwnerCatchup(rs: seq<EventRecord>) {
    forall i :: 0 <= i < |rs| ==> rs[i].scope == SCOPE_OWNER_CATCHUP
  }

  function HeadOf(c: Option<Cursor>): Option<BlockRef> {
    if c.Some? then c.value.canonicalHead else None
  }

  function CanonicalBaseline(owners: seq<OwnerInterests>): Option<BlockRef> {
    if owners == [] then None
    else if owners[0].canonical then
      if owners[0].backfill.Some? then owners[0].backfill.value.retainedBaseline else None
    else CanonicalBaseline(owners[1..])
  }

  /** The activation barrier of exactly this revision step, at the head it must keep. */
  predicate IsExactActivation(acked: Option<Cursor>, ds: DesiredState, d: Delivery) {
    && IsActivationDelivery(d, ds.newRevision)
    && ds.expectedRevision == (if acked.Some? then acked.value.queryRevision else 0)
    && d.queryRevision == ds.newRevision
    && d.cursor.value.canonicalHead == OrElse(HeadOf(acked), CanonicalBaseline(ds.owners))
  }

  predicate HasOpenBackfill(ds: DesiredState) {
    exists i :: 0 <= i < |ds.owners| && ds.owners[i].backfill.Some? && ds.owners[i].backfill.value.toBlockExcl.None?
  }

  predicate BoundaryOk(acked: Option<Cursor>, ds: DesiredState, c: Cursor, activation: bool) {
    if activation then
      && (HasOpenBackfill(ds) ==> c.activationBoundary.Some?)
      && (c.activationBoundary.Some? ==> c.nextBlock <= c.activationBoundary.value)
    else
      acked.Some? && acked.value.queryRevision == c.queryRevision ==>
        acked.value.activationBoundary == c.activationBoundary
  }

  /** The head drops, disappears, or changes identity at its own height. */
  predicate HeadRegresses(before: Option<BlockRef>, after: Option<BlockRef>) {
    before.Some? &&
    (after.None? || after.value.number < before.value.number ||
     (after.value.number == before.value.number && after.value != before.value))
  }

  function DeclaredHead(acked: Option<Cursor>, c: Cursor, p: Payload, activation: bool): Option<BlockRef> {
    match p
    case Data(rs) =>
      var last := Last(ExplicitBlocks(rs));
      if last.Some? then last else if AllOwnerCatchup(rs) then HeadOf(acked) else None
    case Reorg(ancestor, _, _) => ancestor
    case Finality(_, _) => HeadOf(acked)
    case Barrier(_, block) =>
      OrElse(block, OrElse(HeadOf(acked), if activation then c.canonicalHead else None))
  }

  predicate ReorgProgressOk(acked: Option<Cursor>, c: Cursor, p: Payload)
    requires p.Reorg?
  {
    && p.commonAncestor.Some? && p.oldTip.Some? && p.newTip.Some?
    && HeadOf(acked) == p.oldTip
    && p.commonAncestor.value.number < p.oldTip.value.number
    && p.commonAncestor.value.number < p.newTip.value.number
    && p.commonAncestor.value.number + 1 == c.nextBlock
  }

  /** What the store accepts as the successor of an acknowledged cursor. */
  predicate ProgressOk(acked: Option<Cursor>, ds: DesiredState, d: Delivery) {
    && d.cursor.Some? && d.payload.Some?
    && var c := d.cursor.value;
    var p := d.payload.value;
    var activation := IsExactActivation(acked, ds, d);
    && BoundaryOk(acked, ds, c, activation)
    && (!p.Reorg? && acked.Some? ==>
          && (acked.value.nextBlock <= c.nextBlock || activation)
          && !HeadRegresses(acked.value.canonicalHead, c.canonicalHead))
    && (p.Reorg? ==> ReorgProgressOk(acked, c, p))
    && (p.Data? ==> RecordsReadable(p.records) && Ascending(ExplicitBlocks(p.records)))
    && c.canonicalHead == DeclaredHead(acked, c, p, activation)
    && (c.canonicalHead.Some? && c.nextBlock <= c.canonicalHead.value.number ==>
          && (acked.Some? ==> c.canonicalHead == acked.value.canonicalHead)
          && (activation || (p.Data? && AllOwnerCatchup(p.records)) || IsProgressBarrier(d)))
  }

  /** Scans data records for the last explicit canonical block. */
  method ScanDeclaredHead(rs: seq<EventRecord>) returns (ok: bool, head: Option<BlockRef>)
    ensures ok <==> RecordsReadable(rs) && Ascending(ExplicitBlocks(rs))
    ensures ok ==> head == Last(ExplicitBlocks(rs))
  {
    head := None;
    var i := 0;
    while i < |rs|
      invariant 0 <= i <= |rs|
      invariant RecordsReadable(rs[..i]) && Ascending(ExplicitBlocks(rs[..i]))
      invariant head == Last(ExplicitBlocks(rs[..i]))
    {
      var r := rs[i];
      assert rs[..i + 1][..i] == rs[..i] && rs[..i + 1][i] == r;
      PrefixReadable(rs, i + 1);
      if !(SCOPE_UNSPECIFIED <= r.scope <= SCOPE_OWNER_CATCHUP) { return false, None; }
      if r.scope != SCOPE_OWNER_CATCHUP && r.event.None? { return false, None; }
      var block := RecordBlock(r);
      if block.Some? {
        if head.Some? && block.value.number < head.value.number {
          ghost var bs := ExplicitBlocks(rs[..i + 1]);
          assert bs[|bs| - 2] == head.value && bs[|bs| - 1] == block.value;
          assert !Ascending(ExplicitBlocks(rs)) by {
            assert ExplicitBlocks(rs)[|bs| - 2] == head.value && ExplicitBlocks(rs)[|bs| - 1] == block.value;
          }
          return false, None;
        }
        head := block;
      }
      i := i + 1;
    }
    assert rs[..|rs|] == rs;
    ok := true;
  }

  lemma {:induction false} PrefixReadable(rs: seq<EventRecord>, n: nat)
    requires n <= |rs|
    ensures RecordsReadable(rs) ==> RecordsReadable(rs[..n])
    ensures ExplicitBlocks(rs[..n]) <= ExplicitBlocks(rs)
    decreases |rs|
  {
    if n < |rs| {
      PrefixReadable(rs[..|rs| - 1], n);
      assert rs[..|rs| - 1][..n] == rs[..n];
    } else {
      assert rs[..n] == rs;
    }
  }

  /** The validator accepts exactly what `ProgressOk` describes. */
  method ValidateDeliveryProgress(acked: Option<Cursor>, ds: DesiredState, d: Delivery) returns (ok: bool)
    ensures ok <==> ProgressOk(acked, ds, d)
  {
    if d.cursor.None? || d.payload.None? { return false; }
    var c, p := d.cursor.value, d.payload.value;
    var activation := IsExactActivation(acked, ds, d);
    if !BoundaryOk(acked, ds, c, activation) { return false; }
    if !p.Reorg? && acked.Some? &&
       ((c.nextBlock < acked.value.nextBlock && !activation) || HeadRegresses(acked.value.canonicalHead, c.canonicalHead))
    {
      return false;
    }
    if p.Reorg? && !ReorgProgressOk(acked, c, p) { return false; }
    var declared := DeclaredHead(acked, c, p, activation);
    if p.Data? {
      var readable, head := ScanDeclaredHead(p.records);
      if !readable { return false; }
      declared := if head.Some? then head else if AllOwnerCatchup(p.records) then HeadOf(acked) else None;
    }
    if c.canonicalHead != declared { return false; }
    var behind := c.canonicalHead.Some? && c.nextBlock <= c.canonicalHead.value.number;
    var keepsHead := acked.None? || c.canonicalHead == acked.value.canonicalHead;
    ok := !behind ||
          (keepsHead && (activation || (p.Data? && AllOwnerCatchup(p.records)) || IsProgressBarrier(d)));
  }

  /** Each height is named with one identity. */
  predicate Functional(bs: seq<BlockRef>) {
    forall i, j :: 0 <= i < j < |bs| && bs[i].number == bs[j].number ==> bs[i] == bs[j]
  }

  /** The blocks at or above `tip` are exactly a parent-linked run of
      consecutive heights from `tip` to `head`. */
  ghost predicate RunsTo(bs: seq<BlockRef>, tip: BlockRef, head: BlockRef) {
    && tip in bs && head in bs && tip.number <= head.number
    && (forall b | b in bs :: b.number <= head.number)
    && (forall n :: tip.number <= n < head.number ==> HasEdge(bs, n))
  }

  /** Some named block at height `n` has a named child. */
  ghost predicate HasEdge(bs: seq<BlockRef>, n: int) {
    exists a, b :: a in bs && b in bs && a.number == n && Follows(a, b)
  }

  /** A delivery that fulfils the promise of `tip`: it names `tip` exactly and
      an unbroken chain from it to the cursor's head, and the cursor resumes
      right after that head. */
  ghost predicate Certifies(d: Delivery, tip: BlockRef) {
    && d.cursor.Some? && d.payload.Some?
    && d.cursor.value.canonicalHead.Some?
    && var head := d.cursor.value.canonicalHead.value;
    && d.cursor.value.nextBlock == head.number + 1
    && match d.payload.value
       case Data(rs) => RecordsReadable(rs) && Functional(ExplicitBlocks(rs)) && RunsTo(ExplicitBlocks(rs), tip, head)
       case Barrier(_, block) => block == Some(tip) && head == tip
       case _ => false
  }

  /** The blocks collected into a height-keyed table, unless two disagree. */
  ghost predicate TableOf(m: map<u64, BlockRef>, bs: seq<BlockRef>) {
    && (forall i :: 0 <= i < |bs| ==> bs[i].number in m && m[bs[i].number] == bs[i])
    && (forall n | n in m :: m[n].number == n && m[n] in bs)
  }

  method CollectBlocks(rs: seq<EventRecord>) returns (ok: bool, m: map<u64, BlockRef>)
    ensures ok <==> RecordsReadable(rs) && Functional(ExplicitBlocks(rs))
    ensures ok ==> TableOf(m, ExplicitBlocks(rs))
  {
    m := map[];
    var i := 0;
    while i < |rs|
      invariant 0 <= i <= |rs|
      invariant RecordsReadable(rs[..i]) && Functional(ExplicitBlocks(rs[..i]))
      invariant TableOf(m, ExplicitBlocks(rs[..i]))
    {
      var r := rs[i];
      assert rs[..i + 1][..i] == rs[..i] && rs[..i + 1][i] == r;
      PrefixReadable(rs, i + 1);
      if !(SCOPE_UNSPECIFIED <= r.scope <= SCOPE_OWNER_CATCHUP) { return false, m; }
      if r.scope != SCOPE_OWNER_CATCHUP && r.event.None? { return false, m; }
      var block := RecordBlock(r);
      if block.Some? {
        ghost var bs := ExplicitBlocks(rs[..i]);
        assert ExplicitBlocks(rs[..i + 1]) == bs + [block.value];
        if block.value.number in m && m[block.value.number] != block.value {
          assert m[block.value.number] in bs;
          ghost var k :| 0 <= k < |bs| && bs[k] == m[block.value.number];
          assert (bs + [block.value])[k] == bs[k] && (bs + [block.value])[|bs|] == block.value;
          assert !Functional(bs + [block.value]);
          PrefixFunctional(ExplicitBlocks(rs), bs + [block.value]);
          return false, m;
        }
        TableGrows(m, bs, block.value);
        m := m[block.value.number := block.value];
      }
      i := i + 1;
    }
    assert rs[..|rs|] == rs;
    ok := true;
  }

  lemma PrefixFunctional(bs: seq<BlockRef>, front: seq<BlockRef>)
    requires front <= bs
    ensures Functional(bs) ==> Functional(front)
  {
  }

  lemma TableGrows(m: map<u64, BlockRef>, bs: seq<BlockRef>, b: BlockRef)
    requires TableOf(m, bs) && Functional(bs)
    requires b.number in m ==> m[b.number] == b
    ensures TableOf(m[b.number := b], bs + [b]) && Functional(bs + [b])
  {
    var all := bs + [b];
    assert all[|bs|] == b && forall i :: 0 <= i < |bs| ==> all[i] == bs[i];
  }

  /** Walks the table upward from the promised tip. */
  method CertifiesReorgTip(d: Delivery, tip: BlockRef) returns (ok: bool)
    ensures ok <==> Certifies(d, tip)
  {
    if d.cursor.None? || d.payload.None? { return false; }
    var c := d.cursor.value;
    match d.payload.value
    case Barrier(_, block) =>
      ok := block == Some(tip) && c.canonicalHead == Some(tip) && c.nextBlock == tip.number + 1;
    case Data(rs) =>
      var collected, m := CollectBlocks(rs);
      if !collected { return false; }
      ghost var bs := ExplicitBlocks(rs);
      if tip.number !in m || m[tip.number] != tip {
        assert tip !in bs;
        return false;
      }
      var previous := tip;
      var rest := set n | n in m && tip.number < n;
      while rest != {}
        invariant tip.number <= previous.number && previous in bs
        invariant rest == set n | n in m && previous.number < n
        invariant forall n :: tip.number <= n < previous.number ==> TableEdge(m, n)
        decreases rest
      {
        var next := previous.number + 1;
        if next !in rest || m[next].parentHash != previous.hash {
          ghost var above :| above in rest;
          WalkBroken(m, bs, tip, previous, above);
          return false;
        }
        assert m[next].number == next;
        previous := m[next];
        rest := rest - {next};
      }
      assert forall n | n in m :: n !in rest;
      TopOfTable(m, bs, tip, previous);
      ok := c.canonicalHead == Some(previous) && c.nextBlock == previous.number + 1;
    case _ =>
      ok := false;
  }

  ghost predicate TableEdge(m: map<u64, BlockRef>, n: int) {
    0 <= n < U64_MAX && n in m && n + 1 in m && Follows(m[n], m[n + 1])
  }

  lemma EdgesOfTable(m: map<u64, BlockRef>, bs: seq<BlockRef>, n: int)
    requires TableOf(m, bs)
    ensures HasEdge(bs, n) <==> TableEdge(m, n)
  {
    if HasEdge(bs, n) {
      var a, b :| a in bs && b in bs && a.number == n && Follows(a, b);
      assert m[a.number] == a && m[b.number] == b;
    }
    if TableEdge(m, n) {
      assert m[n] in bs && m[n + 1] in bs;
    }
  }

  lemma WalkBroken(m: map<u64, BlockRef>, bs: seq<BlockRef>, tip: BlockRef, previous: BlockRef, above: u64)
    requires TableOf(m, bs) && tip.number <= previous.number < above && above in m
    requires !TableEdge(m, previous.number)
    ensures forall head :: !RunsTo(bs, tip, head)
  {
    EdgesOfTable(m, bs, previous.number);
    assert m[above] in bs && m[above].number == above;
  }

  lemma TopOfTable(m: map<u64, BlockRef>, bs: seq<BlockRef>, tip: BlockRef, top: BlockRef)
    requires TableOf(m, bs) && tip in bs && top in bs && tip.number <= top.number
    requires forall n | n in m :: n <= top.number
    requires forall n :: tip.number <= n < top.number ==> TableEdge(m, n)
    ensures forall head :: RunsTo(bs, tip, head) <==> head == top
  {
    forall n | tip.number <= n < top.number ensures HasEdge(bs, n) {
      assert TableEdge(m, n);
      EdgesOfTable(m, bs, n);
    }
    assert RunsTo(bs, tip, top);
    forall head | RunsTo(bs, tip, head) ensures head == top {
      assert m[head.number] == head && m[top.number] == top;
    }
  }

  /** The promise left standing once `pending` is acknowledged. */
  ghost function PromiseAfterAck(current: Option<BlockRef>, pending: Delivery): Option<BlockRef> {
    if pending.payload.Some? && pending.payload.value.Reorg? then pending.payload.value.newTip
    else if current.Some? && Certifies(pending, current.value) then None
    else current
  }
}
