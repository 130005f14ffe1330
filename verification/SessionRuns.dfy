/** What every run of the session store keeps: rows the loader accepts, dense
    sequences, the reorg-promise protocol and a canonical head that only a
    reorg naming it can move back
    (crates/event-service/src/session_store.rs). */
module SessionRuns {
  import opened Protocol
  import opened PayloadRules
  import opened ProgressRules
  import opened SessionStore

  datatype Op =
    | ApplyOp(req: DesiredState, prepared: Option<Cursor>, maxBytes: nat, maxSessions: nat)
    | SaveOp(desired: DesiredState, delivery: Delivery)
    | AckOp(chainId: u64, ack: Acknowledge)

  /** One store call; a refused call writes nothing. */
  ghost function Exec(o: Oracle, rows: Rows, op: Op): Rows {
    match op
    case ApplyOp(req, prepared, maxBytes, maxSessions) =>
      var r := Apply(o, rows, req, prepared, maxBytes, maxSessions);
      if r.Ok? then r.value.rows else rows
    case SaveOp(ds, d) =>
      var r := Save(o, rows, ds, d);
      if r.Ok? then r.value.rows else rows
    case AckOp(chainId, ack) =>
      var r := Ack(o, rows, chainId, ack);
      if r.Ok? then r.value.rows else rows
  }

  /** Rows after a run from the empty store. */
  ghost function Run(o: Oracle, ops: seq<Op>): Rows {
    if ops == [] then map[] else Exec(o, Run(o, ops[..|ops| - 1]), ops[|ops| - 1])
  }

  /** The delivery a call newly commits for `key`, if any. */
  ghost function NewlyAcked(o: Oracle, rows: Rows, key: SessionKey, op: Op): Option<Delivery> {
    if op.AckOp? && SessionKey(op.ack.sessionId, op.chainId) == key then
      var r := Ack(o, rows, op.chainId, op.ack);
      if r.Ok? && r.value.changed then rows[key].pending else None
    else None
  }

  /** Deliveries committed for `key` by a run, oldest first. */
  ghost function AckLog(o: Oracle, ops: seq<Op>, key: SessionKey): seq<Delivery> {
    if ops == [] then []
    else
      var front := ops[..|ops| - 1];
      var d := NewlyAcked(o, Run(o, front), key, ops[|ops| - 1]);
      if d.Some? then AckLog(o, front, key) + [d.value] else AckLog(o, front, key)
  }

  /** Every row any run can write passes the loader's validator. */
  lemma {:induction false} ReachableRowsLoad(o: Oracle, ops: seq<Op>)
    ensures StoreInv(o, Run(o, ops))
  {
    if ops != [] {
      var rows := Run(o, ops[..|ops| - 1]);
      ReachableRowsLoad(o, ops[..|ops| - 1]);
      match ops[|ops| - 1]
      case ApplyOp(req, prepared, maxBytes, maxSessions) => ApplyKeepsStore(o, rows, req, prepared, maxBytes, maxSessions);
      case SaveOp(ds, d) => SaveKeepsStore(o, rows, ds, d);
      case AckOp(chainId, ack) => AckKeepsStore(o, rows, chainId, ack);
    }
  }

  /** Promise standing after a log of acknowledged deliveries. */
  ghost function PromiseOf(log: seq<Delivery>): Option<BlockRef> {
    if log == [] then None else PromiseAfterAck(PromiseOf(log[..|log| - 1]), log[|log| - 1])
  }

  function AckedOf(log: seq<Delivery>): Option<Cursor> {
    if log == [] then None else log[|log| - 1].cursor
  }

  predicate IsReorg(d: Delivery) {
    d.payload.Some? && d.payload.value.Reorg?
  }

  predicate IsActivation(d: Delivery) {
    IsActivationDelivery(d, d.queryRevision)
  }

  /** A canonical header or progress record names the block. */
  predicate NamesBlock(rs: seq<EventRecord>, b: BlockRef) {
    exists i :: 0 <= i < |rs| && rs[i].scope != SCOPE_OWNER_CATCHUP && rs[i].event.Some? && ExplicitBlock(rs[i].event.value) == Some(b)
  }

  /** Where a delivery's head comes from: the highest block its canonical records
      name, the block of a barrier, and otherwise the head before it, but for the
      first activation, which may bring one. */
  ghost predicate HeadComesFrom(before: Option<BlockRef>, d: Delivery)
    requires d.payload.Some?
  {
    var head := HeadOf(d.cursor);
    match d.payload.value
    case Data(rs) =>
      if exists b :: NamesBlock(rs, b) then head.Some? && NamesBlock(rs, head.value) && forall b :: NamesBlock(rs, b) ==> b.number <= head.value.number
      else head == before
    case Finality(_, _) => head == before
    case Barrier(_, at) => if at.Some? then head == at else head == before || (before.None? && IsActivation(d))
    case Reorg(_, _, _) => true
  }

  /** The head moves back only by a reorg whose old tip is that head; otherwise it
      stays or moves up. */
  predicate HeadStep(before: Option<BlockRef>, d: Delivery) {
    if IsReorg(d) then
      && before.Some? && d.payload.value.oldTip == before
      && d.payload.value.commonAncestor.Some?
      && HeadOf(d.cursor) == d.payload.value.commonAncestor
      && d.payload.value.commonAncestor.value.number < before.value.number
    else
      var head := HeadOf(d.cursor);
      before.Some? ==> head.Some? && (head == before || before.value.number < head.value.number)
  }

  /** What a delivery committed after `log` satisfies. */
  ghost predicate StepOk(log: seq<Delivery>, d: Delivery) {
    && d.cursor.Some? && d.payload.Some?
    && d.sequence == |log| + 1 && d.cursor.value.batchSequence == d.sequence
    && (IsReorg(d) ==> d.payload.value.newTip.Some?)
    && (PromiseOf(log).Some? ==>
          && !IsReorg(d)
          && (Certifies(d, PromiseOf(log).value) || (IsActivation(d) && HeadOf(d.cursor) == HeadOf(AckedOf(log)))))
    && HeadStep(HeadOf(AckedOf(log)), d)
    && HeadComesFrom(HeadOf(AckedOf(log)), d)
  }

  ghost predicate LogOk(log: seq<Delivery>) {
    forall i :: 0 <= i < |log| ==> StepOk(log[..i], log[i])
  }

  /** The row is the summary of its log. */
  ghost predicate Summarizes(rows: Rows, key: SessionKey, log: seq<Delivery>) {
    if key in rows then
      && rows[key].acked == AckedOf(log)
      && rows[key].promise == PromiseOf(log)
      && SequenceOf(rows[key].acked) == |log|
    else log == []
  }

  lemma {:induction false} ExplicitNamed(rs: seq<EventRecord>, b: BlockRef)
    ensures b in ExplicitBlocks(rs) <==> NamesBlock(rs, b)
  {
    if rs != [] {
      var front, last := rs[..|rs| - 1], rs[|rs| - 1];
      ExplicitNamed(front, b);
      assert forall i :: 0 <= i < |front| ==> front[i] == rs[i];
    }
  }

  lemma {:induction false} AscendingLast(bs: seq<BlockRef>, i: nat)
    requires Ascending(bs) && i < |bs|
    ensures bs[i].number <= bs[|bs| - 1].number
    decreases |bs| - i
  {
    if i + 1 < |bs| { AscendingLast(bs, i + 1); }
  }

  lemma ProgressHead(acked: Option<Cursor>, ds: DesiredState, d: Delivery)
    requires ProgressOk(acked, ds, d) && d.queryRevision == ds.newRevision
    ensures HeadComesFrom(HeadOf(acked), d)
  {
    if d.payload.value.Data? {
      var rs := d.payload.value.records;
      var bs := ExplicitBlocks(rs);
      forall b ensures b in bs <==> NamesBlock(rs, b) { ExplicitNamed(rs, b); }
      hide ExplicitBlocks, NamesBlock;
      if bs != [] {
        assert bs[|bs| - 1] in bs;
        forall b | b in bs ensures b.number <= bs[|bs| - 1].number {
          var i :| 0 <= i < |bs| && bs[i] == b;
          AscendingLast(bs, i);
        }
      }
    }
  }

  predicate KeepsBoundary(acked: Option<Cursor>, c: Cursor) {
    acked.Some? && acked.value.queryRevision == c.queryRevision ==> acked.value.activationBoundary == c.activationBoundary
  }

  /** A finality report is taken exactly when it moves nothing but the cursor,
      forward, with the acknowledged head below it. */
  lemma FinalityProgress(acked: Option<Cursor>, ds: DesiredState, d: Delivery)
    requires d.payload.Some? && d.payload.value.Finality?
    ensures ProgressOk(acked, ds, d) <==>
            && d.cursor.Some? && d.cursor.value.canonicalHead == HeadOf(acked) && KeepsBoundary(acked, d.cursor.value)
            && (acked.Some? ==> acked.value.nextBlock <= d.cursor.value.nextBlock)
            && (HeadOf(acked).Some? ==> HeadOf(acked).value.number < d.cursor.value.nextBlock)
  {
  }

  /** A reorg is taken exactly when it starts from the acknowledged head, shares an
      ancestor below both tips, and leaves head and cursor there. */
  lemma ReorgProgress(acked: Option<Cursor>, ds: DesiredState, d: Delivery)
    requires d.payload.Some? && d.payload.value.Reorg?
    ensures ProgressOk(acked, ds, d) <==>
            && var p := d.payload.value;
            && d.cursor.Some? && KeepsBoundary(acked, d.cursor.value)
            && p.commonAncestor.Some? && p.oldTip.Some? && p.newTip.Some?
            && HeadOf(acked) == p.oldTip && d.cursor.value.canonicalHead == p.commonAncestor
            && p.commonAncestor.value.number < p.oldTip.value.number && p.commonAncestor.value.number < p.newTip.value.number
            && d.cursor.value.nextBlock == p.commonAncestor.value.number + 1
  {
  }

  lemma PendingIsNextStep(o: Oracle, rows: Rows, key: SessionKey, log: seq<Delivery>)
    requires StoreInv(o, rows) && key in rows && Summarizes(rows, key, log) && rows[key].pending.Some?
    ensures StepOk(log, rows[key].pending.value)
  {
    var row := rows[key];
    assert RowInv(o, key, row);
    assert PendingOk(o, key, row, row.desired.value, row.pending.value);
    ProgressHead(row.acked, row.desired.value, row.pending.value);
    hide HeadComesFrom;
    if row.promise.Some? && !Certifies(row.pending.value, row.promise.value) { UnfulfilledAckKeepsHead(o, key, row, row.pending.value); }
  }

  lemma LogExtends(log: seq<Delivery>, d: Delivery)
    requires LogOk(log) && StepOk(log, d)
    ensures LogOk(log + [d])
    ensures AckedOf(log + [d]) == d.cursor && PromiseOf(log + [d]) == PromiseAfterAck(PromiseOf(log), d)
  {
    var all := log + [d];
    assert all[..|log|] == log;
    forall i | 0 <= i < |all| ensures StepOk(all[..i], all[i]) {
      if i < |log| { assert all[..i] == log[..i]; }
    }
  }

  /** A call either newly commits the pending delivery of `key`, or leaves its
      acknowledged state and any occupied outbox alone. */
  lemma CallEffect(o: Oracle, rows: Rows, key: SessionKey, op: Op)
    requires StoreInv(o, rows)
    ensures var d := NewlyAcked(o, rows, key, op);
            var next := Exec(o, rows, op);
            if d.Some? then
              && key in rows && rows[key].pending == d && d.value.cursor.Some?
              && key in next && next[key] == AckedRow(rows[key], d.value, d.value.cursor.value)
            else KeepsAcked(rows, next, key)
    ensures NewlyAcked(o, rows, key, op).Some? <==>
              && op.AckOp? && key == SessionKey(op.ack.sessionId, op.chainId) && key in rows && rows[key].pending.Some?
              && rows[key].pending.value.sequence == op.ack.sequence && rows[key].pending.value.token == op.ack.token
  {
    match op
    case ApplyOp(req, prepared, maxBytes, maxSessions) => ApplyKeepsAcked(o, rows, req, prepared, maxBytes, maxSessions, key);
    case SaveOp(ds, d) => SaveKeepsAcked(o, rows, ds, d, key);
    case AckOp(chainId, ack) => AckEffect(o, rows, chainId, ack, key);
  }

  lemma CallSummarized(o: Oracle, rows: Rows, key: SessionKey, log: seq<Delivery>, op: Op)
    requires StoreInv(o, rows) && Summarizes(rows, key, log) && LogOk(log)
    ensures var d := NewlyAcked(o, rows, key, op);
            var next := if d.Some? then log + [d.value] else log;
            Summarizes(Exec(o, rows, op), key, next) && LogOk(next)
  {
    CallEffect(o, rows, key, op);
    if NewlyAcked(o, rows, key, op).Some? {
      PendingIsNextStep(o, rows, key, log);
      LogExtends(log, rows[key].pending.value);
    }
  }

  /** Over every run, the log of one session obeys `StepOk` throughout and the
      row summarizes it. */
  lemma {:induction false} RunsKeepLog(o: Oracle, ops: seq<Op>, key: SessionKey)
    ensures LogOk(AckLog(o, ops, key))
    ensures Summarizes(Run(o, ops), key, AckLog(o, ops, key))
  {
    if ops != [] {
      var front := ops[..|ops| - 1];
      RunsKeepLog(o, front, key);
      ReachableRowsLoad(o, front);
      CallSummarized(o, Run(o, front), key, AckLog(o, front, key), ops[|ops| - 1]);
    }
  }

  lemma PromiseStep(log: seq<Delivery>, j: nat)
    requires j < |log|
    ensures PromiseOf(log[..j + 1]) == PromiseAfterAck(PromiseOf(log[..j]), log[j]) && AckedOf(log[..j + 1]) == log[j].cursor
  {
    assert log[..j + 1][..j] == log[..j] && log[..j + 1][j] == log[j];
  }

  lemma UnfulfilledStep(log: seq<Delivery>, d: Delivery, tip: BlockRef)
    requires StepOk(log, d) && PromiseOf(log) == Some(tip) && !Certifies(d, tip)
    ensures PromiseAfterAck(Some(tip), d) == Some(tip) && HeadOf(d.cursor) == HeadOf(AckedOf(log))
  {
    hide Certifies, PromiseOf;
  }

  lemma {:induction false} PromiseStands(log: seq<Delivery>, i: nat, j: nat)
    requires forall k :: i <= k < |log| ==> StepOk(log[..k], log[k])
    requires i < j <= |log| && IsReorg(log[i]) && log[i].payload.value.newTip.Some?
    requires forall k :: i < k < j ==> !Certifies(log[k], log[i].payload.value.newTip.value)
    ensures PromiseOf(log[..j]) == log[i].payload.value.newTip && HeadOf(AckedOf(log[..j])) == HeadOf(log[i].cursor)
    decreases j
  {
    hide Certifies, PromiseOf, StepOk, AckedOf;
    PromiseStep(log, j - 1);
    if i < j - 1 {
      hide PromiseAfterAck, IsReorg, HeadOf;
      PromiseStands(log, i, j - 1);
      UnfulfilledStep(log[..j - 1], log[j - 1], log[i].payload.value.newTip.value);
    }
  }

  /** After an acknowledged reorg and until some delivery certifies its promised
      tip, only activation barriers are acknowledged, and each leaves the head at
      the reorg's common ancestor. */
  lemma PromiseProtocol(o: Oracle, ops: seq<Op>, key: SessionKey, i: nat, j: nat)
    requires var log := AckLog(o, ops, key);
             && i < j < |log| && IsReorg(log[i]) && log[i].payload.value.newTip.Some?
             && forall k :: i < k < j ==> !Certifies(log[k], log[i].payload.value.newTip.value)
    ensures var log := AckLog(o, ops, key);
            var p := log[i].payload.value;
            && !IsReorg(log[j])
            && (Certifies(log[j], p.newTip.value) || (IsActivation(log[j]) && HeadOf(log[j].cursor) == p.commonAncestor))
  {
    RunsKeepLog(o, ops, key);
    var log := AckLog(o, ops, key);
    PromiseStands(log, i, j);
    assert StepOk(log[..j], log[j]) && StepOk(log[..i], log[i]);
  }

  /** The acknowledged head never drops or changes identity at its height,
      except by a reorg naming it as the old tip. */
  lemma HeadDiscipline(o: Oracle, ops: seq<Op>, key: SessionKey, i: nat)
    requires i + 1 < |AckLog(o, ops, key)|
    ensures var log := AckLog(o, ops, key); HeadStep(HeadOf(log[i].cursor), log[i + 1])
  {
    RunsKeepLog(o, ops, key);
    var log := AckLog(o, ops, key);
    assert StepOk(log[..i + 1], log[i + 1]);
    assert log[..i + 1][i] == log[i];
  }

  /** And it comes from where the delivery says. */
  lemma HeadOrigin(o: Oracle, ops: seq<Op>, key: SessionKey, i: nat)
    requires i < |AckLog(o, ops, key)|
    ensures var log := AckLog(o, ops, key);
            log[i].payload.Some? && HeadComesFrom(if i == 0 then None else HeadOf(log[i - 1].cursor), log[i])
  {
    RunsKeepLog(o, ops, key);
    var log := AckLog(o, ops, key);
    assert StepOk(log[..i], log[i]);
    hide HeadComesFrom, AckLog, Certifies;
  }

  /** The row's desired state follows the revision it was applied to. */
  predicate FollowsOn(rows: Rows, key: SessionKey) {
    key in rows && rows[key].desired.Some? ==> rows[key].desired.value.newRevision == rows[key].desired.value.expectedRevision + 1
  }

  lemma ApplyFollows(o: Oracle, rows: Rows, req: DesiredState, prepared: Option<Cursor>, maxBytes: nat, maxSessions: nat, key: SessionKey)
    requires FollowsOn(rows, key)
    ensures FollowsOn(Exec(o, rows, ApplyOp(req, prepared, maxBytes, maxSessions)), key)
  {
    hide RowValid, PayloadOk, ProgressOk, ActivationDelivery, DesiredStateOk, NextSequence, PreparedMatches, Save, Ack;
  }

  lemma SaveFollows(o: Oracle, rows: Rows, ds: DesiredState, d: Delivery, key: SessionKey)
    requires FollowsOn(rows, key)
    ensures FollowsOn(Exec(o, rows, SaveOp(ds, d)), key)
  {
    hide RowValid, PayloadOk, ProgressOk, AddressedTo, Certifies, NextSequence, Apply, Ack;
  }

  lemma AckFollows(o: Oracle, rows: Rows, chainId: u64, ack: Acknowledge, key: SessionKey)
    requires FollowsOn(rows, key)
    ensures FollowsOn(Exec(o, rows, AckOp(chainId, ack)), key)
  {
    hide RowValid, Apply, Save, PromiseAfterAck;
  }

  /** Applied revisions follow one another. */
  lemma {:induction false} RevisionsFollow(o: Oracle, ops: seq<Op>, key: SessionKey)
    ensures FollowsOn(Run(o, ops), key)
  {
    if ops != [] {
      var rows := Run(o, ops[..|ops| - 1]);
      RevisionsFollow(o, ops[..|ops| - 1], key);
      hide Exec, FollowsOn;
      match ops[|ops| - 1]
      case ApplyOp(req, prepared, maxBytes, maxSessions) => ApplyFollows(o, rows, req, prepared, maxBytes, maxSessions, key);
      case SaveOp(ds, d) => SaveFollows(o, rows, ds, d, key);
      case AckOp(chainId, ack) => AckFollows(o, rows, chainId, ack, key);
    }
  }

  lemma SameBoundary(o: Oracle, key: SessionKey, row: Row)
    requires RowInv(o, key, row) && row.pending.Some? && row.acked.Some? && row.desired.Some?
    requires row.desired.value.newRevision == row.desired.value.expectedRevision + 1
    requires row.pending.value.cursor.Some? && row.pending.value.cursor.value.queryRevision == row.acked.value.queryRevision
    ensures row.pending.value.cursor.value.activationBoundary == row.acked.value.activationBoundary
  {
    assert PendingOk(o, key, row, row.desired.value, row.pending.value);
    hide PayloadOk, Certifies;
  }

  /** Within one revision every acknowledged cursor keeps its activation boundary. */
  lemma {:induction false} BoundaryFixed(o: Oracle, ops: seq<Op>, key: SessionKey, i: nat)
    requires i + 1 < |AckLog(o, ops, key)|
    ensures var log := AckLog(o, ops, key);
            && log[i].cursor.Some? && log[i + 1].cursor.Some?
            && (log[i].cursor.value.queryRevision == log[i + 1].cursor.value.queryRevision ==>
                  log[i].cursor.value.activationBoundary == log[i + 1].cursor.value.activationBoundary)
  {
    var front := ops[..|ops| - 1];
    var log, rows := AckLog(o, front, key), Run(o, front);
    RunsKeepLog(o, ops, key);
    assert StepOk(AckLog(o, ops, key)[..i], AckLog(o, ops, key)[i]) && StepOk(AckLog(o, ops, key)[..i + 1], AckLog(o, ops, key)[i + 1]);
    if i + 1 < |log| {
      BoundaryFixed(o, front, key, i);
    } else {
      RunsKeepLog(o, front, key);
      ReachableRowsLoad(o, front);
      RevisionsFollow(o, front, key);
      CallEffect(o, rows, key, ops[|ops| - 1]);
      hide StepOk, LogOk, HeadComesFrom, NewlyAcked;
      assert RowInv(o, key, rows[key]);
      assert rows[key].acked == log[i].cursor;
      if log[i].cursor.value.queryRevision == rows[key].pending.value.cursor.value.queryRevision { SameBoundary(o, key, rows[key]); }
    }
  }

  /** Every acknowledged delivery passed the payload rules of the desired state it
      was saved under. */
  lemma {:induction false} AckedPayload(o: Oracle, ops: seq<Op>, key: SessionKey, i: nat) returns (ds: DesiredState)
    requires i < |AckLog(o, ops, key)|
    ensures ds.newRevision == AckLog(o, ops, key)[i].queryRevision && PayloadOk(o, ds, AckLog(o, ops, key)[i])
  {
    var front := ops[..|ops| - 1];
    if i < |AckLog(o, front, key)| {
      ds := AckedPayload(o, front, key, i);
    } else {
      var rows := Run(o, front);
      ReachableRowsLoad(o, front);
      CallEffect(o, rows, key, ops[|ops| - 1]);
      hide NewlyAcked, PayloadOk, ProgressOk, Certifies;
      assert RowInv(o, key, rows[key]);
      ds := rows[key].desired.value;
      assert PendingOk(o, key, rows[key], ds, rows[key].pending.value);
    }
  }

  /** A barrier without a block, named for its revision or for its revision and next
      block. */
  predicate IsNeutralBarrier(d: Delivery) {
    && d.cursor.Some? && d.payload.Some? && d.payload.value.Barrier? && d.payload.value.at.None?
    && (d.payload.value.id == ActivationId(d.queryRevision) || d.payload.value.id == ProgressId(d.queryRevision, d.cursor.value.nextBlock))
  }

  /** The tips lie above their ancestor in number and time, the three blocks differ,
      and a tip right above the ancestor names it as its parent. */
  predicate ForkShaped(a: BlockRef, o: BlockRef, n: BlockRef) {
    && a.number < o.number && a.number < n.number && a.timestamp < o.timestamp && a.timestamp < n.timestamp
    && a.hash != o.hash && a.hash != n.hash && o.hash != n.hash
    && (o.number == a.number + 1 ==> o.parentHash == a.hash) && (n.number == a.number + 1 ==> n.parentHash == a.hash)
  }

  /** Over every run: the neutral deliveries are exactly the activation and progress
      barriers, a reorg is shaped like a fork, and a finality report names a block as
      safe or final. */
  lemma AckedShapes(o: Oracle, ops: seq<Op>, key: SessionKey, i: nat)
    requires i < |AckLog(o, ops, key)|
    ensures var d := AckLog(o, ops, key)[i];
            && d.payload.Some? && (d.checkpointNeutral <==> IsNeutralBarrier(d))
            && match d.payload.value
               case Data(rs) => rs != []
               case Reorg(a, t, n) => a.Some? && t.Some? && n.Some? && ForkShaped(a.value, t.value, n.value)
               case Finality(kind, b) => (kind == 1 || kind == 2) && b.Some?
               case Barrier(id, _) => id != ""
  {
    var ds := AckedPayload(o, ops, key, i);
    hide AckLog, RecordsOk, CoverageOk, ActivationId, ProgressId;
  }

  /** Newly committed acknowledgements are numbered 1, 2, 3, ... */
  lemma SequencesAreDense(o: Oracle, ops: seq<Op>, key: SessionKey, i: nat)
    requires i < |AckLog(o, ops, key)|
    ensures AckLog(o, ops, key)[i].sequence == i + 1
  {
    RunsKeepLog(o, ops, key);
    assert StepOk(AckLog(o, ops, key)[..i], AckLog(o, ops, key)[i]);
  }

  /** Between persist and its matching acknowledgement the outbox item does not
      change, whatever else is called. */
  lemma OutboxStable(o: Oracle, rows: Rows, key: SessionKey, d: Delivery, op: Op)
    requires StoreInv(o, rows) && key in rows && rows[key].pending == Some(d)
    ensures key in Exec(o, rows, op)
    ensures var row := Exec(o, rows, op)[key];
            if op.AckOp? && key == SessionKey(op.ack.sessionId, op.chainId) && op.ack.sequence == d.sequence && op.ack.token == d.token
            then row.pending.None? && row.acked == d.cursor
            else row == rows[key]
  {
    CallEffect(o, rows, key, op);
  }

  // ----- Why the strengthening is needed -----

  function Repeated(b: byte): Bytes { seq(32, _ => b) }

  /** A row the loader accepts whose acknowledgement it would not. */
  ghost predicate BreaksOnAck(o: Oracle, key: SessionKey, row: Row) {
    && RowValid(o, key, row) && row.pending.Some? && row.pending.value.cursor.Some?
    && !RowValid(o, key, AckedRow(row, row.pending.value, row.pending.value.cursor.value))
  }

  /** What the loader accepts is not inductive by itself: without an acknowledged
      head below the promised tip, activating a global baseline above the tip
      yields a row the loader refuses. */
  lemma LoaderAloneIsNotInductive(o: Oracle)
    requires forall d :: o.frameLen(d) <= MAX_MESSAGE_SIZE_BYTES
    ensures exists key, row :: BreaksOnAck(o, key, row)
  {
    var key := SessionKey("s", 1);
    var head, tip := BlockRef(7, Repeated(7), Repeated(6), 70), BlockRef(5, Repeated(5), Repeated(4), 50);
    var owner := OwnerInterests("", [], Some(Backfill(8, Some(9), Some(head))), true);
    var ds := DesiredState(PROTOCOL_VERSION, "s", 1, 1, 2, [owner]);
    var acked := Cursor(1, 1, 8, None, 1, [], None);
    var activated := Cursor(1, 2, 8, Some(head), 2, [], None);
    var d := Delivery("s", 2, 2, Token(2), Some(activated), Some(Barrier(ActivationId(2), None)), true);
    var row := Row(2, Some(ds), Some(acked), None, Some(d), 2, Some(tip));
    assert IsActivationDelivery(d, 2) && PayloadOk(o, ds, d) && ProgressOk(Some(acked), ds, d);
    assert RowValid(o, key, row);
    assert BreaksOnAck(o, key, row);
  }
}
