/** What one call on the session store does, told without the transitions: what an
    apply persists and when, and that repeating a call changes nothing
    (crates/event-service/src/session_store.rs). */
module SessionCalls {
  import opened Protocol
  import opened PayloadRules
  import opened ProgressRules
  import opened SessionStore

  // ----- The activation an apply persists -----

  /** The least height any backfill starts at, or zero. */
  ghost predicate FirstBackfill(owners: seq<OwnerInterests>, n: u64) {
    if exists i :: 0 <= i < |owners| && owners[i].backfill.Some? then
      && (exists i :: 0 <= i < |owners| && owners[i].backfill.Some? && owners[i].backfill.value.fromBlock == n)
      && (forall i :: 0 <= i < |owners| && owners[i].backfill.Some? ==> n <= owners[i].backfill.value.fromBlock)
    else n == 0
  }

  /** The cursor an activation carries: the prepared one, else the acknowledged one,
      else the first backfilled height, under the new revision and sequence. */
  ghost predicate ActivatesAt(acked: Option<Cursor>, req: DesiredState, prepared: Option<Cursor>, sequence: u64, c: Cursor) {
    && c.queryRevision == req.newRevision && c.batchSequence == sequence
    && (if prepared.Some? then CarriedOver(prepared.value, c)
        else if acked.Some? then CarriedOver(acked.value, c)
        else
          && c.chainId == req.chainId && c.canonicalHead.None? && c.providerCheckpoint == [] && c.activationBoundary.None?
          && FirstBackfill(req.owners, c.nextBlock))
  }

  /** Chain, position, head, checkpoint and boundary are the same. */
  predicate CarriedOver(a: Cursor, b: Cursor) {
    && b.chainId == a.chainId && b.nextBlock == a.nextBlock && b.canonicalHead == a.canonicalHead
    && b.providerCheckpoint == a.providerCheckpoint && b.activationBoundary == a.activationBoundary
  }

  /** The barrier of the new revision, outside the checkpoint. */
  predicate IsBarrierOf(req: DesiredState, sequence: u64, d: Delivery) {
    && d.sessionId == req.sessionId && d.sequence == sequence && d.queryRevision == req.newRevision && d.token == Token(sequence)
    && d.checkpointNeutral && d.payload == Some(Barrier(ActivationId(req.newRevision), None)) && d.cursor.Some?
  }

  lemma {:induction false} LeastStart(owners: seq<OwnerInterests>)
    ensures var m := MinBackfillStart(owners);
            && (m.None? <==> forall i :: 0 <= i < |owners| ==> owners[i].backfill.None?)
            && (m.Some? ==>
                  && (exists i :: 0 <= i < |owners| && owners[i].backfill.Some? && owners[i].backfill.value.fromBlock == m.value)
                  && (forall i :: 0 <= i < |owners| && owners[i].backfill.Some? ==> m.value <= owners[i].backfill.value.fromBlock))
  {
    if owners != [] {
      var rest := owners[1..];
      LeastStart(rest);
      assert forall i :: 0 <= i < |rest| ==> rest[i] == owners[i + 1];
      var m := MinBackfillStart(rest);
      if m.Some? {
        var i :| 0 <= i < |rest| && rest[i].backfill.Some? && rest[i].backfill.value.fromBlock == m.value;
        assert owners[i + 1].backfill.Some? && owners[i + 1].backfill.value.fromBlock == m.value;
      }
      forall i | 0 <= i < |owners| && owners[i].backfill.Some? ensures MinBackfillStart(owners).Some? && MinBackfillStart(owners).value <= owners[i].backfill.value.fromBlock {
        if i > 0 { assert rest[i - 1] == owners[i]; }
      }
    }
  }

  lemma ActivationIs(acked: Option<Cursor>, req: DesiredState, prepared: Option<Cursor>, sequence: u64)
    ensures var d := ActivationDelivery(acked, req, prepared, sequence);
            IsBarrierOf(req, sequence, d) && ActivatesAt(acked, req, prepared, sequence, d.cursor.value)
  {
    LeastStart(req.owners);
  }

  // ----- When it is accepted -----

  /** What the store asks of an activation's cursor. Under the head it must keep,
      its boundary is at or past it and set for an open backfill, and a new baseline
      lies below it. Under no head at all although a baseline is named, it must not
      fall behind. */
  predicate CursorActivates(acked: Option<Cursor>, req: DesiredState, c: Cursor) {
    var due := OrElse(HeadOf(acked), CanonicalBaseline(req.owners));
    && (c.canonicalHead.Some? ==> BlockRefOk(c.canonicalHead.value))
    && (if c.canonicalHead == due then
          && (HasOpenBackfill(req) ==> c.activationBoundary.Some?)
          && (c.activationBoundary.Some? ==> c.nextBlock <= c.activationBoundary.value)
          && (acked.Some? && acked.value.canonicalHead.None? && due.Some? ==> due.value.number < c.nextBlock)
        else
          && HeadOf(acked).None? && c.canonicalHead.None?
          && (acked.Some? ==> acked.value.nextBlock <= c.nextBlock))
  }

  lemma ActivationPayload(o: Oracle, req: DesiredState, sequence: u64, d: Delivery)
    requires IsBarrierOf(req, sequence, d)
    ensures PayloadOk(o, req, d) <==> d.cursor.value.canonicalHead.Some? ==> BlockRefOk(d.cursor.value.canonicalHead.value)
  {
  }

  lemma ActivationProgress(acked: Option<Cursor>, req: DesiredState, sequence: u64, d: Delivery)
    requires IsBarrierOf(req, sequence, d) && d.cursor.value.queryRevision == req.newRevision && req.expectedRevision + 1 == req.newRevision
    requires req.expectedRevision == if acked.Some? then acked.value.queryRevision else 0
    requires d.cursor.value.canonicalHead.Some? ==> BlockRefOk(d.cursor.value.canonicalHead.value)
    ensures ProgressOk(acked, req, d) <==> CursorActivates(acked, req, d.cursor.value)
  {
    NotProgress(req, d);
    hide CanonicalBaseline, HasOpenBackfill, ActivationId, ProgressId, Token;
  }

  lemma NotProgress(req: DesiredState, d: Delivery)
    requires d.cursor.Some? && d.payload == Some(Barrier(ActivationId(req.newRevision), None))
    ensures !IsProgressBarrier(d)
  {
    assert ActivationId(req.newRevision)[0] == 'd' && ProgressId(d.queryRevision, d.cursor.value.nextBlock)[0] == 's';
  }

  /** A row without a pending delivery has acknowledged its own revision. */
  lemma SettledRevision(o: Oracle, key: SessionKey, row: Row)
    requires RowValid(o, key, row) && row.pending.None?
    ensures row.revision == if row.acked.Some? then row.acked.value.queryRevision else 0
  {
  }

  /** The row an apply starts from is free for the request. */
  ghost predicate Free(o: Oracle, rows: Rows, req: DesiredState, maxSessions: nat) {
    && (if KeyOf(req) in rows then RowValid(o, KeyOf(req), rows[KeyOf(req)]) else |rows| < maxSessions)
    && var row := RowOf(rows, KeyOf(req));
    row.revision == req.expectedRevision && row.pending.None? && SequenceOf(row.acked) < U64_MAX
  }

  /** The request is well formed, steps one revision and fits the store's integers. */
  predicate Steps(req: DesiredState, prepared: Option<Cursor>) {
    && DesiredStateOk(req) && req.newRevision == req.expectedRevision + 1 && req.newRevision <= I64_MAX
    && (prepared.Some? ==> prepared.value.chainId == req.chainId && prepared.value.queryRevision == req.newRevision)
  }

  /** What a changed apply leaves: one row, with the activation pending and everything
      acknowledged untouched. */
  ghost predicate Activated(rows: Rows, req: DesiredState, prepared: Option<Cursor>, after: Rows, sequence: u64) {
    var key := KeyOf(req);
    var before := RowOf(rows, key);
    && after.Keys == rows.Keys + {key} && (forall k :: k in rows && k != key ==> after[k] == rows[k])
    && var row := after[key];
    && row.revision == req.newRevision && row.desired == Some(req) && row.activationSequence == sequence
    && row.acked == before.acked && row.runtime == before.runtime && row.promise == before.promise
    && sequence == SequenceOf(before.acked) + 1
    && row.pending.Some? && IsBarrierOf(req, sequence, row.pending.value)
    && ActivatesAt(before.acked, req, prepared, sequence, row.pending.value.cursor.value)
  }

  /** The barrier the request would persist. */
  function Due(rows: Rows, req: DesiredState, prepared: Option<Cursor>): Delivery
    requires SequenceOf(RowOf(rows, KeyOf(req)).acked) < U64_MAX
  {
    var acked := RowOf(rows, KeyOf(req)).acked;
    ActivationDelivery(acked, req, prepared, SequenceOf(acked) + 1)
  }

  predicate Fits(o: Oracle, d: Delivery, maxBytes: nat) {
    o.frameLen(d) <= maxBytes && o.frameLen(d) <= MAX_MESSAGE_SIZE_BYTES
  }

  lemma ApplyGuards(o: Oracle, rows: Rows, req: DesiredState, prepared: Option<Cursor>, maxBytes: nat, maxSessions: nat)
    ensures var r := Apply(o, rows, req, prepared, maxBytes, maxSessions);
            var row := RowOf(rows, KeyOf(req));
            && (r.Ok? && r.value.changed <==>
                  && Steps(req, prepared) && Free(o, rows, req, maxSessions)
                  && var d := Due(rows, req, prepared);
                  Fits(o, d, maxBytes) && PayloadOk(o, req, d) && ProgressOk(row.acked, req, d))
            && (r.Ok? && r.value.changed ==>
                  && r.value.activationSequence == SequenceOf(row.acked) + 1
                  && r.value.rows == rows[KeyOf(req) := row.(revision := req.newRevision, desired := Some(req),
                                                             pending := Some(Due(rows, req, prepared)), activationSequence := r.value.activationSequence)])
  {
    SequenceNumbers(RowOf(rows, KeyOf(req)).acked);
    hide RowValid, PayloadOk, ProgressOk, ActivationDelivery, DesiredStateOk, NextSequence;
  }

  lemma DueAccepted(o: Oracle, rows: Rows, req: DesiredState, prepared: Option<Cursor>, maxSessions: nat)
    requires Steps(req, prepared) && Free(o, rows, req, maxSessions)
    ensures var d := Due(rows, req, prepared);
            var acked := RowOf(rows, KeyOf(req)).acked;
            && d.cursor.Some? && IsBarrierOf(req, SequenceOf(acked) + 1, d) && ActivatesAt(acked, req, prepared, SequenceOf(acked) + 1, d.cursor.value)
            && (PayloadOk(o, req, d) && ProgressOk(acked, req, d) <==> CursorActivates(acked, req, d.cursor.value))
  {
    var row := RowOf(rows, KeyOf(req));
    var acked, sequence := row.acked, SequenceOf(row.acked) + 1;
    if KeyOf(req) in rows { SettledRevision(o, KeyOf(req), row); }
    hide RowValid, PayloadOk, ProgressOk, ActivationDelivery, DesiredStateOk;
    ActivationIs(acked, req, prepared, sequence);
    var d := Due(rows, req, prepared);
    ActivationPayload(o, req, sequence, d);
    hide ActivatesAt, IsBarrierOf, CanonicalBaseline, HasOpenBackfill;
    if PayloadOk(o, req, d) { ActivationFits(acked, req, prepared, sequence, d); }
  }

  /** Apply changes the store exactly when the request steps, its row is free, the
      barrier fits a frame and its cursor activates; then it persists that barrier
      at the prepared position. */
  lemma ApplyExact(o: Oracle, rows: Rows, req: DesiredState, prepared: Option<Cursor>, maxBytes: nat, maxSessions: nat)
    ensures var r := Apply(o, rows, req, prepared, maxBytes, maxSessions);
            var acked := RowOf(rows, KeyOf(req)).acked;
            && (r.Ok? && r.value.changed <==>
                  && Steps(req, prepared) && Free(o, rows, req, maxSessions)
                  && var d := Due(rows, req, prepared);
                  Fits(o, d, maxBytes) && d.cursor.Some? && CursorActivates(acked, req, d.cursor.value))
            && (r.Ok? && r.value.changed ==> Activated(rows, req, prepared, r.value.rows, r.value.activationSequence))
  {
    hide Apply, RowValid, PayloadOk, ProgressOk, Due, DesiredStateOk, CursorActivates, ActivatesAt, IsBarrierOf, Fits;
    ApplyGuards(o, rows, req, prepared, maxBytes, maxSessions);
    if Steps(req, prepared) && Free(o, rows, req, maxSessions) { DueAccepted(o, rows, req, prepared, maxSessions); }
  }

  lemma ActivationFits(acked: Option<Cursor>, req: DesiredState, prepared: Option<Cursor>, sequence: u64, d: Delivery)
    requires IsBarrierOf(req, sequence, d) && ActivatesAt(acked, req, prepared, sequence, d.cursor.value)
    requires req.newRevision == req.expectedRevision + 1 && req.expectedRevision == if acked.Some? then acked.value.queryRevision else 0
    requires d.cursor.value.canonicalHead.Some? ==> BlockRefOk(d.cursor.value.canonicalHead.value)
    ensures ProgressOk(acked, req, d) <==> CursorActivates(acked, req, d.cursor.value)
  {
    hide ProgressOk, CursorActivates, FirstBackfill;
    ActivationProgress(acked, req, sequence, d);
  }

  lemma SequenceNumbers(acked: Option<Cursor>)
    ensures NextSequence(acked) == if SequenceOf(acked) < U64_MAX then Some(SequenceOf(acked) + 1) else None
  {
  }

  // ----- Repeating a call -----

  /** Repeating a successful apply answers the same and writes nothing. */
  lemma ApplyTwice(o: Oracle, rows: Rows, req: DesiredState, prepared: Option<Cursor>, maxBytes: nat, maxSessions: nat)
    requires StoreInv(o, rows) && Apply(o, rows, req, prepared, maxBytes, maxSessions).Ok?
    ensures var r := Apply(o, rows, req, prepared, maxBytes, maxSessions).value;
            Apply(o, r.rows, req, prepared, maxBytes, maxSessions) == Ok(Applied(r.rows, r.activationSequence, false))
  {
    ApplyKeepsStore(o, rows, req, prepared, maxBytes, maxSessions);
    var after := Apply(o, rows, req, prepared, maxBytes, maxSessions).value.rows;
    hide RowValid, PayloadOk, ProgressOk, ActivationDelivery, DesiredStateOk, NextSequence, PromiseAnchored;
    assert KeyOf(req) in after;
    assert RowInv(o, KeyOf(req), after[KeyOf(req)]);
  }

  /** Repeating a successful save answers that nothing changed, and nothing does. */
  lemma SaveTwice(o: Oracle, rows: Rows, ds: DesiredState, d: Delivery)
    requires StoreInv(o, rows) && Save(o, rows, ds, d).Ok?
    ensures var r := Save(o, rows, ds, d).value; Save(o, r.rows, ds, d) == Ok(Saved(r.rows, false))
  {
    SaveKeepsStore(o, rows, ds, d);
    var after := Save(o, rows, ds, d).value.rows;
    hide RowValid, PayloadOk, ProgressOk, Certifies, NextSequence, PromiseAnchored, AddressedTo, Token;
    assert RowInv(o, KeyOf(ds), after[KeyOf(ds)]);
  }

  /** Repeating a successful acknowledgement answers the same cursor and writes
      nothing. */
  lemma AckTwice(o: Oracle, rows: Rows, chainId: u64, ack: Acknowledge)
    requires StoreInv(o, rows) && Ack(o, rows, chainId, ack).Ok?
    ensures var r := Ack(o, rows, chainId, ack).value; Ack(o, r.rows, chainId, ack) == Ok(Committed(r.rows, r.cursor, false))
  {
    AckKeepsStore(o, rows, chainId, ack);
    var key := SessionKey(ack.sessionId, chainId);
    var after := Ack(o, rows, chainId, ack).value.rows;
    assert RowInv(o, key, rows[key]) && RowInv(o, key, after[key]);
    if rows[key].pending.Some? { PendingNumbered(o, key, rows[key]); }
    hide RowValid, PromiseAfterAck, PromiseAnchored, Token;
  }

  lemma PendingNumbered(o: Oracle, key: SessionKey, row: Row)
    requires RowValid(o, key, row) && row.pending.Some?
    ensures var d := row.pending.value; d.cursor.Some? && d.cursor.value.batchSequence == d.sequence && d.token == Token(d.sequence)
  {
  }

  // ----- When a save and an acknowledgement are taken -----

  /** The delivery continues the session: addressed to the applied desired state,
      numbered next, within the frame, valid in itself and after what is
      acknowledged, and certifying a promised tip. */
  ghost predicate Continues(o: Oracle, row: Row, ds: DesiredState, d: Delivery) {
    && d.sessionId == ds.sessionId && d.queryRevision == ds.newRevision
    && d.cursor.Some? && d.cursor.value.chainId == ds.chainId && d.cursor.value.queryRevision == ds.newRevision
    && d.sequence == SequenceOf(row.acked) + 1 && d.cursor.value.batchSequence == d.sequence && d.token == Token(d.sequence)
    && o.frameLen(d) <= MAX_MESSAGE_SIZE_BYTES && PayloadOk(o, ds, d) && ProgressOk(row.acked, ds, d)
    && (row.promise.Some? ==> Certifies(d, row.promise.value))
  }

  /** A save is taken exactly for the applied desired state, a delivery that
      continues the session, and an outbox that is empty or already holds it. */
  lemma SaveExact(o: Oracle, rows: Rows, ds: DesiredState, d: Delivery)
    requires StoreInv(o, rows)
    ensures var key := KeyOf(ds);
            && (Save(o, rows, ds, d).Ok? <==>
                  key in rows && rows[key].desired == Some(ds) && Continues(o, rows[key], ds, d) && (rows[key].pending.None? || rows[key].pending == Some(d)))
            && (Save(o, rows, ds, d).Ok? ==>
                  && Save(o, rows, ds, d).value.changed == rows[key].pending.None?
                  && Save(o, rows, ds, d).value.rows == rows[key := rows[key].(pending := Some(d))])
  {
    var key := KeyOf(ds);
    if key in rows {
      assert RowInv(o, key, rows[key]);
      hide RowValid, PayloadOk, ProgressOk, Certifies, Token;
      if rows[key].pending.Some? { assert rows[key := rows[key]] == rows; }
    }
  }

  /** The errors of an acknowledgement, and when each is given. */
  lemma AckErrors(o: Oracle, rows: Rows, chainId: u64, ack: Acknowledge, e: StoreError)
    requires StoreInv(o, rows)
    ensures var key := SessionKey(ack.sessionId, chainId);
            Ack(o, rows, chainId, ack) == Err(e) <==>
            || (e == UnknownSession && key !in rows)
            || (e == NoPendingDelivery && key in rows && rows[key].pending.None? && ack.token == Token(ack.sequence) &&
                (rows[key].acked.None? || rows[key].acked.value.batchSequence != ack.sequence))
            || (e == DeliveryTokenMismatch && key in rows &&
                if rows[key].pending.None? then ack.token != Token(ack.sequence)
                else rows[key].pending.value.sequence != ack.sequence || rows[key].pending.value.token != ack.token)
  {
    var key := SessionKey(ack.sessionId, chainId);
    if key in rows {
      assert RowInv(o, key, rows[key]);
      if rows[key].pending.Some? { assert PendingOk(o, key, rows[key], rows[key].desired.value, rows[key].pending.value); }
      hide Certifies, Token, ProgressOk, DesiredStateOk;
    }
  }
}
