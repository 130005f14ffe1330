/** The durable session store: one row per session and chain, changed by
    compare-and-swap apply, save-pending and acknowledge
    (crates/event-service/src/session_store.rs). */
module SessionStore {
  import opened Protocol
  import opened PayloadRules
  import opened ProgressRules

  datatype Row = Row(
    revision: u64,
    desired: Option<DesiredState>,
    acked: Option<Cursor>,
    runtime: Option<Cursor>,
    pending: Option<Delivery>,
    activationSequence: u64,
    promise: Option<BlockRef>)

  datatype SessionKey = SessionKey(sessionId: string, chainId: u64)

  type Rows = map<SessionKey, Row>

  datatype StoreError =
    | InvalidDesiredState
    | CorruptRow
    | InvalidDelivery
    | IntegerRange
    | PersistedSessionLimit
    | RevisionConflict(expected: u64, committed: u64)
    | PendingDelivery
    | SequenceOverflow
    | DeliveryTooLarge
    | UnknownSession
    | NoPendingDelivery
    | DeliveryTokenMismatch

  function SequenceOf(c: Option<Cursor>): u64 {
    if c.Some? then c.value.batchSequence else 0
  }

  /** Sequence the next delivery must carry, unless sequences are exhausted. */
  function NextSequence(acked: Option<Cursor>): Option<u64> {
    if acked.None? then Some(1)
    else if acked.value.batchSequence == U64_MAX then None
    else Some(acked.value.batchSequence + 1)
  }

  // ----- The validator run on every load -----

  predicate CursorFits(key: SessionKey, revision: u64, c: Cursor) {
    && c.chainId == key.chainId
    && c.queryRevision <= revision
    && c.batchSequence != 0
    && (c.canonicalHead.Some? ==> BlockRefOk(c.canonicalHead.value))
  }

  predicate RuntimeOk(key: SessionKey, row: Row) {
    row.runtime.Some? ==>
      && CursorFits(key, row.revision, row.runtime.value)
      && row.acked.Some?
      && row.runtime.value.batchSequence <= row.acked.value.batchSequence
      && (row.runtime.value.batchSequence == row.acked.value.batchSequence ==> row.runtime == row.acked)
  }

  predicate PromiseOk(row: Row) {
    row.promise.Some? ==>
      && BlockRefOk(row.promise.value)
      && (HeadOf(row.acked).Some? ==> HeadOf(row.acked).value.number < row.promise.value.number)
  }

  /** A pending delivery is the successor the store itself would accept. */
  ghost predicate PendingOk(o: Oracle, key: SessionKey, row: Row, ds: DesiredState, d: Delivery) {
    && d.cursor.Some?
    && NextSequence(row.acked) == Some(d.sequence)
    && d.sessionId == key.sessionId
    && d.queryRevision == row.revision
    && d.sequence == d.cursor.value.batchSequence
    && d.token == Token(d.sequence)
    && d.cursor.value.chainId == key.chainId
    && d.cursor.value.queryRevision == row.revision
    && o.frameLen(d) <= MAX_MESSAGE_SIZE_BYTES
    && PayloadOk(o, ds, d)
    && ProgressOk(row.acked, ds, d)
    && (row.promise.Some? ==>
          && (IsActivationDelivery(d, ds.newRevision) || Certifies(d, row.promise.value))
          && !d.payload.value.Reorg?)
  }

  predicate ActivationOk(row: Row, ds: DesiredState) {
    var ackedSequence := SequenceOf(row.acked);
    var currentSequence := if row.pending.Some? then row.pending.value.sequence else ackedSequence;
    var pendingIsActivation := row.pending.Some? && IsActivationDelivery(row.pending.value, ds.newRevision);
    var ackedHere := row.acked.Some? && row.acked.value.queryRevision == row.revision;
    && row.activationSequence <= currentSequence
    && (if row.activationSequence == 0 then pendingIsActivation || ackedHere
        else if ackedSequence < row.activationSequence then
          pendingIsActivation && row.pending.value.sequence == row.activationSequence
        else ackedHere)
  }

  /** What `validate_persisted_session` accepts. */
  ghost predicate RowValid(o: Oracle, key: SessionKey, row: Row) {
    if row.desired.None? then
      row.revision == 0 && row.acked.None? && row.runtime.None? && row.pending.None? && row.promise.None?
    else
      var ds := row.desired.value;
      && DesiredStateOk(ds)
      && ds.sessionId == key.sessionId && ds.chainId == key.chainId && ds.newRevision == row.revision
      && (row.acked.Some? ==> CursorFits(key, row.revision, row.acked.value))
      && RuntimeOk(key, row)
      && PromiseOk(row)
      && (row.pending.Some? ==> PendingOk(o, key, row, ds, row.pending.value))
      && ActivationOk(row, ds)
  }

  /** The inductive strengthening: a standing promise has an acknowledged
      canonical head strictly below the promised tip. */
  predicate PromiseAnchored(row: Row) {
    row.promise.Some? ==>
      HeadOf(row.acked).Some? && HeadOf(row.acked).value.number < row.promise.value.number
  }

  ghost predicate RowInv(o: Oracle, key: SessionKey, row: Row) {
    RowValid(o, key, row) && PromiseAnchored(row)
  }

  ghost predicate StoreInv(o: Oracle, rows: Rows) {
    forall key :: key in rows ==> RowInv(o, key, rows[key])
  }

  // ----- Transitions -----

  function MinBackfillStart(owners: seq<OwnerInterests>): Option<u64> {
    if owners == [] then None
    else
      var rest := MinBackfillStart(owners[1..]);
      if owners[0].backfill.None? then rest
      else if rest.Some? && rest.value < owners[0].backfill.value.fromBlock then rest
      else Some(owners[0].backfill.value.fromBlock)
  }

  /** Cursor an activation starts from when the source prepared none. */
  function DefaultCursor(acked: Option<Cursor>, req: DesiredState): Cursor {
    if acked.Some? then acked.value
    else
      var start := MinBackfillStart(req.owners);
      Cursor(req.chainId, req.newRevision, if start.Some? then start.value else 0, None, 0, [], None)
  }

  function ActivationDelivery(acked: Option<Cursor>, req: DesiredState, prepared: Option<Cursor>, sequence: u64): Delivery {
    var base := if prepared.Some? then prepared.value else DefaultCursor(acked, req);
    var cursor := base.(queryRevision := req.newRevision, batchSequence := sequence);
    Delivery(req.sessionId, sequence, req.newRevision, Token(sequence), Some(cursor),
             Some(Barrier(ActivationId(req.newRevision), None)), true)
  }

  datatype Applied = Applied(rows: Rows, activationSequence: u64, changed: bool)

  function KeyOf(ds: DesiredState): SessionKey {
    SessionKey(ds.sessionId, ds.chainId)
  }

  predicate PreparedMatches(req: DesiredState, prepared: Option<Cursor>) {
    prepared.Some? ==> prepared.value.chainId == req.chainId && prepared.value.queryRevision == req.newRevision
  }

  const NEW_ROW := Row(0, None, None, None, None, 0, None)

  /** Compare-and-swap of the desired state, enqueuing its activation barrier. */
  ghost function Apply(o: Oracle, rows: Rows, req: DesiredState, prepared: Option<Cursor>,
                       maxBytes: nat, maxSessions: nat): Result<Applied, StoreError>
  {
    var key := KeyOf(req);
    var row := if key in rows then rows[key] else NEW_ROW;
    if !DesiredStateOk(req) then Err(InvalidDesiredState)
    else if key in rows && !RowValid(o, key, row) then Err(CorruptRow)
    else if !PreparedMatches(req, prepared) then Err(InvalidDelivery)
    else if req.expectedRevision > I64_MAX || req.newRevision > I64_MAX then Err(IntegerRange)
    else if key !in rows && maxSessions <= |rows| then Err(PersistedSessionLimit)
    else if row.revision != req.expectedRevision then
      if row.revision == req.newRevision && row.desired == Some(req) then Ok(Applied(rows, row.activationSequence, false))
      else Err(RevisionConflict(req.expectedRevision, row.revision))
    else if req.expectedRevision + 1 != req.newRevision then Err(InvalidDesiredState)
    else if row.pending.Some? then Err(PendingDelivery)
    else if NextSequence(row.acked).None? then Err(SequenceOverflow)
    else
      var sequence := NextSequence(row.acked).value;
      var d := ActivationDelivery(row.acked, req, prepared, sequence);
      if o.frameLen(d) > maxBytes || o.frameLen(d) > MAX_MESSAGE_SIZE_BYTES then Err(DeliveryTooLarge)
      else if !PayloadOk(o, req, d) || !ProgressOk(row.acked, req, d) then Err(InvalidDelivery)
      else
        var next := row.(revision := req.newRevision, desired := Some(req), pending := Some(d), activationSequence := sequence);
        Ok(Applied(rows[key := next], sequence, true))
  }

  datatype Saved = Saved(rows: Rows, changed: bool)

  predicate AddressedTo(ds: DesiredState, d: Delivery) {
    && d.cursor.Some?
    && d.sessionId == ds.sessionId
    && d.cursor.value.chainId == ds.chainId
    && d.queryRevision == ds.newRevision
    && d.cursor.value.queryRevision == ds.newRevision
  }

  /** Persists the single in-flight delivery. */
  ghost function Save(o: Oracle, rows: Rows, ds: DesiredState, d: Delivery): Result<Saved, StoreError> {
    var key := KeyOf(ds);
    if !AddressedTo(ds, d) then Err(InvalidDelivery)
    else if key !in rows then Err(UnknownSession)
    else
      var row := rows[key];
      if !RowValid(o, key, row) then Err(CorruptRow)
      else if row.desired.None? then Err(UnknownSession)
      else if row.desired.value != ds then Err(InvalidDelivery)
      else if d.sequence != d.cursor.value.batchSequence || d.token != Token(d.sequence) || d.payload.None? then Err(InvalidDelivery)
      else if NextSequence(row.acked).None? then Err(SequenceOverflow)
      else if NextSequence(row.acked) != Some(d.sequence) then Err(InvalidDelivery)
      else if o.frameLen(d) > MAX_MESSAGE_SIZE_BYTES then Err(DeliveryTooLarge)
      else if !PayloadOk(o, ds, d) || !ProgressOk(row.acked, ds, d) then Err(InvalidDelivery)
      else if row.promise.Some? && !Certifies(d, row.promise.value) then Err(InvalidDelivery)
      else if row.pending.Some? then
        if row.pending == Some(d) then Ok(Saved(rows, false)) else Err(PendingDelivery)
      else Ok(Saved(rows[key := row.(pending := Some(d))], true))
  }

  datatype Committed = Committed(rows: Rows, cursor: Cursor, changed: bool)

  /** The row once its pending delivery is acknowledged. */
  ghost function AckedRow(row: Row, d: Delivery, cursor: Cursor): Row {
    row.(acked := Some(cursor),
         runtime := if d.checkpointNeutral then row.runtime else Some(cursor),
         pending := None,
         promise := PromiseAfterAck(row.promise, d))
  }

  /** Commits the pending delivery's cursor and clears the outbox. */
  ghost function Ack(o: Oracle, rows: Rows, chainId: u64, ack: Acknowledge): Result<Committed, StoreError> {
    var key := SessionKey(ack.sessionId, chainId);
    if key !in rows then Err(UnknownSession)
    else
      var row := rows[key];
      if !RowValid(o, key, row) then Err(CorruptRow)
      else if row.pending.None? then
        if row.acked.Some? && row.acked.value.batchSequence == ack.sequence && ack.token == Token(ack.sequence)
        then Ok(Committed(rows, row.acked.value, false))
        else if ack.token != Token(ack.sequence) then Err(DeliveryTokenMismatch)
        else Err(NoPendingDelivery)
      else
        var d := row.pending.value;
        if d.sequence != ack.sequence || d.token != ack.token then Err(DeliveryTokenMismatch)
        else if d.payload.Some? && d.payload.value.Reorg? && (row.promise.Some? || d.payload.value.newTip.None?) then Err(InvalidDelivery)
        else if d.cursor.None? then Err(InvalidDelivery)
        else Ok(Committed(rows[key := AckedRow(row, d, d.cursor.value)], d.cursor.value, true))
  }

  // ----- What each transition leaves alone -----

  /** Row of `key`, or the row a first apply starts from. */
  function RowOf(rows: Rows, key: SessionKey): Row {
    if key in rows then rows[key] else NEW_ROW
  }

  /** Acknowledged state is untouched, and an occupied outbox is untouched too. */
  ghost predicate KeepsAcked(rows: Rows, next: Rows, key: SessionKey) {
    var before, after := RowOf(rows, key), RowOf(next, key);
    && (key in rows ==> key in next)
    && after.acked == before.acked && after.runtime == before.runtime && after.promise == before.promise
    && (before.pending.Some? ==> after == before)
  }

  lemma ApplyKeepsAcked(o: Oracle, rows: Rows, req: DesiredState, prepared: Option<Cursor>, maxBytes: nat, maxSessions: nat, key: SessionKey)
    ensures var r := Apply(o, rows, req, prepared, maxBytes, maxSessions);
            r.Ok? ==> KeepsAcked(rows, r.value.rows, key)
  {
  }

  lemma SaveKeepsAcked(o: Oracle, rows: Rows, ds: DesiredState, d: Delivery, key: SessionKey)
    ensures var r := Save(o, rows, ds, d);
            r.Ok? ==> KeepsAcked(rows, r.value.rows, key)
  {
  }

  /** Which acknowledgements newly commit something, and what they commit. */
  lemma AckEffect(o: Oracle, rows: Rows, chainId: u64, ack: Acknowledge, key: SessionKey)
    requires StoreInv(o, rows)
    ensures var r := Ack(o, rows, chainId, ack);
            var here := key == SessionKey(ack.sessionId, chainId) && key in rows;
            && (r.Ok? && r.value.changed && here <==>
                  here && rows[key].pending.Some? && rows[key].pending.value.sequence == ack.sequence
                  && rows[key].pending.value.token == ack.token)
            && (r.Ok? ==>
                  if r.value.changed && here then
                    && rows[key].pending.value.cursor.Some?
                    && r.value.rows == rows[key := AckedRow(rows[key], rows[key].pending.value, rows[key].pending.value.cursor.value)]
                  else RowOf(r.value.rows, key) == RowOf(rows, key) && (key in rows <==> key in r.value.rows))
  {
    var target := SessionKey(ack.sessionId, chainId);
    if target in rows {
      assert RowInv(o, target, rows[target]);
    }
  }

  // ----- The row invariant is inductive -----

  lemma ApplyKeepsRow(o: Oracle, key: SessionKey, row: Row, req: DesiredState, prepared: Option<Cursor>, sequence: u64)
    requires RowInv(o, key, row) && key == KeyOf(req)
    requires DesiredStateOk(req) && PreparedMatches(req, prepared)
    requires row.revision == req.expectedRevision && req.expectedRevision + 1 == req.newRevision
    requires row.pending.None? && NextSequence(row.acked) == Some(sequence)
    requires var d := ActivationDelivery(row.acked, req, prepared, sequence);
             o.frameLen(d) <= MAX_MESSAGE_SIZE_BYTES && PayloadOk(o, req, d) && ProgressOk(row.acked, req, d)
    ensures RowInv(o, key, row.(revision := req.newRevision, desired := Some(req),
                                pending := Some(ActivationDelivery(row.acked, req, prepared, sequence)),
                                activationSequence := sequence))
  {
    var d := ActivationDelivery(row.acked, req, prepared, sequence);
    assert IsActivationDelivery(d, req.newRevision);
    assert d.cursor.value.chainId == key.chainId;
  }

  lemma SaveKeepsRow(o: Oracle, key: SessionKey, row: Row, ds: DesiredState, d: Delivery)
    requires RowInv(o, key, row) && row.desired == Some(ds) && AddressedTo(ds, d)
    requires d.sequence == d.cursor.value.batchSequence && d.token == Token(d.sequence)
    requires row.pending.None? && NextSequence(row.acked) == Some(d.sequence)
    requires o.frameLen(d) <= MAX_MESSAGE_SIZE_BYTES && PayloadOk(o, ds, d) && ProgressOk(row.acked, ds, d)
    requires row.promise.Some? ==> Certifies(d, row.promise.value)
    ensures RowInv(o, key, row.(pending := Some(d)))
  {
  }

  /** A delivery acknowledged under a standing promise it does not fulfil is an
      activation barrier, and leaves the acknowledged head where it was. */
  lemma UnfulfilledAckKeepsHead(o: Oracle, key: SessionKey, row: Row, d: Delivery)
    requires RowInv(o, key, row) && row.desired.Some? && row.pending == Some(d)
    requires row.promise.Some? && !Certifies(d, row.promise.value)
    ensures IsActivationDelivery(d, row.revision)
    ensures d.cursor.value.canonicalHead == HeadOf(row.acked)
  {
  }

  lemma AckKeepsRow(o: Oracle, key: SessionKey, row: Row, d: Delivery)
    requires RowInv(o, key, row) && row.pending == Some(d)
    ensures d.cursor.Some?
    ensures RowInv(o, key, AckedRow(row, d, d.cursor.value))
  {
    var ds := row.desired.value;
    assert PendingOk(o, key, row, ds, d);
    var next := AckedRow(row, d, d.cursor.value);
    assert CursorFits(key, next.revision, next.acked.value);
    if row.promise.Some? && !Certifies(d, row.promise.value) {
      UnfulfilledAckKeepsHead(o, key, row, d);
    }
    assert PromiseAnchored(next) && PromiseOk(next);
  }

  /** Whatever apply writes keeps every row acceptable to the loader. */
  lemma ApplyKeepsStore(o: Oracle, rows: Rows, req: DesiredState, prepared: Option<Cursor>, maxBytes: nat, maxSessions: nat)
    requires StoreInv(o, rows)
    ensures var r := Apply(o, rows, req, prepared, maxBytes, maxSessions);
            r.Ok? ==> StoreInv(o, r.value.rows)
  {
    var r := Apply(o, rows, req, prepared, maxBytes, maxSessions);
    if r.Ok? && r.value.changed {
      var key := KeyOf(req);
      var row := if key in rows then rows[key] else NEW_ROW;
      assert RowInv(o, key, row);
      ApplyKeepsRow(o, key, row, req, prepared, NextSequence(row.acked).value);
    }
  }

  lemma SaveKeepsStore(o: Oracle, rows: Rows, ds: DesiredState, d: Delivery)
    requires StoreInv(o, rows)
    ensures var r := Save(o, rows, ds, d); r.Ok? ==> StoreInv(o, r.value.rows)
  {
    var r := Save(o, rows, ds, d);
    if r.Ok? && r.value.changed {
      SaveKeepsRow(o, KeyOf(ds), rows[KeyOf(ds)], ds, d);
    }
  }

  lemma AckKeepsStore(o: Oracle, rows: Rows, chainId: u64, ack: Acknowledge)
    requires StoreInv(o, rows)
    ensures var r := Ack(o, rows, chainId, ack); r.Ok? ==> StoreInv(o, r.value.rows)
  {
    var r := Ack(o, rows, chainId, ack);
    if r.Ok? && r.value.changed {
      var key := SessionKey(ack.sessionId, chainId);
      AckKeepsRow(o, key, rows[key], rows[key].pending.value);
    }
  }

  // ----- The store itself -----

  /** The pending-delivery half of the row validator. */
  method ValidatePending(o: Oracle, key: SessionKey, row: Row, ds: DesiredState, d: Delivery) returns (ok: bool)
    ensures ok <==> PendingOk(o, key, row, ds, d)
  {
    if d.cursor.None? || NextSequence(row.acked).None? { return false; }
    var c := d.cursor.value;
    if d.sessionId != key.sessionId || d.queryRevision != row.revision
       || NextSequence(row.acked) != Some(d.sequence) || d.sequence != c.batchSequence
       || d.token != Token(d.sequence) || d.payload.None?
       || c.chainId != key.chainId || c.queryRevision != row.revision
    {
      return false;
    }
    if o.frameLen(d) > MAX_MESSAGE_SIZE_BYTES { return false; }
    var payloadOk := ValidateDeliveryPayload(o, ds, d);
    if !payloadOk { return false; }
    var progressOk := ValidateDeliveryProgress(row.acked, ds, d);
    if !progressOk { return false; }
    if row.promise.Some? {
      if !IsActivationDelivery(d, ds.newRevision) {
        var certifies := CertifiesReorgTip(d, row.promise.value);
        if !certifies { return false; }
      }
      if d.payload.value.Reorg? { return false; }
    }
    ok := true;
  }

  /** The validator run on every load decides exactly `RowValid`. */
  method ValidatePersistedSession(o: Oracle, key: SessionKey, row: Row) returns (ok: bool)
    ensures ok <==> RowValid(o, key, row)
  {
    if row.desired.None? {
      return row.revision == 0 && row.acked.None? && row.runtime.None? && row.pending.None? && row.promise.None?;
    }
    var ds := row.desired.value;
    if !DesiredStateOk(ds) || ds.sessionId != key.sessionId || ds.chainId != key.chainId || ds.newRevision != row.revision {
      return false;
    }
    if row.acked.Some? && !CursorFits(key, row.revision, row.acked.value) { return false; }
    if !RuntimeOk(key, row) || !PromiseOk(row) { return false; }
    if row.pending.Some? {
      var pendingOk := ValidatePending(o, key, row, ds, row.pending.value);
      if !pendingOk { return false; }
    }
    ok := ActivationOk(row, ds);
  }

  class Store {
    const oracle: Oracle
    var rows: Rows

    constructor (oracle: Oracle)
      ensures this.oracle == oracle && rows == map[]
    {
      this.oracle := oracle;
      rows := map[];
    }

    method ApplyDesiredState(req: DesiredState, prepared: Option<Cursor>, maxBytes: nat, maxSessions: nat)
      returns (r: Result<(u64, bool), StoreError>)
      modifies this`rows
      ensures match Apply(oracle, old(rows), req, prepared, maxBytes, maxSessions)
              case Ok(a) => rows == a.rows && r == Ok((a.activationSequence, a.changed))
              case Err(e) => rows == old(rows) && r == Err(e)
    {
      if !DesiredStateOk(req) { return Err(InvalidDesiredState); }
      var key := KeyOf(req);
      var row := NEW_ROW;
      if key in rows {
        row := rows[key];
        var valid := ValidatePersistedSession(oracle, key, row);
        if !valid { return Err(CorruptRow); }
      }
      if !PreparedMatches(req, prepared) { return Err(InvalidDelivery); }
      if req.expectedRevision > I64_MAX || req.newRevision > I64_MAX { return Err(IntegerRange); }
      if key !in rows && maxSessions <= |rows| { return Err(PersistedSessionLimit); }
      if row.revision != req.expectedRevision {
        if row.revision == req.newRevision && row.desired == Some(req) {
          return Ok((row.activationSequence, false));
        }
        return Err(RevisionConflict(req.expectedRevision, row.revision));
      }
      if req.expectedRevision + 1 != req.newRevision { return Err(InvalidDesiredState); }
      if row.pending.Some? { return Err(PendingDelivery); }
      if NextSequence(row.acked).None? { return Err(SequenceOverflow); }
      var sequence := NextSequence(row.acked).value;
      var d := ActivationDelivery(row.acked, req, prepared, sequence);
      if oracle.frameLen(d) > maxBytes || oracle.frameLen(d) > MAX_MESSAGE_SIZE_BYTES { return Err(DeliveryTooLarge); }
      var payloadOk := ValidateDeliveryPayload(oracle, req, d);
      if !payloadOk { return Err(InvalidDelivery); }
      var progressOk := ValidateDeliveryProgress(row.acked, req, d);
      if !progressOk { return Err(InvalidDelivery); }
      rows := rows[key := row.(revision := req.newRevision, desired := Some(req), pending := Some(d), activationSequence := sequence)];
      r := Ok((sequence, true));
    }

    method SavePending(ds: DesiredState, d: Delivery) returns (r: Result<bool, StoreError>)
      modifies this`rows
      ensures match Save(oracle, old(rows), ds, d)
              case Ok(s) => rows == s.rows && r == Ok(s.changed)
              case Err(e) => rows == old(rows) && r == Err(e)
    {
      if !AddressedTo(ds, d) { return Err(InvalidDelivery); }
      var key := KeyOf(ds);
      if key !in rows { return Err(UnknownSession); }
      var row := rows[key];
      var valid := ValidatePersistedSession(oracle, key, row);
      if !valid { return Err(CorruptRow); }
      if row.desired.None? { return Err(UnknownSession); }
      if row.desired.value != ds { return Err(InvalidDelivery); }
      if d.sequence != d.cursor.value.batchSequence || d.token != Token(d.sequence) || d.payload.None? {
        return Err(InvalidDelivery);
      }
      if NextSequence(row.acked).None? { return Err(SequenceOverflow); }
      if NextSequence(row.acked) != Some(d.sequence) { return Err(InvalidDelivery); }
      if oracle.frameLen(d) > MAX_MESSAGE_SIZE_BYTES { return Err(DeliveryTooLarge); }
      var payloadOk := ValidateDeliveryPayload(oracle, ds, d);
      if !payloadOk { return Err(InvalidDelivery); }
      var progressOk := ValidateDeliveryProgress(row.acked, ds, d);
      if !progressOk { return Err(InvalidDelivery); }
      if row.promise.Some? {
        var certifies := CertifiesReorgTip(d, row.promise.value);
        if !certifies { return Err(InvalidDelivery); }
      }
      if row.pending.Some? {
        if row.pending == Some(d) { return Ok(false); }
        return Err(PendingDelivery);
      }
      rows := rows[key := row.(pending := Some(d))];
      r := Ok(true);
    }

    method AcknowledgeDelivery(chainId: u64, ack: Acknowledge) returns (r: Result<(Cursor, bool), StoreError>)
      modifies this`rows
      ensures match Ack(oracle, old(rows), chainId, ack)
              case Ok(c) => rows == c.rows && r == Ok((c.cursor, c.changed))
              case Err(e) => rows == old(rows) && r == Err(e)
    {
      var key := SessionKey(ack.sessionId, chainId);
      if key !in rows { return Err(UnknownSession); }
      var row := rows[key];
      var valid := ValidatePersistedSession(oracle, key, row);
      if !valid { return Err(CorruptRow); }
      if row.pending.None? {
        if row.acked.Some? && row.acked.value.batchSequence == ack.sequence && ack.token == Token(ack.sequence) {
          return Ok((row.acked.value, false));
        }
        return Err(if ack.token != Token(ack.sequence) then DeliveryTokenMismatch else NoPendingDelivery);
      }
      var d := row.pending.value;
      if d.sequence != ack.sequence || d.token != ack.token { return Err(DeliveryTokenMismatch); }
      var promise := row.promise;
      if d.payload.Some? && d.payload.value.Reorg? {
        if row.promise.Some? || d.payload.value.newTip.None? { return Err(InvalidDelivery); }
        promise := d.payload.value.newTip;
      } else if row.promise.Some? {
        var certifies := CertifiesReorgTip(d, row.promise.value);
        if certifies { promise := None; }
      }
      if d.cursor.None? { return Err(InvalidDelivery); }
      var cursor := d.cursor.value;
      var runtime := if d.checkpointNeutral then row.runtime else Some(cursor);
      rows := rows[key := row.(acked := Some(cursor), runtime := runtime, pending := None, promise := promise)];
      r := Ok((cursor, true));
    }
  }
}
