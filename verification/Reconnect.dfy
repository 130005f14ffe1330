/** Reconnecting across the crash window between a client checkpoint and its
    acknowledgement (crates/event-service/src/service.rs,
    `validate_hello_position`, `resume_matches_cursor`). */
module Reconnect {
  import opened Protocol
  import opened PayloadRules
  import opened ProgressRules
  import opened SessionStore
  import opened SessionRuns

  datatype Resume = Resume(token: Bytes, providerCheckpoint: Option<Bytes>, coverageHead: Option<BlockRef>)

  datatype Hello = Hello(acknowledgedSequence: u64, resume: Option<Resume>)

  datatype Position = Confirmed | DiscoveryOnly | Refused

  /** The proof names the expected token, checkpoint and coverage of a cursor. */
  predicate ResumeMatches(resume: Resume, token: Bytes, c: Cursor) {
    && resume.token == token
    && resume.providerCheckpoint == (if c.providerCheckpoint == [] then None else Some(c.providerCheckpoint))
    && resume.coverageHead == c.canonicalHead
  }

  function HelloPosition(hello: Hello, row: Row): Position {
    var runtimeSequence := SequenceOf(row.runtime);
    if hello.resume.None? then
      if hello.acknowledgedSequence == runtimeSequence then Confirmed
      else if hello.acknowledgedSequence == 0 then DiscoveryOnly
      else Refused
    else if hello.acknowledgedSequence == runtimeSequence then
      if row.runtime.Some? && ResumeMatches(hello.resume.value, Token(hello.acknowledgedSequence), row.runtime.value)
      then Confirmed else Refused
    else
      var expected := NextSequence(row.acked);
      if expected.None? || row.pending.None? || row.pending.value.cursor.None? then Refused
      else
        var d := row.pending.value;
        if hello.acknowledgedSequence != expected.value || d.sequence != expected.value || d.token != hello.resume.value.token
        then Refused
        else if ResumeMatches(hello.resume.value, d.token, d.cursor.value) then Confirmed
        else Refused
  }

  /** Only the runtime sequence or the pending one can be confirmed, and a proof
      is confirmed exactly when it is the proof of that runtime cursor or of
      that pending delivery. */
  lemma ConfirmedOnlyAtAuthority(o: Oracle, key: SessionKey, row: Row, hello: Hello)
    requires RowInv(o, key, row)
    ensures HelloPosition(hello, row) == Confirmed <==>
            if hello.resume.None? then hello.acknowledgedSequence == SequenceOf(row.runtime)
            else
              || (row.runtime.Some? && hello == HelloOf(row.runtime.value))
              || (row.pending.Some? && row.pending.value.cursor.Some? && hello == HelloOf(row.pending.value.cursor.value))
    ensures HelloPosition(hello, row) == Confirmed ==>
            || hello.acknowledgedSequence == SequenceOf(row.runtime)
            || (row.pending.Some? && hello.acknowledgedSequence == row.pending.value.sequence)
    ensures HelloPosition(hello, row) == DiscoveryOnly <==>
            hello.resume.None? && hello.acknowledgedSequence == 0 && SequenceOf(row.runtime) != 0
  {
    if row.pending.Some? {
      assert PendingOk(o, key, row, row.desired.value, row.pending.value);
    }
  }

  /** The hello of a client whose checkpoint embodies the delivery at `c`. */
  function HelloOf(c: Cursor): Hello {
    Hello(c.batchSequence,
          Some(Resume(Token(c.batchSequence),
                      if c.providerCheckpoint == [] then None else Some(c.providerCheckpoint),
                      c.canonicalHead)))
  }

  // ----- A checkpointing client beside the store -----

  /** The client checkpoints each cache-affecting delivery before it sends the
      acknowledgement; acknowledgements in flight may be lost, repeated or late. */
  datatype System = System(rows: Rows, checkpoint: Option<Cursor>, sent: set<Acknowledge>)

  datatype Event =
    | Call(op: Op)                    // apply or save by the service
    | Checkpoint                      // the client ingests and persists the pending delivery
    | Send                            // the client acknowledges the pending delivery
    | Receive(ack: Acknowledge)       // the store processes some sent acknowledgement
    | Crash                           // either side restarts

  function PresentedHello(s: System): Hello {
    if s.checkpoint.None? then Hello(0, None) else HelloOf(s.checkpoint.value)
  }

  function AckFor(key: SessionKey, d: Delivery): Acknowledge {
    Acknowledge(key.sessionId, d.sequence, d.token)
  }

  /** The client has durably applied the pending delivery, or need not. */
  predicate Ingested(s: System, d: Delivery) {
    d.checkpointNeutral || (d.cursor.Some? && s.checkpoint == d.cursor)
  }

  ghost predicate Enabled(s: System, key: SessionKey, e: Event) {
    var pending := RowOf(s.rows, key).pending;
    match e
    case Call(op) => !op.AckOp?
    case Checkpoint => pending.Some? && pending.value.cursor.Some? && !pending.value.checkpointNeutral
    case Send => pending.Some? && Ingested(s, pending.value)
    case Receive(ack) => ack in s.sent
    case Crash => true
  }

  ghost function Step(o: Oracle, s: System, key: SessionKey, e: Event): System
    requires Enabled(s, key, e)
  {
    match e
    case Call(op) => s.(rows := Exec(o, s.rows, op))
    case Checkpoint => s.(checkpoint := RowOf(s.rows, key).pending.value.cursor)
    case Send => s.(sent := s.sent + {AckFor(key, RowOf(s.rows, key).pending.value)})
    case Receive(ack) => s.(rows := Exec(o, s.rows, AckOp(key.chainId, ack)))
    case Crash => s
  }

  ghost predicate Behaviour(o: Oracle, key: SessionKey, trace: seq<System>, events: seq<Event>) {
    && |trace| == |events| + 1
    && trace[0] == System(map[], None, {})
    && forall i :: 0 <= i < |events| ==> Enabled(trace[i], key, events[i]) && trace[i + 1] == Step(o, trace[i], key, events[i])
  }

  /** The checkpoint is the runtime cursor or the pending delivery's cursor, and
      any acknowledgement that could commit the outbox was sent after ingesting it. */
  ghost predicate WindowInv(o: Oracle, key: SessionKey, s: System) {
    var row := RowOf(s.rows, key);
    && StoreInv(o, s.rows)
    && (s.checkpoint == row.runtime ||
        (row.pending.Some? && !row.pending.value.checkpointNeutral && s.checkpoint == row.pending.value.cursor))
    && (forall ack | ack in s.sent ::
          && ack.sessionId == key.sessionId
          && ack.sequence <= SequenceOf(row.acked) + (if row.pending.Some? then 1 else 0)
          && (row.pending.Some? && ack.sequence == row.pending.value.sequence ==> Ingested(s, row.pending.value)))
  }

  lemma RowKept(o: Oracle, rows: Rows, key: SessionKey)
    requires StoreInv(o, rows)
    ensures RowInv(o, key, RowOf(rows, key))
  {
  }

  lemma ExecKeepsStore(o: Oracle, rows: Rows, op: Op)
    requires StoreInv(o, rows)
    ensures StoreInv(o, Exec(o, rows, op))
  {
    match op
    case ApplyOp(req, prepared, maxBytes, maxSessions) => ApplyKeepsStore(o, rows, req, prepared, maxBytes, maxSessions);
    case SaveOp(ds, d) => SaveKeepsStore(o, rows, ds, d);
    case AckOp(chainId, ack) => AckKeepsStore(o, rows, chainId, ack);
  }

  /** A pending delivery carries the sequence right after the acknowledged one. */
  lemma PendingSequence(o: Oracle, rows: Rows, key: SessionKey)
    requires StoreInv(o, rows) && RowOf(rows, key).pending.Some?
    ensures var row := RowOf(rows, key);
            && row.pending.value.sequence == SequenceOf(row.acked) + 1
            && row.pending.value.cursor.Some?
            && row.pending.value.cursor.value.batchSequence == row.pending.value.sequence
            && row.pending.value.token == Token(row.pending.value.sequence)
  {
    RowKept(o, rows, key);
    var row := RowOf(rows, key);
    assert PendingOk(o, key, row, row.desired.value, row.pending.value);
  }

  lemma ServiceCallKeepsWindow(o: Oracle, key: SessionKey, s: System, op: Op)
    requires WindowInv(o, key, s) && !op.AckOp?
    ensures WindowInv(o, key, s.(rows := Exec(o, s.rows, op)))
  {
    var next := Exec(o, s.rows, op);
    ExecKeepsStore(o, s.rows, op);
    CallEffect(o, s.rows, key, op);
    if RowOf(next, key).pending.Some? {
      PendingSequence(o, next, key);
    }
  }

  lemma ReceiveKeepsWindow(o: Oracle, key: SessionKey, s: System, ack: Acknowledge)
    requires WindowInv(o, key, s) && ack in s.sent
    ensures WindowInv(o, key, s.(rows := Exec(o, s.rows, AckOp(key.chainId, ack))))
  {
    var op := AckOp(key.chainId, ack);
    ExecKeepsStore(o, s.rows, op);
    CallEffect(o, s.rows, key, op);
    if RowOf(s.rows, key).pending.Some? {
      PendingSequence(o, s.rows, key);
    }
  }

  lemma StepKeepsWindow(o: Oracle, key: SessionKey, s: System, e: Event)
    requires WindowInv(o, key, s) && Enabled(s, key, e)
    ensures WindowInv(o, key, Step(o, s, key, e))
  {
    match e
    case Call(op) => ServiceCallKeepsWindow(o, key, s, op);
    case Checkpoint =>
    case Send => PendingSequence(o, s.rows, key);
    case Receive(ack) => ReceiveKeepsWindow(o, key, s, ack);
    case Crash =>
  }

  lemma {:induction false} WindowHolds(o: Oracle, key: SessionKey, trace: seq<System>, events: seq<Event>, i: nat)
    requires Behaviour(o, key, trace, events) && i < |trace|
    ensures WindowInv(o, key, trace[i])
    decreases i
  {
    if i > 0 {
      WindowHolds(o, key, trace, events, i - 1);
      StepKeepsWindow(o, key, trace[i - 1], events[i - 1]);
    }
  }

  /** At every point of every interleaving of service calls, client checkpoints,
      lost or repeated acknowledgements and crashes, the hello the client would
      present is confirmed. */
  lemma AlwaysConfirmed(o: Oracle, key: SessionKey, trace: seq<System>, events: seq<Event>, i: nat)
    requires Behaviour(o, key, trace, events) && i < |trace|
    ensures HelloPosition(PresentedHello(trace[i]), RowOf(trace[i].rows, key)) == Confirmed
  {
    WindowHolds(o, key, trace, events, i);
    var row := RowOf(trace[i].rows, key);
    RowKept(o, trace[i].rows, key);
    ConfirmedOnlyAtAuthority(o, key, row, PresentedHello(trace[i]));
    if row.pending.Some? {
      PendingSequence(o, trace[i].rows, key);
    }
  }
}
