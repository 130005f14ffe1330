/** What one pump step does, said over its batches and heights
    (crates/remote/src/hybrid.rs, `emit_buffered_live`, `buffer_live`,
    `emit_historical`, the acknowledgement of a delivery). */
module HybridPump {
  import opened Protocol
  import opened HybridCutover

  // ----- Draining -----

  /** What is left of a batch above the boundary: exactly its heights above it. */
  lemma AboveExact(span: Option<Span>, through: nat)
    requires WellFormed(span)
    ensures Heights(Above(span, Some(through))) == set h: nat | h in Heights(span) && h > through
    ensures Above(span, Some(through)).None? <==> forall h: nat :: h in Heights(span) ==> h <= through
  {
    if span.Some? { assert Within(span.value.last, span.value) && span.value.last in Heights(span); }
  }

  /** Nothing to hand out: no token, no control, and no height above the boundary. */
  predicate Silent(b: LiveBatch, through: Option<nat>) {
    !b.tokened && !b.extra && (b.span.Some? ==> through.Some? && b.span.value.last <= through.value)
  }

  /** Draining skips exactly the silent batches before the first that is not, hands
      out what is left of that one, and goes live when there is none. */
  lemma {:induction false} DrainExact(p: Pump) returns (k: nat)
    requires p.output.None?
    ensures k <= |p.buffer| && forall i :: 0 <= i < k ==> Silent(p.buffer[i], p.drainThrough)
    ensures k == |p.buffer| ==>
              (DrainBuffered(p) == p.(buffer := [], phase := Live, fence := None, drainThrough := None, ackThrough := None))
    ensures k < |p.buffer| ==>
              && !Silent(p.buffer[k], p.drainThrough)
              && DrainBuffered(p) == p.(buffer := p.buffer[k + 1..], output := Some(FromLive(Above(p.buffer[k].span, p.drainThrough))))
    decreases |p.buffer|
  {
    if p.buffer == [] || !Silent(p.buffer[0], p.drainThrough) {
      k := 0;
    } else {
      var rest := p.buffer[1..];
      var j := DrainExact(p.(buffer := rest));
      k := j + 1;
      assert forall i :: 0 <= i < |rest| ==> rest[i] == p.buffer[i + 1];
      forall i | 0 <= i < k ensures Silent(p.buffer[i], p.drainThrough) { if i > 0 { assert Silent(rest[i - 1], p.drainThrough); } }
      if j < |rest| { assert rest[j + 1..] == p.buffer[k + 1..]; }
    }
  }

  // ----- Buffering -----

  /** A batch is refused exactly when it carries a token over no heights; otherwise
      it goes to the end of the buffer, and the first heights set the fence just
      below their last. */
  lemma BufferExact(p: Pump, b: LiveBatch)
    requires !p.phase.Poisoned?
    ensures var q := BufferLive(p, b);
            && (q.phase.Poisoned? <==> b.tokened && b.span.None?)
            && (q.phase.Poisoned? ==> q == p.(phase := Poisoned))
            && (!q.phase.Poisoned? ==> q.buffer == p.buffer + [b] && q.output == p.output && q.cutover == p.cutover)
            && (!q.phase.Poisoned? && (p.fence.Some? || b.span.None?) ==> q.fence == p.fence)
            && (!q.phase.Poisoned? && p.fence.None? && b.span.Some? ==>
                  q.fence.Some? && (q.fence.value + 1 == b.span.value.last || (b.span.value.last == 0 && q.fence.value == 0)))
  {
  }

  // ----- Acknowledging -----

  /** While history fills, what is acknowledged through is the highest page so far. */
  lemma AcknowledgedThrough(p: Pump)
    requires p.output.Some? && Filling(p) && p.cutover.None?
    ensures var q, o := Acknowledged(p), p.output.value;
            && q.phase == p.phase && q.output.None? && q.buffer == p.buffer && q.fence == p.fence
            && (o.FromLive? || o.span.None? ==> q.ackThrough == p.ackThrough)
            && (o.FromHistory? && o.span.Some? ==>
                  && q.ackThrough.Some? && q.ackThrough.value >= o.span.value.last
                  && (p.ackThrough.Some? ==> q.ackThrough.value >= p.ackThrough.value)
                  && (q.ackThrough == Some(o.span.value.last) || q.ackThrough == p.ackThrough))
  {
  }

  /** Acknowledging the page that cuts over starts draining behind its last height,
      or goes live when nothing is buffered. */
  lemma CutoverAcknowledged(p: Pump)
    requires p.output.Some? && p.output.value.FromHistory? && p.cutover.Some?
    ensures var q := Acknowledged(p);
            if p.buffer == [] then
              q == p.(phase := Live, output := None, cutover := None, fence := None, drainThrough := None, ackThrough := None)
            else q == p.(phase := DrainingLive, output := None, cutover := None, drainThrough := p.cutover, ackThrough := None)
  {
  }

  // ----- Over every run -----

  /** Only the last buffered batch holds a token. */
  predicate TokenLast(buffer: seq<LiveBatch>) {
    forall k :: 0 <= k < |buffer| - 1 ==> !buffer[k].tokened
  }

  /** At most one live token is held back, and history that reaches the fence cuts
      over: while it fills with no cutover pending, neither what is acknowledged nor
      the page in flight has reached the fence. */
  predicate Prompt(p: Pump) {
    && TokenLast(p.buffer)
    && (p.phase.DrainingLive? || p.phase.Live? ==> p.ackThrough.None? && p.cutover.None?)
    && (p.cutover.Some? ==> p.output.Some? && p.output.value.FromHistory?)
    && (Filling(p) && p.cutover.None? && p.fence.Some? ==>
          && (p.ackThrough.Some? ==> p.ackThrough.value < p.fence.value)
          && (p.output.Some? && p.output.value.FromHistory? && p.output.value.span.Some? ==> p.output.value.span.value.last < p.fence.value))
  }

  lemma TokenTail(buffer: seq<LiveBatch>, k: nat)
    requires TokenLast(buffer) && k <= |buffer|
    ensures TokenLast(buffer[k..])
  {
    forall i | 0 <= i < |buffer[k..]| - 1 ensures !buffer[k..][i].tokened { assert buffer[k..][i] == buffer[k + i]; }
  }

  lemma DrainPrompt(p: Pump)
    requires Prompt(p) && p.output.None? && p.phase.DrainingLive?
    ensures Prompt(DrainBuffered(p))
  {
    var k := DrainExact(p);
    if k < |p.buffer| { TokenTail(p.buffer, k + 1); }
    hide DrainBuffered;
  }

  lemma PromptStep(s: System, e: Event)
    requires Prompt(s.pump) && Enabled(s, e)
    ensures Prompt(Step(s, e).pump)
  {
    if e.Drain? { DrainPrompt(s.pump); }
    if e.LosesBuffered? { TokenTail(s.pump.buffer, e.silent + 1); }
    hide DrainBuffered, Heights;
  }

  /** Over every run of the two children. */
  lemma {:induction false} AlwaysPrompt(start: nat, events: seq<Event>)
    requires Run(Fresh(start), events).Some?
    ensures Prompt(Run(Fresh(start), events).value.pump)
  {
    if events != [] {
      AlwaysPrompt(start, events[..|events| - 1]);
      hide Prompt, Enabled, Step;
      PromptStep(Run(Fresh(start), events[..|events| - 1]).value, events[|events| - 1]);
    }
  }

  /** One poll keeps it too, however its children answer. */
  lemma {:induction false} PollPrompt(p: Pump, answers: seq<Answer>)
    requires Prompt(p)
    ensures Prompt(Poll(p, answers).pump)
    decreases |answers|, if p.phase.DrainingLive? then 1 else 0
  {
    if p.phase.Poisoned? || p.output.Some? {
    } else if p.phase.DrainingLive? {
      if answers != [] && Breaks(p, answers[0]) {
        TokenTail(p.buffer, answers[0].silent + 1);
      } else {
        DrainPrompt(p);
        DrainEnds(p);
        hide DrainBuffered, Prompt;
        if DrainBuffered(p).output.None? { PollPrompt(DrainBuffered(p), answers); }
      }
    } else if answers != [] && Listens(p, answers[0]) {
      HearPrompt(p, answers[0]);
      hide Hear, Prompt, Listens;
      if Hear(p, answers[0]).reply.Waiting? { PollPrompt(Hear(p, answers[0]).pump, answers[1..]); }
    }
  }

  lemma HearPrompt(p: Pump, a: Answer)
    requires Prompt(p) && p.output.None? && !p.phase.DrainingLive? && Listens(p, a)
    ensures Prompt(Hear(p, a).pump)
  {
  }
}
