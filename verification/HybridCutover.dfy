/** The cutover between a historical and a live source, at the level of block
    heights (crates/remote/src/hybrid.rs, `buffer_live`, `emit_historical`,
    `emit_buffered_live`, `emit_live`, `finish_acknowledged_cutover_if_ready`,
    `next_batch`, `acknowledge_delivery`). */
module HybridCutover {
  import opened Protocol

  /** Canonical heights a batch carries, both ends included. */
  datatype Span = Span(first: nat, last: nat)

  /** A live batch: its heights, whether it must be acknowledged to its child, and
      whether it carries anything the overlap rule does not suppress. */
  datatype LiveBatch = LiveBatch(span: Option<Span>, tokened: bool, extra: bool)

  datatype Phase = CatchingUp | DrainingLive | Live | Recovering | Poisoned

  datatype Output = FromHistory(span: Option<Span>) | FromLive(span: Option<Span>)

  datatype Pump = Pump(
    phase: Phase,
    fence: Option<nat>,
    drainThrough: Option<nat>,
    cutover: Option<nat>,
    ackThrough: Option<nat>,
    buffer: seq<LiveBatch>,
    output: Option<Output>)

  predicate Filling(p: Pump) {
    p.phase.CatchingUp? || p.phase.Recovering?
  }

  function Before(n: nat): nat {
    if n == 0 then 0 else n - 1
  }

  function Highest(a: Option<nat>, n: nat): Option<nat> {
    if a.Some? && a.value >= n then a else Some(n)
  }

  // ----- Transitions -----

  /** An acknowledged page that already reached a late fence completes the cutover. */
  function FinishIfReady(p: Pump): Pump {
    if p.fence.Some? && p.ackThrough.Some? && p.ackThrough.value >= p.fence.value && p.cutover.None? && Filling(p)
    then p.(phase := DrainingLive, drainThrough := p.ackThrough, ackThrough := None)
    else p
  }

  function BufferLive(p: Pump, b: LiveBatch): Pump {
    if b.tokened && b.span.None? then p.(phase := Poisoned)
    else
      var fence := if p.fence.None? && b.span.Some? then Some(Before(b.span.value.last)) else p.fence;
      FinishIfReady(p.(fence := fence, buffer := p.buffer + [b]))
  }

  /** The first page at or past the fence becomes the pending cutover. */
  function EmitHistorical(p: Pump, page: Option<Span>): Pump {
    var reaches := p.cutover.None? && p.fence.Some? && page.Some? && page.value.last >= p.fence.value;
    p.(cutover := if reaches then Some(page.value.last) else p.cutover, output := Some(FromHistory(page)))
  }

  /** Heights above the drain boundary. */
  function Above(span: Option<Span>, through: Option<nat>): Option<Span> {
    if span.None? || through.None? then span
    else if span.value.last <= through.value then None
    else Some(Span(if span.value.first <= through.value then through.value + 1 else span.value.first, span.value.last))
  }

  predicate Produces(b: LiveBatch, through: Option<nat>) {
    b.tokened || b.extra || Above(b.span, through).Some?
  }

  function EnterLive(p: Pump): Pump {
    p.(phase := Live, fence := None, drainThrough := None, ackThrough := None)
  }

  /** Pops buffered batches until one produces output; an empty buffer goes live. */
  function DrainBuffered(p: Pump): Pump
    decreases |p.buffer|
  {
    if p.buffer == [] then EnterLive(p)
    else if Produces(p.buffer[0], p.drainThrough)
    then p.(buffer := p.buffer[1..], output := Some(FromLive(Above(p.buffer[0].span, p.drainThrough))))
    else DrainBuffered(p.(buffer := p.buffer[1..]))
  }

  function EmitLive(p: Pump, b: LiveBatch): Pump {
    if Produces(b, None) then p.(output := Some(FromLive(b.span))) else p
  }

  function Acknowledged(p: Pump): Pump {
    if p.output.None? then p
    else
      var o := p.output.value;
      var ack := if o.FromHistory? && Filling(p) && o.span.Some? then Highest(p.ackThrough, o.span.value.last) else p.ackThrough;
      var committed := p.(output := None, ackThrough := ack);
      var cut := if o.FromHistory? && p.cutover.Some?
                 then committed.(drainThrough := p.cutover, phase := DrainingLive, cutover := None, ackThrough := None)
                 else committed;
      if cut.phase.DrainingLive? && cut.buffer == [] then EnterLive(cut) else cut
  }

  /** The live stream ended or failed; a fence that is already set stays. */
  function LiveFails(p: Pump): Pump {
    p.(phase := Recovering)
  }

  /** A buffered batch after `silent` others needs deeper history: it is gone. */
  function DrainFails(p: Pump, silent: nat): Pump
    requires silent < |p.buffer|
  {
    p.(buffer := p.buffer[silent + 1..], phase := Recovering)
  }

  // ----- One poll -----

  /** What a child answers when polled, or the validator while draining. */
  datatype Answer =
    | Paged(page: Option<Span>)
    | HistoryGone
    | LiveSent(batch: LiveBatch)
    | LiveDeepReorg(batch: LiveBatch)
    | LiveGone
    | BufferDeepReorg(silent: nat)

  datatype Reply = Emitted | Failed | Waiting

  datatype Polled = Polled(pump: Pump, reply: Reply)

  predicate HoldsToken(p: Pump) {
    exists k :: 0 <= k < |p.buffer| && p.buffer[k].tokened
  }

  /** Draining stops at a batch that needs deeper history, behind silent ones. */
  predicate Breaks(p: Pump, a: Answer) {
    && p.phase.DrainingLive? && a.BufferDeepReorg? && a.silent < |p.buffer|
    && forall k :: 0 <= k < a.silent ==> !Produces(p.buffer[k], p.drainThrough)
  }

  /** Who is being polled: only the live child once live, and only history while
      a live delivery that must be acknowledged is held. */
  predicate Listens(p: Pump, a: Answer) {
    match p.phase
    case Live => a.LiveSent? || a.LiveDeepReorg? || a.LiveGone?
    case CatchingUp => a.Paged? || a.HistoryGone? || ((a.LiveSent? || a.LiveGone?) && !HoldsToken(p))
    case Recovering => a.Paged? || a.HistoryGone? || ((a.LiveSent? || a.LiveGone?) && !HoldsToken(p))
    case _ => false
  }

  /** The effect of one answer. */
  function Hear(p: Pump, a: Answer): Polled
    requires Listens(p, a)
  {
    match a
    case Paged(page) => Polled(EmitHistorical(p, page), Emitted)
    case HistoryGone => Polled(p, Failed)
    case LiveGone => Polled(LiveFails(p), Failed)
    case LiveDeepReorg(_) => Polled(LiveFails(p), Failed)
    case LiveSent(b) =>
      if p.phase.Live? then
        var q := EmitLive(p, b);
        Polled(q, if q.output.Some? then Emitted else Waiting)
      else
        var q := BufferLive(p, b);
        Polled(q, if q.phase.Poisoned? then Failed else Waiting)
  }

  /** Polls until there is an output, a failure, or no further answer. */
  function Poll(p: Pump, answers: seq<Answer>): Polled
    decreases |answers|, if p.phase.DrainingLive? then 1 else 0
  {
    if p.phase.Poisoned? then Polled(p, Failed)
    else if p.output.Some? then Polled(p, Emitted)
    else if p.phase.DrainingLive? then
      if answers != [] && Breaks(p, answers[0]) then Polled(DrainFails(p, answers[0].silent), Failed)
      else
        var q := DrainBuffered(p);
        DrainEnds(p);
        if q.output.Some? then Polled(q, Emitted) else Poll(q, answers)
    else if answers == [] || !Listens(p, answers[0]) then Polled(p, Waiting)
    else
      var r := Hear(p, answers[0]);
      if r.reply.Waiting? then Poll(r.pump, answers[1..]) else r
  }

  lemma DrainEnds(p: Pump)
    requires p.output.None?
    ensures DrainBuffered(p).output.None? ==> DrainBuffered(p).phase.Live?
    decreases |p.buffer|
  {
    if p.buffer != [] && !Produces(p.buffer[0], p.drainThrough) { DrainEnds(p.(buffer := p.buffer[1..])); }
  }

  // ----- Draining starts only after an acknowledged page reached the fence -----

  /** Acknowledged heights were acknowledged, and a pending cutover is the
      historical output in flight, at or past the fence. */
  predicate AckOk(p: Pump, acked: seq<nat>) {
    && (p.ackThrough.Some? ==> p.ackThrough.value in acked)
    && (p.cutover.Some? ==>
          && p.fence.Some? && p.cutover.value >= p.fence.value
          && p.output.Some? && p.output.value.FromHistory?
          && p.output.value.span.Some? && p.output.value.span.value.last == p.cutover.value)
  }

  /** Whoever starts draining does so at a fence that an acknowledged historical
      delivery has reached, and drains through that delivery. */
  predicate CutsAtFence(before: Pump, after: Pump, acked: seq<nat>) {
    after.phase.DrainingLive? && !before.phase.DrainingLive? ==>
      && after.fence.Some? && after.drainThrough.Some?
      && after.fence.value <= after.drainThrough.value && after.drainThrough.value in acked
  }

  lemma DrainFrame(p: Pump)
    ensures var d := DrainBuffered(p);
            && d.cutover == p.cutover && (d.ackThrough == p.ackThrough || d.ackThrough.None?)
            && ((d.phase == p.phase && d.fence == p.fence && d.drainThrough == p.drainThrough) || (d.phase.Live? && d.fence.None? && d.drainThrough.None?))
            && (d.output == p.output || (d.output.Some? && d.output.value.FromLive?))
    decreases |p.buffer|
  {
    if p.buffer != [] && !Produces(p.buffer[0], p.drainThrough) { DrainFrame(p.(buffer := p.buffer[1..])); }
  }

  lemma HearKeeps(p: Pump, a: Answer, acked: seq<nat>)
    requires AckOk(p, acked) && p.output.None? && Listens(p, a)
    ensures AckOk(Hear(p, a).pump, acked) && CutsAtFence(p, Hear(p, a).pump, acked)
  {
  }

  /** A poll keeps what is known of acknowledgements, and when it starts draining
      the fence has been reached by an acknowledged delivery. */
  lemma {:induction false} PollKeeps(p: Pump, answers: seq<Answer>, acked: seq<nat>)
    requires AckOk(p, acked)
    ensures AckOk(Poll(p, answers).pump, acked)
    ensures CutsAtFence(p, Poll(p, answers).pump, acked)
    ensures var q := Poll(p, answers).pump;
            p.phase.DrainingLive? && q.phase.DrainingLive? ==> q.fence == p.fence && q.drainThrough == p.drainThrough
    ensures p.phase.Live? ==> !Poll(p, answers).pump.phase.DrainingLive?
    decreases |answers|, if p.phase.DrainingLive? then 1 else 0
  {
    if p.phase.Poisoned? || p.output.Some? {
    } else if p.phase.DrainingLive? {
      DrainFrame(p);
      DrainEnds(p);
      hide DrainBuffered;
      if !(answers != [] && Breaks(p, answers[0])) && DrainBuffered(p).output.None? { PollKeeps(DrainBuffered(p), answers, acked); }
    } else if answers != [] && Listens(p, answers[0]) {
      HearKeeps(p, answers[0], acked);
      var r := Hear(p, answers[0]);
      if p.phase.Live? { assert !r.pump.phase.DrainingLive? && (r.reply.Waiting? ==> r.pump.phase.Live?); }
      hide Hear, AckOk, Listens;
      if r.reply.Waiting? { PollKeeps(r.pump, answers[1..], acked); }
    }
  }

  // ----- The coordinator as an object -----

  class Subscriber {
    var phase: Phase
    var fence: Option<nat>
    var drainThrough: Option<nat>
    var pendingCutover: Option<nat>
    var acknowledgedHistoricalThrough: Option<nat>
    var liveBuffer: seq<LiveBatch>
    var pendingOutput: Option<Output>
    /** Last heights of the historical deliveries acknowledged so far. */
    ghost var acked: seq<nat>

    function State(): Pump
      reads this
    {
      Pump(phase, fence, drainThrough, pendingCutover, acknowledgedHistoricalThrough, liveBuffer, pendingOutput)
    }

    ghost predicate Valid()
      reads this
    {
      AckOk(State(), acked)
    }

    constructor ()
      ensures Valid() && State() == Pump(CatchingUp, None, None, None, None, [], None) && acked == []
    {
      phase, fence, drainThrough, pendingCutover := CatchingUp, None, None, None;
      acknowledgedHistoricalThrough, liveBuffer, pendingOutput, acked := None, [], None, [];
    }

    method FinishAcknowledgedCutoverIfReady()
      requires Valid()
      modifies this`phase, this`drainThrough, this`acknowledgedHistoricalThrough
      ensures Valid() && State() == FinishIfReady(old(State()))
      ensures CutsAtFence(old(State()), State(), acked)
    {
      if fence.None? || acknowledgedHistoricalThrough.None? { return; }
      if acknowledgedHistoricalThrough.value < fence.value { return; }
      if pendingCutover.Some? || !(phase.CatchingUp? || phase.Recovering?) { return; }
      phase := DrainingLive;
      drainThrough := acknowledgedHistoricalThrough;
      acknowledgedHistoricalThrough := None;
    }

    method Buffer(b: LiveBatch)
      requires Valid()
      modifies this`phase, this`drainThrough, this`acknowledgedHistoricalThrough, this`fence, this`liveBuffer
      ensures Valid() && State() == BufferLive(old(State()), b)
      ensures CutsAtFence(old(State()), State(), acked)
    {
      if b.tokened && b.span.None? {
        phase := Poisoned;
        return;
      }
      if fence.None? && b.span.Some? { fence := Some(Before(b.span.value.last)); }
      liveBuffer := liveBuffer + [b];
      FinishAcknowledgedCutoverIfReady();
    }

    method EmitHistoricalPage(page: Option<Span>)
      requires Valid() && pendingOutput.None?
      modifies this`pendingCutover, this`pendingOutput
      ensures Valid() && State() == EmitHistorical(old(State()), page)
    {
      if pendingCutover.None? && fence.Some? && page.Some? && page.value.last >= fence.value {
        pendingCutover := Some(page.value.last);
      }
      pendingOutput := Some(FromHistory(page));
    }

    method EmitBufferedLive()
      requires Valid() && pendingOutput.None?
      modifies this`liveBuffer, this`pendingOutput, this`phase, this`fence, this`drainThrough, this`acknowledgedHistoricalThrough
      ensures Valid() && State() == DrainBuffered(old(State()))
    {
      DrainFrame(State());
      while liveBuffer != []
        invariant State() == old(State()).(buffer := liveBuffer)
        invariant DrainBuffered(State()) == DrainBuffered(old(State()))
        decreases |liveBuffer|
      {
        var b := liveBuffer[0];
        liveBuffer := liveBuffer[1..];
        if Produces(b, drainThrough) {
          pendingOutput := Some(FromLive(Above(b.span, drainThrough)));
          return;
        }
      }
      phase, fence, drainThrough, acknowledgedHistoricalThrough := Live, None, None, None;
    }

    /** The polling loop: dispatches on the phase until it can answer. */
    method NextBatch(answers: seq<Answer>) returns (r: Reply)
      requires Valid()
      modifies this`phase, this`fence, this`drainThrough, this`pendingCutover, this`acknowledgedHistoricalThrough, this`liveBuffer, this`pendingOutput
      ensures Valid() && Polled(State(), r) == Poll(old(State()), answers)
      ensures CutsAtFence(old(State()), State(), acked)
    {
      PollKeeps(State(), answers, acked);
      if phase.Poisoned? { return Failed; }
      if pendingOutput.Some? { return Emitted; }
      var i := 0;
      while true
        invariant 0 <= i <= |answers|
        invariant Valid() && !phase.Poisoned? && pendingOutput.None?
        invariant Poll(old(State()), answers) == Poll(State(), answers[i..])
        decreases |answers| - i, if phase.DrainingLive? then 1 else 0
      {
        if phase.DrainingLive? {
          if i < |answers| && Breaks(State(), answers[i]) {
            liveBuffer, phase := liveBuffer[answers[i].silent + 1..], Recovering;
            return Failed;
          }
          DrainEnds(State());
          EmitBufferedLive();
          if pendingOutput.Some? { return Emitted; }
        } else {
          if i == |answers| || !Listens(State(), answers[i]) { return Waiting; }
          assert answers[i..][1..] == answers[i + 1..];
          HearKeeps(State(), answers[i], acked);
          match answers[i]
          case Paged(page) =>
            EmitHistoricalPage(page);
            return Emitted;
          case HistoryGone => return Failed;
          case LiveGone =>
            phase := Recovering;
            return Failed;
          case LiveDeepReorg(_) =>
            phase := Recovering;
            return Failed;
          case LiveSent(b) =>
            if !phase.Live? {
              Buffer(b);
              if phase.Poisoned? { return Failed; }
            } else if Produces(b, None) {
              pendingOutput := Some(FromLive(b.span));
              return Emitted;
            }
          i := i + 1;
        }
      }
    }

    method AcknowledgeDelivery()
      requires Valid()
      modifies this
      ensures Valid() && State() == Acknowledged(old(State()))
      ensures acked == AckedAfter(old(State()), old(acked))
      ensures CutsAtFence(old(State()), State(), acked)
    {
      if pendingOutput.None? { return; }
      var o := pendingOutput.value;
      acked := AckedAfter(State(), acked);
      var completes := o.FromHistory? && pendingCutover.Some?;
      if o.FromHistory? && (phase.CatchingUp? || phase.Recovering?) && o.span.Some? {
        acknowledgedHistoricalThrough := Highest(acknowledgedHistoricalThrough, o.span.value.last);
      }
      pendingOutput := None;
      if completes {
        drainThrough := pendingCutover;
        pendingCutover := None;
        phase := DrainingLive;
        acknowledgedHistoricalThrough := None;
      }
      if phase.DrainingLive? && liveBuffer == [] {
        phase, fence, drainThrough, acknowledgedHistoricalThrough := Live, None, None, None;
      }
    }
  }

  /** Historical heights acknowledged once the output in flight is. */
  function AckedAfter(p: Pump, acked: seq<nat>): seq<nat> {
    if p.output.Some? && p.output.value.FromHistory? && p.output.value.span.Some?
    then acked + [p.output.value.span.value.last] else acked
  }

  // ----- Runs -----

  datatype Event =
    | Page(page: Option<Span>)
    | Arrives(batch: LiveBatch)
    | NeedsHistory(batch: LiveBatch)
    | Drain
    | LosesBuffered(silent: nat)
    | LiveStops(resumes: bool)
    | Ack

  /** The coordinator with what the two children and the consumer know: the next
      height of each child, the heights exposed, and the acknowledged pages. */
  datatype System = System(
    pump: Pump,
    start: nat,
    reach: nat,
    historyNext: nat,
    liveNext: Option<nat>,
    exposed: set<nat>,
    acked: seq<nat>)

  function Fresh(start: nat): System {
    System(Pump(CatchingUp, None, None, None, None, [], None), start, start, start, None, {}, [])
  }

  predicate WellFormed(span: Option<Span>) {
    span.Some? ==> span.value.first <= span.value.last
  }

  /** The batch continues, or overlaps, what its child sent before. */
  predicate Continues(span: Option<Span>, next: Option<nat>) {
    WellFormed(span) && (span.Some? && next.Some? ==> span.value.first <= next.value)
  }

  /** When a step can happen: the coordinator polls only without an output in
      flight, holds a tokened live batch until cutover, and both children send
      consecutive heights. */
  predicate Enabled(s: System, e: Event) {
    var p := s.pump;
    match e
    case Page(page) => p.output.None? && Filling(p) && Continues(page, Some(s.historyNext))
    case Arrives(b) =>
      && p.output.None? && Continues(b.span, s.liveNext)
      && (p.phase.Live? || (Filling(p) && forall k :: 0 <= k < |p.buffer| ==> !p.buffer[k].tokened))
    case NeedsHistory(b) => p.output.None? && p.phase.Live? && Continues(b.span, s.liveNext)
    case Drain => p.output.None? && p.phase.DrainingLive?
    case LosesBuffered(silent) =>
      && p.output.None? && p.phase.DrainingLive? && silent < |p.buffer|
      && (forall k :: 0 <= k < silent ==> !Produces(p.buffer[k], p.drainThrough))
    case LiveStops(_) => p.output.None? && (p.phase.Live? || Filling(p))
    case Ack => p.output.Some?
  }

  predicate Within(h: nat, span: Span) {
    span.first <= h <= span.last
  }

  function Heights(span: Option<Span>): set<nat> {
    if span.None? then {} else set h: nat | h <= span.value.last && Within(h, span.value)
  }

  function Beyond(reach: nat, span: Option<Span>): nat {
    if span.Some? && span.value.last >= reach then span.value.last + 1 else reach
  }

  /** A new output exposes its heights. */
  function Exposing(s: System, p: Pump): System {
    if s.pump.output.None? && p.output.Some?
    then s.(pump := p, exposed := s.exposed + Heights(p.output.value.span), reach := Beyond(s.reach, p.output.value.span))
    else s.(pump := p)
  }

  function NextOf(next: Option<nat>, span: Option<Span>): Option<nat> {
    if span.Some? then Some(span.value.last + 1) else next
  }

  function Step(s: System, e: Event): System
    requires Enabled(s, e)
  {
    var p := s.pump;
    match e
    case Page(page) =>
      Exposing(s, EmitHistorical(p, page)).(historyNext := NextOf(Some(s.historyNext), page).value)
    case Arrives(b) =>
      Exposing(s, if p.phase.Live? then EmitLive(p, b) else BufferLive(p, b)).(liveNext := NextOf(s.liveNext, b.span))
    case NeedsHistory(b) => s.(pump := p.(phase := Recovering), liveNext := NextOf(s.liveNext, b.span))
    case Drain => Exposing(s, DrainBuffered(p))
    case LosesBuffered(silent) => s.(pump := DrainFails(p, silent))
    case LiveStops(resumes) => s.(pump := LiveFails(p), liveNext := if resumes then s.liveNext else None)
    case Ack => s.(pump := Acknowledged(p), acked := AckedAfter(p, s.acked))
  }

  /** The state after a run of events, if each could happen. */
  function Run(s: System, events: seq<Event>): Option<System> {
    if events == [] then Some(s)
    else
      var before := Run(s, events[..|events| - 1]);
      if before.None? || !Enabled(before.value, events[|events| - 1]) then None else Some(Step(before.value, events[|events| - 1]))
  }

  // ----- The fence along runs -----

  /** Whatever happens, draining is entered only with a fence that an acknowledged
      historical delivery has reached, and it drains through that delivery. */
  lemma DrainingNeedsAcknowledgedFence(s: System, e: Event)
    requires AckOk(s.pump, s.acked) && Enabled(s, e)
    ensures var t := Step(s, e); AckOk(t.pump, t.acked) && CutsAtFence(s.pump, t.pump, t.acked)
  {
    match e
    case Drain => DrainFrame(s.pump); hide DrainBuffered;
    case _ =>
  }

  /** The same along every run from a fresh start. */
  lemma {:induction false} RunsKeepAcknowledgedFence(start: nat, events: seq<Event>)
    requires Run(Fresh(start), events).Some?
    ensures AckOk(Run(Fresh(start), events).value.pump, Run(Fresh(start), events).value.acked)
  {
    if events != [] {
      var front, last := events[..|events| - 1], events[|events| - 1];
      RunsKeepAcknowledgedFence(start, front);
      hide AckOk, Step, Enabled;
      DrainingNeedsAcknowledgedFence(Run(Fresh(start), front).value, last);
    }
  }

  // ----- No gap -----

  function FirstSpan(buffer: seq<LiveBatch>): Option<Span> {
    if buffer == [] then None else if buffer[0].span.Some? then buffer[0].span else FirstSpan(buffer[1..])
  }

  /** Buffered batches continue one another from `at` up to `end`. */
  predicate Chain(buffer: seq<LiveBatch>, at: Option<nat>, end: Option<nat>) {
    if buffer == [] then at == end
    else Continues(buffer[0].span, at) && Chain(buffer[1..], NextOf(at, buffer[0].span), end)
  }

  /** Exposing the buffered batches in order leaves no gap above `reach`. */
  predicate Meets(buffer: seq<LiveBatch>, reach: nat) {
    buffer == [] || (Continues(buffer[0].span, Some(reach)) && Meets(buffer[1..], Beyond(reach, buffer[0].span)))
  }

  /** How far the heights are exposed once the buffer is drained. */
  function Drained(buffer: seq<LiveBatch>, reach: nat): nat {
    if buffer == [] then reach else Drained(buffer[1..], Beyond(reach, buffer[0].span))
  }

  /** The buffer meets the reach, and the live child continues at or below where
      it ends: what the coordinator could test before it starts draining. */
  predicate Joins(buffer: seq<LiveBatch>, reach: nat, end: Option<nat>) {
    Meets(buffer, reach) && end.Some? && end.value <= Drained(buffer, reach)
  }

  /** Every height from the start cursor on is exposed, up to the reach. */
  ghost predicate NoGap(s: System) {
    && s.start <= s.reach
    && (forall h: nat :: s.start <= h < s.reach ==> h in s.exposed)
    && (forall h: nat :: h in s.exposed ==> h < s.reach)
  }

  predicate AllWellFormed(buffer: seq<LiveBatch>) {
    forall k :: 0 <= k < |buffer| ==> WellFormed(buffer[k].span)
  }

  /** Nothing is missing, and what is buffered for draining joins it. */
  ghost predicate Whole(s: System) {
    var p := s.pump;
    && NoGap(s) && s.historyNext <= s.reach && AllWellFormed(p.buffer)
    && (p.output.Some? && p.output.value.span.Some? ==> p.output.value.span.value.last < s.reach)
    && (p.ackThrough.Some? ==> p.ackThrough.value < s.reach)
    && (p.cutover.Some? ==> Filling(p) && p.output.Some? && p.output.value.FromHistory? && p.cutover.value < s.reach && p.fence.Some? && p.fence.value <= p.cutover.value)
    && (p.phase.DrainingLive? ==> p.drainThrough.Some? && p.drainThrough.value < s.reach && Joins(p.buffer, s.reach, s.liveNext))
    && (p.phase.Live? ==> p.fence.None? && p.buffer == [] && s.liveNext.Some? && s.liveNext.value <= s.reach)
  }

  /** While filling, the fence is set by the first buffered heights and the buffer
      continues them. */
  predicate Fenced(s: System) {
    var p := s.pump;
    Filling(p) ==>
      && (p.fence.Some? <==> FirstSpan(p.buffer).Some?)
      && (p.fence.Some? ==> Chain(p.buffer, None, s.liveNext) && FirstSpan(p.buffer).value.last <= p.fence.value + 1)
  }

  ghost predicate Inv(s: System) {
    Whole(s) && Fenced(s)
  }

  /** The step leaves filling only when the buffer joins what is exposed. */
  predicate Joined(s: System, e: Event)
    requires Enabled(s, e)
  {
    var t := Step(s, e);
    Filling(s.pump) && !Filling(t.pump) && !t.pump.phase.Poisoned? ==> Joins(t.pump.buffer, t.reach, t.liveNext)
  }

  /** All but the two steps that keep a fence the buffer no longer justifies: a
      live child that comes back elsewhere, and a batch lost while draining. */
  predicate Safe(s: System, e: Event) {
    !e.LosesBuffered? && (e.LiveStops? && !e.resumes ==> s.pump.fence.None?)
  }

  lemma {:induction false} ChainAppend(buffer: seq<LiveBatch>, at: Option<nat>, end: Option<nat>, b: LiveBatch)
    requires Chain(buffer, at, end) && Continues(b.span, end)
    ensures Chain(buffer + [b], at, NextOf(end, b.span))
  {
    var all := buffer + [b];
    if buffer == [] {
      assert all[1..] == [];
    } else {
      ChainAppend(buffer[1..], NextOf(at, buffer[0].span), end, b);
      assert all[1..] == buffer[1..] + [b];
    }
  }

  lemma {:induction false} ChainOfNothing(buffer: seq<LiveBatch>)
    requires FirstSpan(buffer).None?
    ensures Chain(buffer, None, None)
  {
    if buffer != [] { ChainOfNothing(buffer[1..]); }
  }

  lemma {:induction false} FirstAppend(buffer: seq<LiveBatch>, b: LiveBatch)
    ensures FirstSpan(buffer + [b]) == if FirstSpan(buffer).Some? then FirstSpan(buffer) else b.span
  {
    var all := buffer + [b];
    if buffer == [] {
      assert all[1..] == [];
    } else {
      FirstAppend(buffer[1..], b);
      assert all[1..] == buffer[1..] + [b];
    }
  }

  lemma {:induction false} ChainJoins(buffer: seq<LiveBatch>, at: nat, reach: nat, end: Option<nat>)
    requires Chain(buffer, Some(at), end) && at <= reach
    ensures Joins(buffer, reach, end)
  {
    if buffer != [] {
      ChainJoins(buffer[1..], NextOf(Some(at), buffer[0].span).value, Beyond(reach, buffer[0].span), end);
    }
  }

  /** A chain whose first heights start at or below the reach joins it. */
  lemma {:induction false} FenceJoins(buffer: seq<LiveBatch>, reach: nat, end: Option<nat>)
    requires Chain(buffer, None, end) && FirstSpan(buffer).Some? && FirstSpan(buffer).value.first <= reach
    ensures Joins(buffer, reach, end)
  {
    if buffer[0].span.Some? {
      ChainJoins(buffer[1..], buffer[0].span.value.last + 1, Beyond(reach, buffer[0].span), end);
    } else {
      FenceJoins(buffer[1..], reach, end);
    }
  }

  lemma {:induction false} FirstWellFormed(buffer: seq<LiveBatch>, at: Option<nat>, end: Option<nat>)
    requires Chain(buffer, at, end)
    ensures WellFormed(FirstSpan(buffer))
  {
    if buffer != [] && buffer[0].span.None? { FirstWellFormed(buffer[1..], at, end); }
  }

  /** Cutover at a page that reached the fence: the buffered heights join. */
  lemma CutoverJoins(s: System, through: nat)
    requires Fenced(s) && Filling(s.pump) && s.pump.fence.Some? && s.pump.fence.value <= through < s.reach
    ensures Joins(s.pump.buffer, s.reach, s.liveNext) && s.pump.buffer != []
  {
    FirstWellFormed(s.pump.buffer, None, s.liveNext);
    FenceJoins(s.pump.buffer, s.reach, s.liveNext);
  }

  /** Exposing heights from at or below the reach keeps the exposed range whole. */
  lemma ExposeKeepsRange(s: System, span: Option<Span>, t: System)
    requires NoGap(s) && t.start == s.start && t.exposed == s.exposed + Heights(span) && t.reach == Beyond(s.reach, span)
    requires Continues(span, Some(s.reach))
    ensures NoGap(t)
  {
  }

  /** What the drain boundary suppresses is exposed already. */
  lemma AboveMeets(span: Option<Span>, through: nat, reach: nat)
    requires WellFormed(span) && through < reach
    ensures WellFormed(Above(span, Some(through))) && Beyond(reach, Above(span, Some(through))) == Beyond(reach, span)
    ensures Continues(Above(span, Some(through)), Some(reach)) <==> Continues(span, Some(reach))
  {
  }

  lemma DrainKeeps(s: System)
    requires Whole(s) && s.pump.phase.DrainingLive? && s.pump.output.None?
    ensures Whole(Exposing(s, DrainBuffered(s.pump)))
    decreases |s.pump.buffer|
  {
    var p := s.pump;
    if p.buffer != [] {
      var b := p.buffer[0];
      var seen := Above(b.span, p.drainThrough);
      AboveMeets(b.span, p.drainThrough.value, s.reach);
      if Produces(b, p.drainThrough) {
        ExposeKeepsRange(s, seen, Exposing(s, DrainBuffered(p)));
      } else {
        DrainKeeps(s.(pump := p.(buffer := p.buffer[1..])));
      }
    }
  }

  /** Every step keeps the exposed heights whole when it leaves filling only with
      a buffer that joins them. */
  lemma WholeStep(s: System, e: Event)
    requires Whole(s) && Enabled(s, e) && Joined(s, e)
    ensures Whole(Step(s, e)) && Step(s, e).start == s.start
  {
    hide Meets, Drained;
    var p := s.pump;
    match e
    case Page(page) => ExposeKeepsRange(s, page, Step(s, e));
    case Arrives(b) =>
      if p.phase.Live? { ExposeKeepsRange(s, b.span, s.(exposed := s.exposed + Heights(b.span), reach := Beyond(s.reach, b.span))); }
    case Drain => DrainKeeps(s);
    case Ack => JoinsNothing(s.reach, s.liveNext);
    case LosesBuffered(_) =>
    case NeedsHistory(_) =>
    case LiveStops(_) =>
  }

  lemma JoinsNothing(reach: nat, end: Option<nat>)
    ensures Joins([], reach, end) <==> end.Some? && end.value <= reach
  {
  }

  /** The buffer while filling, one batch further. */
  lemma BufferedFence(s: System, b: LiveBatch) returns (mid: System)
    requires Fenced(s) && Filling(s.pump) && Continues(b.span, s.liveNext)
    ensures var p := s.pump;
            var fence := if p.fence.None? && b.span.Some? then Some(Before(b.span.value.last)) else p.fence;
            mid == s.(pump := p.(fence := fence, buffer := p.buffer + [b]), liveNext := NextOf(s.liveNext, b.span))
    ensures Fenced(mid)
  {
    var p := s.pump;
    var fence := if p.fence.None? && b.span.Some? then Some(Before(b.span.value.last)) else p.fence;
    mid := s.(pump := p.(fence := fence, buffer := p.buffer + [b]), liveNext := NextOf(s.liveNext, b.span));
    FirstAppend(p.buffer, b);
    if p.fence.Some? {
      ChainAppend(p.buffer, None, s.liveNext, b);
    } else {
      ChainOfNothing(p.buffer);
      ChainAppend(p.buffer, None, None, b);
    }
    hide Chain, FirstSpan;
  }

  /** Behind its fence, every step but the two leaves filling with a joined buffer
      and keeps the fence justified. */
  lemma FencedStep(s: System, e: Event)
    requires Inv(s) && Enabled(s, e) && Safe(s, e)
    ensures Joined(s, e) && Fenced(Step(s, e))
  {
    var p := s.pump;
    if e.Arrives? && Filling(p) {
      var mid := BufferedFence(s, e.batch);
      hide Chain, FirstSpan, Meets, Drained;
      if FinishIfReady(mid.pump) != mid.pump { CutoverJoins(mid, mid.pump.ackThrough.value); }
    } else if e.Ack? && p.output.value.FromHistory? && p.cutover.Some? {
      CutoverJoins(s, p.cutover.value);
      hide Chain, FirstSpan, Meets, Drained;
    } else {
      if e.Drain? { DrainFrame(p); }
      hide Chain, Meets, Drained, DrainBuffered;
    }
  }

  /** Each step except the two keeps every height exposed without a gap. */
  lemma StepKeeps(s: System, e: Event)
    requires Inv(s) && Enabled(s, e) && Safe(s, e)
    ensures Inv(Step(s, e)) && Step(s, e).start == s.start
  {
    FencedStep(s, e);
    hide Whole, Fenced, Joined;
    WholeStep(s, e);
  }

  // ----- Exactly when draining leaves no gap -----

  /** Draining, with nothing in flight and everything through the boundary exposed. */
  ghost predicate Draining(s: System) {
    s.pump.phase.DrainingLive? && s.pump.output.None? && s.pump.drainThrough.Some? && s.pump.drainThrough.value < s.reach
  }

  /** Alternating drains and acknowledgements never expose heights past a gap. */
  ghost predicate StaysWhole(s: System)
    requires Draining(s)
    decreases |s.pump.buffer|
  {
    DrainShrinks(s.pump);
    var t := Step(s, Drain);
    && NoGap(s) && NoGap(t)
    && (t.pump.output.Some? ==>
          var u := Step(t, Ack);
          u.pump.phase.DrainingLive? ==> StaysWhole(u))
  }

  lemma DrainShrinks(p: Pump)
    requires p.output.None?
    ensures var q := DrainBuffered(p);
            q.output.Some? ==> q.output.value.FromLive? && |q.buffer| < |p.buffer| && q.phase == p.phase && q.drainThrough == p.drainThrough && q.cutover == p.cutover
    decreases |p.buffer|
  {
    if p.buffer != [] && !Produces(p.buffer[0], p.drainThrough) { DrainShrinks(p.(buffer := p.buffer[1..])); }
  }

  /** A batch that starts above the reach leaves its first height out. */
  lemma ExposeLeavesGap(s: System, span: Span, t: System)
    requires NoGap(s) && t.start == s.start && t.exposed == s.exposed + Heights(Some(span)) && t.reach == Beyond(s.reach, Some(span))
    requires span.first <= span.last && span.first > s.reach
    ensures !NoGap(t)
  {
    assert s.reach !in t.exposed && s.start <= s.reach < t.reach;
  }

  /** A silent batch is dropped without a trace. */
  lemma SilentDrain(s: System)
    requires Draining(s) && s.pump.buffer != [] && !Produces(s.pump.buffer[0], s.pump.drainThrough)
    ensures var rest := s.(pump := s.pump.(buffer := s.pump.buffer[1..]));
            Draining(rest) && (NoGap(rest) <==> NoGap(s)) && (StaysWhole(s) <==> StaysWhole(rest))
  {
    var rest := s.(pump := s.pump.(buffer := s.pump.buffer[1..]));
    assert Step(s, Drain) == Step(rest, Drain);
  }

  /** At the start of draining, with everything through the boundary exposed:
      draining the buffer keeps every height exposed without a gap if and only if
      the buffer meets the reach. */
  lemma {:induction false} DrainsWholeIff(s: System)
    requires Draining(s) && NoGap(s) && AllWellFormed(s.pump.buffer)
    ensures StaysWhole(s) <==> Meets(s.pump.buffer, s.reach)
    decreases |s.pump.buffer|
  {
    var p := s.pump;
    if p.buffer == [] {
      assert Step(s, Drain).pump.output.None?;
    } else {
      var b := p.buffer[0];
      AboveMeets(b.span, p.drainThrough.value, s.reach);
      if Produces(b, p.drainThrough) {
        DrainsOne(s);
      } else {
        SilentDrain(s);
        DrainsWholeIff(s.(pump := p.(buffer := p.buffer[1..])));
      }
    }
  }

  lemma DrainsOne(s: System)
    requires Draining(s) && NoGap(s) && AllWellFormed(s.pump.buffer)
    requires s.pump.buffer != [] && Produces(s.pump.buffer[0], s.pump.drainThrough)
    ensures StaysWhole(s) <==> Meets(s.pump.buffer, s.reach)
    decreases |s.pump.buffer|, 0
  {
    var p := s.pump;
    var b := p.buffer[0];
    var seen := Above(b.span, p.drainThrough);
    AboveMeets(b.span, p.drainThrough.value, s.reach);
    var t := Step(s, Drain);
    assert t.pump.output == Some(FromLive(seen)) && t.pump.buffer == p.buffer[1..];
    if Continues(seen, Some(s.reach)) {
      ExposeKeepsRange(s, seen, t);
      var u := Step(t, Ack);
      if p.buffer[1..] == [] {
        assert u.pump.phase.Live?;
      } else {
        DrainsWholeIff(u);
      }
    } else {
      ExposeLeavesGap(s, seen.value, t);
    }
  }

  /** At every cutover out of a whole state, however the run got there: draining
      what is buffered leaves no gap if and only if the buffer meets the reach. */
  lemma CutoverExact(s: System, e: Event)
    requires Whole(s) && Enabled(s, e) && Filling(s.pump) && Step(s, e).pump.phase.DrainingLive?
    ensures Draining(Step(s, e))
    ensures StaysWhole(Step(s, e)) <==> Meets(Step(s, e).pump.buffer, Step(s, e).reach)
  {
    hide Meets, StaysWhole;
    assert NoGap(Step(s, e)) && AllWellFormed(Step(s, e).pump.buffer);
    DrainsWholeIff(Step(s, e));
  }

  // ----- Polls are steps -----

  function EventOf(a: Answer): seq<Event> {
    match a
    case Paged(page) => [Page(page)]
    case HistoryGone => []
    case LiveSent(b) => [Arrives(b)]
    case LiveDeepReorg(b) => [NeedsHistory(b)]
    case LiveGone => [LiveStops(false)]
    case BufferDeepReorg(silent) => [LosesBuffered(silent)]
  }

  /** The steps one poll takes. */
  function StepsOf(p: Pump, answers: seq<Answer>): seq<Event>
    decreases |answers|, if p.phase.DrainingLive? then 1 else 0
  {
    if p.phase.Poisoned? || p.output.Some? then []
    else if p.phase.DrainingLive? then
      if answers != [] && Breaks(p, answers[0]) then EventOf(answers[0])
      else
        DrainEnds(p);
        var q := DrainBuffered(p);
        if q.output.Some? then [Drain] else [Drain] + StepsOf(q, answers)
    else if answers == [] || !Listens(p, answers[0]) then []
    else
      var r := Hear(p, answers[0]);
      if r.reply.Waiting? then EventOf(answers[0]) + StepsOf(r.pump, answers[1..]) else EventOf(answers[0])
  }

  lemma {:induction false} RunCons(s: System, e: Event, rest: seq<Event>)
    ensures Run(s, [e] + rest) == if Enabled(s, e) then Run(Step(s, e), rest) else None
  {
    hide Enabled, Step;
    var all := [e] + rest;
    if rest == [] {
      assert all == [e] && all[..0] == [];
    } else {
      RunCons(s, e, rest[..|rest| - 1]);
      assert all[..|all| - 1] == [e] + rest[..|rest| - 1];
    }
  }

  lemma HearIsStep(s: System, a: Answer)
    requires Listens(s.pump, a) && s.pump.output.None? && !a.HistoryGone? && Enabled(s, EventOf(a)[0])
    ensures Step(s, EventOf(a)[0]).pump == Hear(s.pump, a).pump
  {
  }

  /** One poll of the coordinator is a run of the steps above, so everything shown
      of runs holds of it. */
  lemma {:induction false} PollIsRun(s: System, answers: seq<Answer>)
    requires Run(s, StepsOf(s.pump, answers)).Some?
    ensures Run(s, StepsOf(s.pump, answers)).value.pump == Poll(s.pump, answers).pump
    decreases |answers|, if s.pump.phase.DrainingLive? then 1 else 0
  {
    var p := s.pump;
    if p.phase.Poisoned? || p.output.Some? {
    } else if p.phase.DrainingLive? {
      DrainEnds(p);
      if answers != [] && Breaks(p, answers[0]) {
        RunCons(s, LosesBuffered(answers[0].silent), []);
      } else if DrainBuffered(p).output.Some? {
        RunCons(s, Drain, []);
      } else {
        RunCons(s, Drain, StepsOf(DrainBuffered(p), answers));
        hide DrainBuffered;
        PollIsRun(Step(s, Drain), answers);
      }
    } else if answers != [] && Listens(p, answers[0]) && !answers[0].HistoryGone? {
      var e := EventOf(answers[0])[0];
      var r := Hear(p, answers[0]);
      RunCons(s, e, if r.reply.Waiting? then StepsOf(r.pump, answers[1..]) else []);
      HearIsStep(s, answers[0]);
      hide Hear, Step, Listens, Enabled;
      if r.reply.Waiting? { PollIsRun(Step(s, e), answers[1..]); }
    }
  }

  // ----- Whole runs -----

  /** Every cutover of the run joins. */
  ghost predicate JoinedRun(s: System, events: seq<Event>) {
    events == [] ||
    (var front := events[..|events| - 1];
     && JoinedRun(s, front)
     && (Run(s, front).Some? && Enabled(Run(s, front).value, events[|events| - 1]) ==> Joined(Run(s, front).value, events[|events| - 1])))
  }

  /** Whatever stops, is lost or comes back: as long as every cutover joins, no
      height is skipped. */
  lemma {:induction false} JoinedRunsStayWhole(start: nat, events: seq<Event>)
    requires Run(Fresh(start), events).Some? && JoinedRun(Fresh(start), events)
    ensures Whole(Run(Fresh(start), events).value) && Run(Fresh(start), events).value.start == start
  {
    if events == [] {
      FreshInv(start);
    } else {
      var front, last := events[..|events| - 1], events[|events| - 1];
      JoinedRunsStayWhole(start, front);
      hide Whole, Step, Enabled, Joined;
      WholeStep(Run(Fresh(start), front).value, last);
    }
  }

  /** The events of a run all avoid the two steps. */
  predicate SafeRun(s: System, events: seq<Event>) {
    events == [] ||
    (var front := events[..|events| - 1];
     SafeRun(s, front) && (Run(s, front).Some? ==> Safe(Run(s, front).value, events[|events| - 1])))
  }

  lemma FreshInv(start: nat)
    ensures Inv(Fresh(start))
  {
  }

  /** Across catching up, draining, live delivery and recovery, every height from
      the start cursor up to the highest exposed one is exposed. */
  lemma {:induction false} EveryHeightExposed(start: nat, events: seq<Event>)
    requires Run(Fresh(start), events).Some? && SafeRun(Fresh(start), events)
    ensures Inv(Run(Fresh(start), events).value) && Run(Fresh(start), events).value.start == start
  {
    if events == [] {
      FreshInv(start);
    } else {
      var front, last := events[..|events| - 1], events[|events| - 1];
      EveryHeightExposed(start, front);
      hide Inv, Step, Enabled, Safe;
      StepKeeps(Run(Fresh(start), front).value, last);
    }
  }

  lemma NoHeightSkipped(start: nat, events: seq<Event>, h: nat, k: nat)
    requires Run(Fresh(start), events).Some? && SafeRun(Fresh(start), events)
    requires k in Run(Fresh(start), events).value.exposed && start <= h <= k
    ensures h in Run(Fresh(start), events).value.exposed
  {
    EveryHeightExposed(start, events);
    hide Run, SafeRun;
  }

  // ----- Why the two steps are excluded -----

  // Both runs suppose that the sequence validator of the core crate, which is not
  // part of this model, lets a block through that does not adjoin the one before.

  function One(h: nat): Option<Span> { Some(Span(h, h)) }

  function Carrying(first: nat, last: nat): LiveBatch { LiveBatch(Some(Span(first, last)), false, false) }

  lemma {:induction false} RunOn(s: System, done: seq<Event>, rest: seq<Event>)
    requires Run(s, done).Some?
    ensures Run(s, done + rest) == Run(Run(s, done).value, rest)
  {
    hide Enabled, Step;
    var all := done + rest;
    if rest == [] {
      assert all == done;
    } else {
      RunOn(s, done, rest[..|rest| - 1]);
      assert all[..|all| - 1] == done + rest[..|rest| - 1];
    }
  }

  lemma OneStep(s: System, e: Event)
    requires Enabled(s, e)
    ensures Run(s, [e]) == Some(Step(s, e))
  {
    assert [e][..0] == [];
  }

  lemma TwoSteps(s: System, e: Event, f: Event)
    requires Enabled(s, e) && Enabled(Step(s, e), f)
    ensures Run(s, [e, f]) == Some(Step(Step(s, e), f))
  {
    hide Enabled, Step;
    OneStep(s, e);
    OneStep(Step(s, e), f);
    RunOn(s, [e], [f]);
    assert [e] + [f] == [e, f];
  }

  lemma ThreeSteps(s: System, e: Event, f: Event, g: Event)
    requires Enabled(s, e) && Enabled(Step(s, e), f) && Enabled(Step(Step(s, e), f), g)
    ensures Run(s, [e, f, g]) == Some(Step(Step(Step(s, e), f), g))
  {
    hide Enabled, Step;
    TwoSteps(s, e, f);
    OneStep(Step(Step(s, e), f), g);
    RunOn(s, [e, f], [g]);
    assert [e, f] + [g] == [e, f, g];
  }

  const FENCED := System(Pump(Recovering, Some(0), None, None, None, [Carrying(0, 0), Carrying(2, 2)], None), 0, 0, 0, Some(3), {}, [])

  /** Live stops behind fence 0 and comes back at height 2. */
  lemma FencedAfterStop()
    ensures Run(Fresh(0), [Arrives(Carrying(0, 0)), LiveStops(false), Arrives(Carrying(2, 2))]) == Some(FENCED)
  {
    var first := Step(Fresh(0), Arrives(Carrying(0, 0)));
    assert first.pump.buffer == [Carrying(0, 0)];
    var back := Step(Step(first, LiveStops(false)), Arrives(Carrying(2, 2)));
    assert back.pump.buffer == [Carrying(0, 0), Carrying(2, 2)];
    ThreeSteps(Fresh(0), Arrives(Carrying(0, 0)), LiveStops(false), Arrives(Carrying(2, 2)));
  }

  lemma FencedDrainsOn()
    ensures var t := Run(FENCED, [Page(One(0)), Ack, Drain]); t.Some? && 2 in t.value.exposed && 1 !in t.value.exposed
  {
    var paged := Step(FENCED, Page(One(0)));
    var cut := Step(paged, Ack);
    assert cut.pump.drainThrough == Some(0) && cut.pump.phase.DrainingLive? && cut.pump.buffer == [Carrying(0, 0), Carrying(2, 2)];
    assert cut.pump.buffer[1..] == [Carrying(2, 2)];
    ThreeSteps(FENCED, Page(One(0)), Ack, Drain);
    assert Within(2, Span(2, 2));
  }

  /** A live failure while a fence is set leaves the fence: history cuts over at 0,
      the buffer continues at 2, and height 1 is never exposed. */
  lemma LiveStopSkipsHeight()
    ensures var events := [Arrives(Carrying(0, 0)), LiveStops(false), Arrives(Carrying(2, 2)), Page(One(0)), Ack, Drain];
            var t := Run(Fresh(0), events);
            t.Some? && 2 in t.value.exposed && 1 !in t.value.exposed
  {
    hide Enabled, Step, Run;
    FencedAfterStop();
    FencedDrainsOn();
    var done := [Arrives(Carrying(0, 0)), LiveStops(false), Arrives(Carrying(2, 2))];
    RunOn(Fresh(0), done, [Page(One(0)), Ack, Drain]);
    assert done + [Page(One(0)), Ack, Drain] == [Arrives(Carrying(0, 0)), LiveStops(false), Arrives(Carrying(2, 2)), Page(One(0)), Ack, Drain];
  }

  const BUFFERED := System(Pump(CatchingUp, Some(0), None, Some(0), None, [Carrying(0, 0), Carrying(1, 2)], Some(FromHistory(One(0)))),
                           0, 1, 1, Some(3), {0}, [])

  const BEHIND := System(Pump(Recovering, Some(0), Some(0), None, None, [Carrying(3, 3)], None), 0, 1, 1, Some(4), {0}, [0])

  lemma BufferedBeforeAck()
    ensures Run(Fresh(0), [Arrives(Carrying(0, 0)), Arrives(Carrying(1, 2)), Page(One(0))]) == Some(BUFFERED)
  {
    var first := Step(Fresh(0), Arrives(Carrying(0, 0)));
    var second := Step(first, Arrives(Carrying(1, 2)));
    assert first.pump.buffer == [Carrying(0, 0)];
    assert second.pump.buffer == [Carrying(0, 0), Carrying(1, 2)];
    assert Within(0, Span(0, 0));
    assert Step(second, Page(One(0))).exposed == {0};
    ThreeSteps(Fresh(0), Arrives(Carrying(0, 0)), Arrives(Carrying(1, 2)), Page(One(0)));
  }

  lemma LosesWhileDraining()
    ensures Run(BUFFERED, [Ack, LosesBuffered(1), Arrives(Carrying(3, 3))]) == Some(BEHIND)
  {
    var cut := Step(BUFFERED, Ack);
    assert cut.acked == [0];
    var lost := Step(cut, LosesBuffered(1));
    assert lost.pump.buffer == [];
    assert Step(lost, Arrives(Carrying(3, 3))).pump.buffer == [Carrying(3, 3)];
    ThreeSteps(BUFFERED, Ack, LosesBuffered(1), Arrives(Carrying(3, 3)));
  }

  lemma BehindDrainsOn()
    ensures var t := Run(BEHIND, [Page(One(1)), Ack, Drain]); t.Some? && 3 in t.value.exposed && 2 !in t.value.exposed
  {
    var cut := Step(Step(BEHIND, Page(One(1))), Ack);
    assert cut.pump.drainThrough == Some(1) && cut.pump.phase.DrainingLive?;
    ThreeSteps(BEHIND, Page(One(1)), Ack, Drain);
    assert Within(3, Span(3, 3));
  }

  /** A deep reorg while draining loses the popped batch and keeps the fence:
      history at 1 is enough to drain on to 3, and height 2 is never exposed. */
  lemma LostBatchSkipsHeight()
    ensures var events := [Arrives(Carrying(0, 0)), Arrives(Carrying(1, 2)), Page(One(0))] +
                          [Ack, LosesBuffered(1), Arrives(Carrying(3, 3))] + [Page(One(1)), Ack, Drain];
            var t := Run(Fresh(0), events);
            t.Some? && 3 in t.value.exposed && 2 !in t.value.exposed
  {
    hide Enabled, Step, Run;
    BufferedBeforeAck();
    LosesWhileDraining();
    BehindDrainsOn();
    var first := [Arrives(Carrying(0, 0)), Arrives(Carrying(1, 2)), Page(One(0))];
    var second := [Ack, LosesBuffered(1), Arrives(Carrying(3, 3))];
    RunOn(Fresh(0), first, second);
    RunOn(Fresh(0), first + second, [Page(One(1)), Ack, Drain]);
  }
}
