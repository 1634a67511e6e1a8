/** In which order events leave the exporter, and what each callback does with the payload in flight. */
module ExporterLaws {
  import opened Common
  import opened Exporter

  // ----- one step -----

  /** A new event is the last pending one; only a full queue gives something up for it, its oldest event. */
  lemma QueuedIsLast(c: Config, s: State, e: Event)
    ensures var t, full := Next(c, s, Queued(e)), |s.pending| >= c.maxPending;
            && t.pending == (if full && s.pending != [] then s.pending[1..] else s.pending) + [e]
            && t.droppedEvents == s.droppedEvents + (if full then 1 else 0)
            && t.payload == s.payload && t.inFlight == s.inFlight && t.ring == s.ring
            && t.batchSequence == s.batchSequence && t.successes == s.successes && t.failures == s.failures
  {
  }

  /** A payload reaches a file: there is a ring to write to, and its file opens. */
  predicate Writable(c: Config, opens: bool) {
    c.maxFiles >= 1 && c.maxPerFile >= 1 && opens
  }

  predicate Idle(s: State) {
    !s.inFlight && s.payload == None
  }

  /** The oldest pending events, as many as a batch may have. */
  function NextBatch(c: Config, s: State): Payload {
    var n := if c.maxEvents <= 0 then 0 else if c.maxEvents < |s.pending| then c.maxEvents else |s.pending|;
    Payload(s.batchSequence + 1, s.pending[..n])
  }

  /** With one request in flight, or nothing to send, a flush does nothing. */
  lemma FlushWaits(c: Config, s: State, d: Dispatch)
    requires s.inFlight || s.pending == []
    ensures Next(c, s, Flushed(d)) == s
  {
  }

  /** Otherwise the next batch leaves the queue under the next number: into flight, into the spool, or nowhere. */
  lemma FlushSendsOldest(c: Config, s: State, d: Dispatch)
    requires !s.inFlight && s.pending != []
    ensures var t, batch := Next(c, s, Flushed(d)), NextBatch(c, s);
            && t.pending == s.pending[|batch.events|..] && t.batchSequence == s.batchSequence + 1
            && t.successes == s.successes && t.failures == s.failures
            && (d.serialises && d.reachable && d.posts ==>
                  t.inFlight && t.payload == Some(batch) && t.ring == s.ring && t.droppedEvents == s.droppedEvents)
            && (!(d.serialises && d.reachable && d.posts) ==> Idle(t))
            && (!d.serialises ==> t.ring == s.ring && t.droppedEvents == s.droppedEvents + Min(c.maxEvents, |s.pending|))
            && (d.serialises && !(d.reachable && d.posts) ==>
                  t.droppedEvents == s.droppedEvents
                  && t.ring.written == s.ring.written + if Writable(c, d.opens) then [batch] else [])
  {
    SpooledTo(c, s.ring, NextBatch(c, s), d.opens);
  }

  /** Either callback ends the request; a failed payload goes to the spool, a confirmed one nowhere. */
  lemma CallbacksEndRequest(c: Config, s: State, p: Payload, opens: bool)
    requires s.payload == Some(p)
    ensures var t := Next(c, s, Success);
            Idle(t) && t.successes == s.successes + 1 && t.failures == s.failures && t.ring == s.ring && t.pending == s.pending
    ensures var t := Next(c, s, Failure(opens));
            && Idle(t) && t.failures == s.failures + 1 && t.successes == s.successes && t.pending == s.pending
            && t.ring.written == s.ring.written + if Writable(c, opens) then [p] else []
  {
    SpooledTo(c, s.ring, p, opens);
  }

  // ----- whole runs -----

  /** The events queued by the steps, in order. */
  function Arrivals(steps: seq<Step>): seq<Event> {
    if steps == [] then []
    else
      var last := steps[|steps| - 1];
      Arrivals(steps[..|steps| - 1]) + if last.Queued? then [last.e] else []
  }

  predicate IsSuffix(part: seq<Event>, whole: seq<Event>) {
    |part| <= |whole| && part == whole[|whole| - |part|..]
  }

  lemma SuffixDrops(part: seq<Event>, whole: seq<Event>, n: nat)
    requires IsSuffix(part, whole) && n <= |part|
    ensures IsSuffix(part[n..], whole)
  {
  }

  lemma SuffixGrows(part: seq<Event>, whole: seq<Event>, e: Event)
    requires IsSuffix(part, whole)
    ensures IsSuffix(part + [e], whole + [e])
  {
  }

  lemma StepLeavesSuffix(c: Config, s: State, step: Step, arrived: seq<Event>)
    requires IsSuffix(s.pending, arrived)
    ensures IsSuffix(Next(c, s, step).pending, arrived + if step.Queued? then [step.e] else [])
  {
    match step
    case Queued(e) =>
      QueuedIsLast(c, s, e);
      if s.pending != [] {
        SuffixDrops(s.pending, arrived, 1);
        SuffixGrows(s.pending[1..], arrived, e);
      }
      SuffixGrows(s.pending, arrived, e);
    case Flushed(d) =>
      assert arrived + [] == arrived;
      if !s.inFlight && s.pending != [] {
        FlushSendsOldest(c, s, d);
        SuffixDrops(s.pending, arrived, |NextBatch(c, s).events|);
      }
    case Success =>
      assert arrived + [] == arrived;
    case Failure(_) =>
      assert arrived + [] == arrived;
  }

  /** First in, first out: in every run what is pending is the latest of what was queued, so the rest left before it. */
  lemma {:induction false} PendingIsLatest(c: Config, steps: seq<Step>)
    ensures IsSuffix(Run(c, steps).pending, Arrivals(steps))
  {
    if steps != [] {
      var front := steps[..|steps| - 1];
      PendingIsLatest(c, front);
      StepLeavesSuffix(c, Run(c, front), steps[|steps| - 1], Arrivals(front));
    }
  }

  /** The numbers of the written payloads rise, up to that of the payload in flight, up to the last number given. */
  ghost predicate Numbered(s: State) {
    && (s.payload == None ==> !s.inFlight)
    && (forall i :: 0 <= i < |s.ring.written| ==> s.ring.written[i].sequence <= s.batchSequence)
    && (forall i, j :: 0 <= i < j < |s.ring.written| ==> s.ring.written[i].sequence < s.ring.written[j].sequence)
    && (s.payload.Some? ==>
          s.inFlight && s.payload.value.sequence <= s.batchSequence
          && forall i :: 0 <= i < |s.ring.written| ==> s.ring.written[i].sequence < s.payload.value.sequence)
  }

  lemma StepKeepsNumbers(c: Config, s: State, step: Step)
    requires Numbered(s)
    ensures Numbered(Next(c, s, step))
  {
    match step
    case Queued(e) => QueuedIsLast(c, s, e);
    case Flushed(d) =>
      if !s.inFlight && s.pending != [] {
        FlushSendsOldest(c, s, d);
      }
    case Success =>
    case Failure(opens) =>
      if s.payload.Some? {
        CallbacksEndRequest(c, s, s.payload.value, opens);
      }
  }

  /** In every run the spool receives payloads in the order of their numbers, and none twice. */
  lemma {:induction false} SpooledInOrder(c: Config, steps: seq<Step>)
    ensures Numbered(Run(c, steps))
  {
    if steps != [] {
      SpooledInOrder(c, steps[..|steps| - 1]);
      StepKeepsNumbers(c, Run(c, steps[..|steps| - 1]), steps[|steps| - 1]);
    }
  }
}
