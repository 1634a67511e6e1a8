/**
 The in-game exporter: a bounded buffer of pending events, one request in flight, and a ring of
 spool files for batches that could not be sent.
 */
module Exporter {
  import opened Common

  /** Events are identified by number. */
  type Event = nat

  datatype Payload = Payload(sequence: nat, events: seq<Event>)

  datatype Config = Config(maxPending: int, maxEvents: int, maxFiles: int, maxPerFile: int)

  /**
   The spool ring. `files` is what this run has written to each slot; `written` lists every payload
   that reached a file, and `block` counts the rotations so far. Both are history.
   */
  datatype Ring = Ring(
    slot: nat,
    count: nat,
    initialized: bool,
    overwrites: nat,
    files: map<nat, seq<Payload>>,
    written: seq<Payload>,
    block: nat)

  /** What became of every event, besides reaching a file; history. */
  datatype Books = Books(
    queued: multiset<Event>,
    confirmed: multiset<Event>,
    lost: multiset<Event>,
    dropped: multiset<Event>)

  datatype State = State(
    pending: seq<Event>,
    batchSequence: nat,
    droppedEvents: int,
    inFlight: bool,
    payload: Option<Payload>,
    successes: nat,
    failures: nat,
    ring: Ring,
    books: Books)

  const EMPTY_RING := Ring(0, 0, false, 0, map[], [], 0)
  const EMPTY_BOOKS := Books(multiset{}, multiset{}, multiset{}, multiset{})
  const START := State([], 0, 0, false, None, 0, 0, EMPTY_RING, EMPTY_BOOKS)

  function Enter(b: Books, events: seq<Event>): Books {
    b.(queued := b.queued + multiset(events))
  }

  function Confirm(b: Books, events: seq<Event>): Books {
    b.(confirmed := b.confirmed + multiset(events))
  }

  function Lose(b: Books, events: seq<Event>): Books {
    b.(lost := b.lost + multiset(events))
  }

  function Drop(b: Books, events: seq<Event>): Books {
    b.(dropped := b.dropped + multiset(events))
  }

  // ----- steps -----

  /** The oldest pending event, if any; taking it out of an empty queue is taken to do nothing. */
  function FirstOf(pending: seq<Event>): seq<Event> {
    if pending == [] then [] else pending[..1]
  }

  function WithoutFirst(pending: seq<Event>): seq<Event> {
    if pending == [] then [] else pending[1..]
  }

  function QueueEvent(c: Config, s: State, e: Event): State {
    var books := Enter(s.books, [e]);
    if |s.pending| >= c.maxPending
    then s.(pending := WithoutFirst(s.pending) + [e], droppedEvents := s.droppedEvents + 1,
            books := Drop(books, FirstOf(s.pending)))
    else s.(pending := s.pending + [e], books := books)
  }

  function Advance(slot: nat, maxFiles: int): nat
    requires maxFiles >= 1
  {
    (slot + 1) % maxFiles
  }

  /** Moves to the next slot when the current file is full; reaching slot zero again counts as an overwrite. */
  function Rotate(c: Config, r: Ring): Ring
    requires c.maxFiles >= 1
  {
    if r.count >= c.maxPerFile
    then
      var slot := Advance(r.slot, c.maxFiles);
      r.(slot := slot, count := 0, initialized := false, block := r.block + 1,
         overwrites := r.overwrites + if slot == 0 then 1 else 0)
    else r
  }

  /** Appends to the current file, or starts it afresh after a rotation. */
  function Write(r: Ring, p: Payload): Ring {
    var before := if r.initialized && r.slot in r.files then r.files[r.slot] else [];
    r.(files := r.files[r.slot := before + [p]], initialized := true, count := r.count + 1, written := r.written + [p])
  }

  /** Whether a payload that could not be sent reaches a file. */
  predicate Reaches(c: Config, opens: bool) {
    c.maxFiles >= 1 && c.maxPerFile >= 1 && opens
  }

  function SpoolTo(c: Config, r: Ring, p: Payload, opens: bool): Ring {
    if c.maxFiles < 1 || c.maxPerFile < 1 then r
    else if !opens then Rotate(c, r)
    else Write(Rotate(c, r), p)
  }

  /** Hands the payload in flight, if any, to the spool; one that reaches no file is gone without a trace. */
  function Spool(c: Config, s: State, opens: bool): State {
    match s.payload
    case None => s
    case Some(p) =>
      s.(ring := SpoolTo(c, s.ring, p, opens), payload := None,
         books := if Reaches(c, opens) then s.books else Lose(s.books, p.events))
  }

  lemma SpoolIs(c: Config, s: State, opens: bool, ring: Ring)
    requires s.payload.Some? && ring == SpoolTo(c, s.ring, s.payload.value, opens)
    ensures Spool(c, s, opens)
         == State(s.pending, s.batchSequence, s.droppedEvents, s.inFlight, None, s.successes, s.failures, ring,
                  if Reaches(c, opens) then s.books else Lose(s.books, s.payload.value.events))
  {
  }

  /** How serialising, finding the service, dispatching and opening the spool file turn out. */
  datatype Dispatch = Dispatch(serialises: bool, reachable: bool, posts: bool, opens: bool)

  function Taken(c: Config, s: State): nat {
    var n := Min(c.maxEvents, |s.pending|);
    if n > 0 then n else 0
  }

  /** Moves the next events from the queue into the payload. */
  function Take(c: Config, s: State): State {
    var n := Taken(c, s);
    s.(pending := s.pending[n..], batchSequence := s.batchSequence + 1,
       payload := Some(Payload(s.batchSequence + 1, s.pending[..n])))
  }

  function Unserialised(c: Config, s: State): State {
    var t := Take(c, s);
    t.(droppedEvents := s.droppedEvents + Min(c.maxEvents, |s.pending|), payload := None,
       books := Drop(s.books, Carried(t.payload)))
  }

  function Flush(c: Config, s: State, d: Dispatch): State {
    if s.inFlight || s.pending == [] then s
    else if !d.serialises then Unserialised(c, s)
    else if !d.reachable || !d.posts then Spool(c, Take(c, s), d.opens)
    else Take(c, s).(inFlight := true)
  }

  /** The events of the payload in flight. */
  function Carried(payload: Option<Payload>): seq<Event> {
    if payload.Some? then payload.value.events else []
  }

  function Succeeded(s: State): State {
    s.(successes := s.successes + 1, inFlight := false, payload := None, books := Confirm(s.books, Carried(s.payload)))
  }

  function FailedTo(c: Config, s: State, opens: bool): State {
    Spool(c, s.(failures := s.failures + 1, inFlight := false), opens)
  }

  // ----- the object of the source -----

  class DBAProbeExporter {
    const config: Config
    var pending: seq<Event>
    var batchSequence: nat
    var droppedEvents: int
    var inFlight: bool
    var payload: Option<Payload>
    var successes: nat
    var failures: nat
    var slot: nat
    var count: nat
    var initialized: bool
    var overwrites: nat
    var files: map<nat, seq<Payload>>
    ghost var written: seq<Payload>
    ghost var block: nat
    ghost var books: Books

    ghost function RingNow(): Ring
      reads this
    {
      Ring(slot, count, initialized, overwrites, files, written, block)
    }

    ghost function Now(): State
      reads this
    {
      State(pending, batchSequence, droppedEvents, inFlight, payload, successes, failures, RingNow(), books)
    }

    constructor (config: Config)
      ensures this.config == config && Now() == START
    {
      this.config := config;
      pending, batchSequence, droppedEvents, inFlight, payload, successes, failures := [], 0, 0, false, None, 0, 0;
      slot, count, initialized, overwrites, files := 0, 0, false, 0, map[];
      written, block, books := [], 0, EMPTY_BOOKS;
    }

    method Queue(e: Event)
      modifies this`pending, this`droppedEvents, this`books
      ensures Now() == QueueEvent(config, old(Now()), e)
    {
      books := Enter(books, [e]);
      if |pending| >= config.maxPending {
        books := Drop(books, FirstOf(pending));
        if |pending| > 0 {
          pending := pending[1..];
        }
        droppedEvents := droppedEvents + 1;
      }
      pending := pending + [e];
    }

    method FlushBatch(d: Dispatch)
      modifies this
      ensures Now() == Flush(config, old(Now()), d)
    {
      if inFlight || |pending| == 0 {
        return;
      }
      var eventCount := TakeBatch();
      if !d.serialises {
        droppedEvents := droppedEvents + eventCount;
        books := Drop(books, Carried(payload));
        payload := None;
        return;
      }
      if !d.reachable {
        SpoolPayload(d.opens);
        return;
      }
      inFlight := true;
      if !d.posts {
        inFlight := false;
        SpoolPayload(d.opens);
      }
    }

    method TakeBatch() returns (eventCount: int)
      modifies this`pending, this`batchSequence, this`payload
      ensures Now() == Take(config, old(Now()))
      ensures eventCount == Min(config.maxEvents, |old(pending)|)
    {
      eventCount := Min(config.maxEvents, |pending|);
      var taken := if eventCount > 0 then eventCount else 0;
      batchSequence := batchSequence + 1;
      payload := Some(Payload(batchSequence, pending[..taken]));
      pending := pending[taken..];
    }

    method OnExportSucceeded()
      modifies this`books, this`successes, this`inFlight, this`payload
      ensures Now() == Succeeded(old(Now()))
    {
      books := Confirm(books, Carried(payload));
      successes := successes + 1;
      inFlight := false;
      payload := None;
    }

    method OnExportFailed(opens: bool)
      modifies this
      ensures Now() == FailedTo(config, old(Now()), opens)
    {
      failures := failures + 1;
      inFlight := false;
      SpoolPayload(opens);
    }

    method SpoolPayload(opens: bool)
      modifies this
      ensures Now() == Spool(config, old(Now()), opens)
    {
      if payload.None? {
        return;
      }
      ghost var before := Now();
      var p := payload.value;
      payload := None;
      assert RingNow() == before.ring;
      var reached := WriteToRing(p, opens);
      if !reached {
        books := Lose(books, p.events);
      }
      SpoolIs(config, before, opens, RingNow());
    }

    method WriteToRing(p: Payload, opens: bool) returns (reached: bool)
      modifies this`slot, this`count, this`initialized, this`overwrites, this`files, this`written, this`block
      ensures RingNow() == SpoolTo(config, old(RingNow()), p, opens) && reached == Reaches(config, opens)
    {
      if config.maxFiles < 1 || config.maxPerFile < 1 {
        return false;
      }
      RotateWhenFull();
      if !opens {
        return false;
      }
      AppendLine(p);
      return true;
    }

    method RotateWhenFull()
      requires config.maxFiles >= 1
      modifies this`slot, this`count, this`initialized, this`overwrites, this`block
      ensures RingNow() == Rotate(config, old(RingNow()))
    {
      if count >= config.maxPerFile {
        slot := Advance(slot, config.maxFiles);
        count := 0;
        initialized := false;
        block := block + 1;
        if slot == 0 {
          overwrites := overwrites + 1;
        }
      }
    }

    method AppendLine(p: Payload)
      modifies this`count, this`initialized, this`files, this`written
      ensures RingNow() == Write(old(RingNow()), p)
    {
      var before := if initialized && slot in files then files[slot] else [];
      files := files[slot := before + [p]];
      initialized := true;
      count := count + 1;
      written := written + [p];
    }
  }

  // ----- conservation of events -----

  /** The events of the payloads that reached a file. */
  function Spooled(written: seq<Payload>): seq<Event> {
    if written == [] then [] else Spooled(written[..|written| - 1]) + written[|written| - 1].events
  }

  /** Every queued event is pending, in flight, confirmed, spooled, lost or dropped: exactly one of them. */
  ghost predicate Conserved(s: State) {
    forall e: Event :: Balanced(s, e)
  }

  function Copies(events: seq<Event>, e: Event): nat {
    multiset(events)[e]
  }

  predicate Balanced(s: State, e: Event) {
    s.books.queued[e]
    == Copies(s.pending, e) + Copies(Carried(s.payload), e) + s.books.confirmed[e]
       + Copies(Spooled(s.ring.written), e) + s.books.lost[e] + s.books.dropped[e]
  }

  ghost predicate Consistent(s: State) {
    Conserved(s) && (s.inFlight <==> s.payload.Some?)
  }

  datatype Step = Queued(e: Event) | Flushed(d: Dispatch) | Success | Failure(opens: bool)

  function Next(c: Config, s: State, step: Step): State {
    match step
    case Queued(e) => QueueEvent(c, s, e)
    case Flushed(d) => Flush(c, s, d)
    case Success => Succeeded(s)
    case Failure(opens) => FailedTo(c, s, opens)
  }

  function Run(c: Config, steps: seq<Step>): State {
    if steps == [] then START else Next(c, Run(c, steps[..|steps| - 1]), steps[|steps| - 1])
  }

  lemma CopiesSplit(events: seq<Event>, n: nat, x: Event)
    requires n <= |events|
    ensures Copies(events[..n], x) + Copies(events[n..], x) == Copies(events, x)
  {
    assert events == events[..n] + events[n..];
  }

  lemma CopiesJoin(a: seq<Event>, b: seq<Event>, x: Event)
    ensures Copies(a + b, x) == Copies(a, x) + Copies(b, x)
  {
  }

  lemma QueueConserves(c: Config, s: State, e: Event)
    requires Consistent(s)
    ensures Consistent(QueueEvent(c, s, e))
    ensures |s.pending| <= Max(1, c.maxPending) ==> |QueueEvent(c, s, e).pending| <= Max(1, c.maxPending)
  {
    forall x ensures Balanced(QueueEvent(c, s, e), x) {
      assert Balanced(s, x);
      CopiesJoin(s.pending, [e], x);
      CopiesJoin(WithoutFirst(s.pending), [e], x);
      CopiesOfFirst(s.pending, x);
    }
  }

  lemma CopiesOfFirst(pending: seq<Event>, x: Event)
    ensures Copies(FirstOf(pending), x) + Copies(WithoutFirst(pending), x) == Copies(pending, x)
  {
    if pending != [] {
      CopiesSplit(pending, 1, x);
    }
  }

  lemma SpooledGrows(written: seq<Payload>, p: Payload, x: Event)
    ensures Copies(Spooled(written + [p]), x) == Copies(Spooled(written), x) + Copies(p.events, x)
  {
    assert (written + [p])[..|written|] == written;
    CopiesJoin(Spooled(written), p.events, x);
  }

  lemma SpooledTo(c: Config, r: Ring, p: Payload, opens: bool)
    ensures SpoolTo(c, r, p, opens).written == if Reaches(c, opens) then r.written + [p] else r.written
  {
  }

  lemma SpoolBalances(c: Config, s: State, opens: bool, t: State, x: Event)
    requires Balanced(s, x) && s.payload.Some? && t == Spool(c, s, opens)
    ensures Balanced(t, x)
  {
    var p := s.payload.value;
    SpooledTo(c, s.ring, p, opens);
    SpooledGrows(s.ring.written, p, x);
    assert Carried(t.payload) == [];
    assert !Reaches(c, opens) ==> t.books.lost[x] == s.books.lost[x] + Copies(p.events, x);
  }

  lemma SpoolConserves(c: Config, s: State, opens: bool)
    requires Conserved(s) && !s.inFlight
    ensures Consistent(Spool(c, s, opens)) && Spool(c, s, opens).pending == s.pending
  {
    if s.payload.Some? {
      var t := Spool(c, s, opens);
      forall x ensures Balanced(t, x) {
        assert Balanced(s, x);
        SpoolBalances(c, s, opens, t, x);
      }
    }
  }

  lemma TakeConserves(c: Config, s: State)
    requires Consistent(s) && !s.inFlight
    ensures Conserved(Take(c, s)) && Conserved(Unserialised(c, s))
  {
    forall x ensures Balanced(Take(c, s), x) && Balanced(Unserialised(c, s), x) {
      assert Balanced(s, x);
      CopiesSplit(s.pending, Taken(c, s), x);
    }
  }

  lemma FlushConserves(c: Config, s: State, d: Dispatch)
    requires Consistent(s)
    ensures Consistent(Flush(c, s, d)) && |Flush(c, s, d).pending| <= |s.pending|
  {
    if !s.inFlight && s.pending != [] {
      TakeConserves(c, s);
      SpoolConserves(c, Take(c, s), d.opens);
      assert forall x :: Balanced(Take(c, s), x) ==> Balanced(Take(c, s).(inFlight := true), x);
    }
  }

  lemma SuccessConserves(s: State)
    requires Consistent(s)
    ensures Consistent(Succeeded(s))
  {
    forall x ensures Balanced(Succeeded(s), x) {
      assert Balanced(s, x);
    }
  }

  lemma StepConserves(c: Config, s: State, step: Step)
    requires Consistent(s) && |s.pending| <= Max(1, c.maxPending)
    ensures Consistent(Next(c, s, step)) && |Next(c, s, step).pending| <= Max(1, c.maxPending)
  {
    match step
    case Queued(e) => QueueConserves(c, s, e);
    case Flushed(d) => FlushConserves(c, s, d);
    case Success => SuccessConserves(s);
    case Failure(opens) =>
      var t := s.(failures := s.failures + 1, inFlight := false);
      assert forall x :: Balanced(s, x) ==> Balanced(t, x);
      SpoolConserves(c, t, opens);
  }

  /** In every run no event is lost from the books or counted twice, whatever the callbacks do. */
  lemma {:induction false} RunConserves(c: Config, steps: seq<Step>)
    ensures Consistent(Run(c, steps))
    ensures |Run(c, steps).pending| <= Max(1, c.maxPending)
  {
    if steps != [] {
      RunConserves(c, steps[..|steps| - 1]);
      StepConserves(c, Run(c, steps[..|steps| - 1]), steps[|steps| - 1]);
    }
  }

  // ----- the drop counter -----

  ghost predicate CountsDrops(s: State) {
    s.droppedEvents == |s.books.dropped|
  }

  lemma FlushCountsDrops(c: Config, s: State, d: Dispatch)
    requires c.maxEvents >= 0 && CountsDrops(s)
    ensures CountsDrops(Flush(c, s, d))
  {
    if !s.inFlight && s.pending != [] && !d.serialises {
      var carried := Carried(Take(c, s).payload);
      assert |multiset(carried)| == |carried| == Min(c.maxEvents, |s.pending|);
    }
  }

  lemma StepCountsDrops(c: Config, s: State, step: Step)
    requires c.maxPending >= 1 && c.maxEvents >= 0 && CountsDrops(s)
    ensures CountsDrops(Next(c, s, step))
  {
    match step
    case Queued(e) => assert |multiset(FirstOf(s.pending))| == |FirstOf(s.pending)|;
    case Flushed(d) => FlushCountsDrops(c, s, d);
    case Success =>
    case Failure(opens) =>
  }

  lemma {:induction false} RunCountsDrops(c: Config, steps: seq<Step>)
    requires c.maxPending >= 1 && c.maxEvents >= 0
    ensures CountsDrops(Run(c, steps))
  {
    if steps != [] {
      RunCountsDrops(c, steps[..|steps| - 1]);
      StepCountsDrops(c, Run(c, steps[..|steps| - 1]), steps[|steps| - 1]);
    }
  }

  lemma OneQueued(c: Config) returns (s: State)
    ensures s == Run(c, [Queued(7)]) && s.pending == [7] && s.books.dropped == multiset{} && s.books.lost == multiset{}
    ensures s.droppedEvents == (if c.maxPending <= 0 then 1 else 0) && s.ring == EMPTY_RING && !s.inFlight
    ensures s.batchSequence == 0
  {
    s := QueueEvent(c, START, 7);
    assert [Queued(7)][..0] == [];
  }

  lemma OneUnserialised(c: Config)
    requires c.maxPending >= 1 && c.maxEvents < 0
    ensures !CountsDrops(Run(c, [Queued(7), Flushed(Dispatch(false, true, true, true))]))
  {
    var d := Dispatch(false, true, true, true);
    var s := OneQueued(c);
    assert [Queued(7), Flushed(d)][..1] == [Queued(7)];
    assert Flush(c, s, d) == Unserialised(c, s) && Carried(Take(c, s).payload) == [];
  }

  /** In every run the drop counter is the number of dropped events, if and only if both limits are sensible. */
  lemma DropCounterExactlyWhen(c: Config)
    ensures (forall steps :: CountsDrops(Run(c, steps))) <==> c.maxPending >= 1 && c.maxEvents >= 0
  {
    if c.maxPending >= 1 && c.maxEvents >= 0 {
      forall steps ensures CountsDrops(Run(c, steps)) {
        RunCountsDrops(c, steps);
      }
    } else if c.maxPending < 1 {
      var s := OneQueued(c);
      assert !CountsDrops(Run(c, [Queued(7)]));
    } else {
      OneUnserialised(c);
    }
  }

  // ----- payloads that reach no file -----

  predicate Opening(step: Step) {
    match step
    case Flushed(d) => d.opens
    case Failure(opens) => opens
    case _ => true
  }

  /** Every attempt to open a spool file succeeds. */
  ghost predicate AllOpen(steps: seq<Step>) {
    forall i :: 0 <= i < |steps| ==> Opening(steps[i])
  }

  lemma {:induction false} RunLosesNothing(c: Config, steps: seq<Step>)
    requires AllOpen(steps) && (c.maxEvents <= 0 || (c.maxFiles >= 1 && c.maxPerFile >= 1))
    ensures Run(c, steps).books.lost == multiset{}
    ensures c.maxEvents <= 0 ==> Carried(Run(c, steps).payload) == []
  {
    if steps != [] {
      RunLosesNothing(c, steps[..|steps| - 1]);
      assert Opening(steps[|steps| - 1]);
    }
  }

  lemma OneLost(c: Config)
    requires c.maxEvents >= 1 && !(c.maxFiles >= 1 && c.maxPerFile >= 1)
    ensures var steps := [Queued(7), Flushed(Dispatch(true, false, true, true))];
            AllOpen(steps) && Run(c, steps).books.lost == multiset{7}
  {
    var d := Dispatch(true, false, true, true);
    var s := OneQueued(c);
    assert [Queued(7), Flushed(d)][..1] == [Queued(7)];
    assert Taken(c, s) == 1 && s.pending[..1] == [7];
    assert Take(c, s).payload == Some(Payload(1, [7]));
  }

  /**
   While every spool file opens nothing is lost, if and only if the spool has valid bounds or no batch carries events.
   */
  lemma NothingLostExactlyWhen(c: Config)
    ensures (forall steps :: AllOpen(steps) ==> Run(c, steps).books.lost == multiset{})
       <==> c.maxEvents <= 0 || (c.maxFiles >= 1 && c.maxPerFile >= 1)
  {
    if c.maxEvents <= 0 || (c.maxFiles >= 1 && c.maxPerFile >= 1) {
      forall steps | AllOpen(steps) ensures Run(c, steps).books.lost == multiset{} {
        RunLosesNothing(c, steps);
      }
    } else {
      OneLost(c);
    }
  }

  /** What the exporter reports, and all it decides by, apart from the spool. */
  predicate SameReports(s: State, t: State) {
    && s.pending == t.pending && s.batchSequence == t.batchSequence && s.inFlight == t.inFlight && s.payload == t.payload
    && s.droppedEvents == t.droppedEvents && s.successes == t.successes && s.failures == t.failures
  }

  /** Whether the spool file opens, and so whether the payload is lost, shows in no counter, not even in the overwrites. */
  lemma LossIsSilent(c: Config, s: State, d: Dispatch)
    ensures var kept, lost := FailedTo(c, s, true), FailedTo(c, s, false);
            SameReports(kept, lost) && kept.ring.overwrites == lost.ring.overwrites
    ensures var kept, lost := Flush(c, s, d.(opens := true)), Flush(c, s, d.(opens := false));
            SameReports(kept, lost) && kept.ring.overwrites == lost.ring.overwrites
  {
  }

  /** The same step, but for whether the spool file opens. */
  predicate SameButOpens(a: Step, b: Step) {
    match a
    case Flushed(d) => b.Flushed? && b.d == d.(opens := b.d.opens)
    case Failure(_) => b.Failure?
    case _ => b == a
  }

  /** Over whole runs no counter but that of the overwrites depends on which spool files open and what is lost. */
  lemma {:induction false} LossStaysSilent(c: Config, steps: seq<Step>, steps': seq<Step>)
    requires |steps| == |steps'| && forall i :: 0 <= i < |steps| ==> SameButOpens(steps[i], steps'[i])
    ensures SameReports(Run(c, steps), Run(c, steps'))
  {
    if steps != [] {
      var n := |steps| - 1;
      LossStaysSilent(c, steps[..n], steps'[..n]);
      SilentStep(c, Run(c, steps[..n]), Run(c, steps'[..n]), steps[n], steps'[n]);
    }
  }

  lemma SilentStep(c: Config, s: State, t: State, a: Step, b: Step)
    requires SameReports(s, t) && SameButOpens(a, b)
    ensures SameReports(Next(c, s, a), Next(c, t, b))
  {
  }

  // ----- the spool ring -----

  lemma MultipleSign(gap: int, f: nat)
    requires f >= 1
    ensures gap >= 1 ==> gap * f >= f
    ensures gap <= -1 ==> gap * f + f <= 0
  {
    if gap >= 1 {
      assert gap * f == f + (gap - 1) * f;
    } else if gap <= -1 {
      assert gap * f + f == (gap + 1) * f;
    }
  }

  lemma QuotientUnique(q: nat, r: nat, q': nat, r': nat, f: nat)
    requires f >= 1 && q * f + r == q' * f + r' && r < f && r' < f
    ensures q == q' && r == r'
  {
    if r <= r' {
      SlotsGap(q', q, f, r' - r);
    } else {
      SlotsGap(q, q', f, r - r');
    }
  }

  lemma SlotsGap(q: nat, q': nat, f: nat, d: nat)
    requires f >= 1 && q' * f - q * f == d
    ensures d >= f || (d == 0 && q == q')
  {
    assert (q' - q) * f == d;
    MultipleSign(q' - q, f);
  }

  lemma DivModUnique(x: nat, f: nat, q: nat, r: nat)
    requires f >= 1 && r < f && x == q * f + r
    ensures x / f == q && x % f == r
  {
    assert x == (x / f) * f + x % f;
    QuotientUnique(q, r, x / f, x % f, f);
  }

  lemma NextBlock(b: nat, f: nat)
    requires f >= 1
    ensures Advance(b % f, f) == (b + 1) % f
    ensures (b + 1) / f == b / f + if (b + 1) % f == 0 then 1 else 0
  {
    var q, r := b / f, b % f;
    assert b == q * f + r;
    if r + 1 == f {
      assert (q + 1) * f == q * f + f;
      DivModUnique(b + 1, f, q + 1, 0);
      DivModUnique(r + 1, f, 1, 0);
    } else {
      DivModUnique(b + 1, f, q, r + 1);
      DivModUnique(r + 1, f, 0, r + 1);
    }
  }

  lemma SlotsDiffer(a: nat, b: nat, f: nat)
    requires f >= 1 && a < b < a + f
    ensures a % f != b % f
  {
    var q, r := a / f, a % f;
    assert a == q * f + r && b == (b / f) * f + b % f;
    if r == b % f {
      SlotsGap(q, b / f, f, b - a);
    }
  }

  /** Where block k starts among the payloads written. */
  function Offset(k: nat, perFile: nat): nat {
    if k == 0 then 0 else Offset(k - 1, perFile) + perFile
  }

  lemma {:induction false} OffsetIs(k: nat, perFile: nat)
    ensures Offset(k, perFile) == k * perFile
  {
    if k > 0 {
      OffsetIs(k - 1, perFile);
      assert (k - 1) * perFile + perFile == k * perFile;
    }
  }

  lemma {:induction false} OffsetAdds(a: nat, b: nat, perFile: nat)
    ensures Offset(a + b, perFile) == Offset(a, perFile) + Offset(b, perFile)
  {
    if b > 0 {
      OffsetAdds(a, b - 1, perFile);
      assert a + b - 1 == a + (b - 1);
    }
  }

  lemma OffsetOrder(a: nat, b: nat, perFile: nat)
    requires a <= b
    ensures Offset(a, perFile) <= Offset(b, perFile)
    ensures a < b ==> Offset(a, perFile) + perFile <= Offset(b, perFile)
  {
    OffsetAdds(a, b - a, perFile);
  }

  /** The payloads of block k among those written so far. */
  function BlockOf(written: seq<Payload>, perFile: nat, k: nat): seq<Payload>
    requires Offset(k, perFile) <= |written|
  {
    if Offset(k + 1, perFile) <= |written| then written[Offset(k, perFile)..Offset(k + 1, perFile)]
    else written[Offset(k, perFile)..]
  }

  /** How many blocks have at least one payload. */
  function Started(r: Ring): nat {
    if r.count > 0 then r.block + 1 else r.block
  }

  /** Block k is one of the last `maxFiles` started blocks. */
  predicate InRing(c: Config, r: Ring, k: nat) {
    k < Started(r) <= k + c.maxFiles
  }

  ghost predicate HoldsBlock(c: Config, r: Ring, k: nat)
    requires c.maxFiles >= 1 && c.maxPerFile >= 1
  {
    && Offset(k, c.maxPerFile) <= |r.written|
    && k % c.maxFiles in r.files
    && r.files[k % c.maxFiles] == BlockOf(r.written, c.maxPerFile, k)
  }

  ghost predicate RingOK(c: Config, r: Ring)
    requires c.maxFiles >= 1 && c.maxPerFile >= 1
  {
    && |r.written| == Offset(r.block, c.maxPerFile) + r.count
    && r.count <= c.maxPerFile
    && r.slot == r.block % c.maxFiles
    && r.overwrites == r.block / c.maxFiles
    && (r.initialized <==> r.count > 0)
    && (forall k: nat :: InRing(c, r, k) ==> HoldsBlock(c, r, k))
    && (forall slot: nat :: slot in r.files <==> slot < Started(r) && slot < c.maxFiles)
  }

  lemma RotateKeepsRing(c: Config, r: Ring)
    requires c.maxFiles >= 1 && c.maxPerFile >= 1 && RingOK(c, r)
    ensures RingOK(c, Rotate(c, r)) && Rotate(c, r).count < c.maxPerFile && Rotate(c, r).written == r.written
  {
    if r.count >= c.maxPerFile {
      NextBlock(r.block, c.maxFiles);
      var r' := Rotate(c, r);
      forall k: nat | InRing(c, r', k) ensures HoldsBlock(c, r', k) {
        assert InRing(c, r, k);
      }
    }
  }

  lemma FullBlock(written: seq<Payload>, p: Payload, perFile: nat, k: nat, block: nat, count: nat)
    requires |written| == Offset(block, perFile) + count && k < block
    ensures Offset(k, perFile) <= |written|
    ensures BlockOf(written + [p], perFile, k) == BlockOf(written, perFile, k)
  {
    OffsetOrder(k, block, perFile);
    assert Offset(k + 1, perFile) == Offset(k, perFile) + perFile;
  }

  lemma CurrentBlock(written: seq<Payload>, p: Payload, perFile: nat, block: nat, count: nat)
    requires |written| == Offset(block, perFile) + count && count < perFile
    ensures BlockOf(written + [p], perFile, block) == BlockOf(written, perFile, block) + [p]
    ensures count == 0 ==> BlockOf(written, perFile, block) == []
  {
    assert Offset(block + 1, perFile) == Offset(block, perFile) + perFile;
  }

  lemma WriteKeepsRing(c: Config, r: Ring, p: Payload)
    requires c.maxFiles >= 1 && c.maxPerFile >= 1 && RingOK(c, r) && r.count < c.maxPerFile
    ensures RingOK(c, Write(r, p))
  {
    var r' := Write(r, p);
    forall k: nat | InRing(c, r', k) ensures HoldsBlock(c, r', k) {
      if k < r.block {
        assert InRing(c, r, k);
        FullBlock(r.written, p, c.maxPerFile, k, r.block, r.count);
        SlotsDiffer(k, r.block, c.maxFiles);
      } else {
        CurrentBlock(r.written, p, c.maxPerFile, r.block, r.count);
        assert r.count > 0 ==> InRing(c, r, r.block);
      }
    }
    if r.block < c.maxFiles {
      DivModUnique(r.block, c.maxFiles, 0, r.block);
    }
  }

  lemma {:induction false} RunKeepsRing(c: Config, steps: seq<Step>)
    requires c.maxFiles >= 1 && c.maxPerFile >= 1
    ensures RingOK(c, Run(c, steps).ring)
  {
    if steps != [] {
      var s := Run(c, steps[..|steps| - 1]);
      RunKeepsRing(c, steps[..|steps| - 1]);
      RotateKeepsRing(c, s.ring);
      RingStep(c, s, steps[|steps| - 1]);
    } else {
      assert forall k: nat :: !InRing(c, EMPTY_RING, k);
      NextBlock(0, c.maxFiles);
      DivModUnique(0, c.maxFiles, 0, 0);
    }
  }

  lemma RingStep(c: Config, s: State, step: Step)
    requires c.maxFiles >= 1 && c.maxPerFile >= 1
    requires RingOK(c, s.ring) && RingOK(c, Rotate(c, s.ring)) && Rotate(c, s.ring).count < c.maxPerFile
    ensures RingOK(c, Next(c, s, step).ring)
  {
    forall p { WriteKeepsRing(c, Rotate(c, s.ring), p); }
  }

  /** What files `from` up to `until` hold, oldest block first. */
  function Held(c: Config, files: map<nat, seq<Payload>>, from: nat, until: nat): seq<Payload>
    requires c.maxFiles >= 1 && from <= until
    decreases until
  {
    if from == until then []
    else
      var slot := (until - 1) % c.maxFiles;
      Held(c, files, from, until - 1) + if slot in files then files[slot] else []
  }

  /** The first block still on disk. */
  function Oldest(c: Config, r: Ring): nat
    requires c.maxFiles >= 1
  {
    if Started(r) <= c.maxFiles then 0 else Started(r) - c.maxFiles
  }

  /** How many payloads the last started block has. */
  function LastCount(c: Config, r: Ring): nat
    requires c.maxPerFile >= 1
  {
    if r.count > 0 then r.count else c.maxPerFile
  }

  lemma {:induction false} HeldIs(c: Config, r: Ring, until: nat)
    requires c.maxFiles >= 1 && c.maxPerFile >= 1 && RingOK(c, r) && Oldest(c, r) <= until < Started(r)
    ensures Offset(Oldest(c, r), c.maxPerFile) <= Offset(until, c.maxPerFile) <= |r.written|
    ensures Held(c, r.files, Oldest(c, r), until)
         == r.written[Offset(Oldest(c, r), c.maxPerFile)..Offset(until, c.maxPerFile)]
    decreases until
  {
    assert InRing(c, r, until) && HoldsBlock(c, r, until);
    if until > Oldest(c, r) {
      HeldIs(c, r, until - 1);
      BlockHeld(c, r, until - 1);
      Joined(r.written, Offset(Oldest(c, r), c.maxPerFile), Offset(until - 1, c.maxPerFile), Offset(until, c.maxPerFile));
    }
  }

  lemma BlockHeld(c: Config, r: Ring, k: nat)
    requires c.maxFiles >= 1 && c.maxPerFile >= 1 && RingOK(c, r) && Oldest(c, r) <= k && k + 1 < Started(r)
    ensures k % c.maxFiles in r.files && Offset(k, c.maxPerFile) <= Offset(k + 1, c.maxPerFile) <= |r.written|
    ensures r.files[k % c.maxFiles] == r.written[Offset(k, c.maxPerFile)..Offset(k + 1, c.maxPerFile)]
  {
    assert InRing(c, r, k) && HoldsBlock(c, r, k);
    OffsetOrder(k + 1, r.block, c.maxPerFile);
  }

  lemma Joined(s: seq<Payload>, from: nat, middle: nat, end: nat)
    requires from <= middle <= end <= |s|
    ensures s[from..middle] + s[middle..end] == s[from..end]
  {
  }

  lemma LastBlock(c: Config, r: Ring)
    requires c.maxFiles >= 1 && c.maxPerFile >= 1 && RingOK(c, r) && Started(r) > 0
    ensures |r.written| == Offset(Started(r) - 1, c.maxPerFile) + LastCount(c, r)
    ensures BlockOf(r.written, c.maxPerFile, Started(r) - 1) == r.written[Offset(Started(r) - 1, c.maxPerFile)..]
  {
    assert Offset(Started(r), c.maxPerFile) == Offset(Started(r) - 1, c.maxPerFile) + c.maxPerFile;
  }

  lemma LastBlockHeld(c: Config, r: Ring, last: nat)
    requires c.maxFiles >= 1 && c.maxPerFile >= 1 && RingOK(c, r) && Started(r) == last + 1
    ensures last % c.maxFiles in r.files && Offset(last, c.maxPerFile) <= |r.written|
    ensures r.files[last % c.maxFiles] == r.written[Offset(last, c.maxPerFile)..]
  {
    assert InRing(c, r, last) && HoldsBlock(c, r, last);
    LastBlock(c, r);
  }

  function Capacity(c: Config, r: Ring): nat
    requires c.maxFiles >= 1 && c.maxPerFile >= 1
  {
    (c.maxFiles - 1) * c.maxPerFile + LastCount(c, r)
  }

  lemma OldestPayload(c: Config, r: Ring)
    requires c.maxFiles >= 1 && c.maxPerFile >= 1 && RingOK(c, r) && Started(r) > 0
    ensures Offset(Oldest(c, r), c.maxPerFile) == |r.written| - Min(|r.written|, Capacity(c, r))
  {
    LastBlock(c, r);
    OffsetIs(c.maxFiles - 1, c.maxPerFile);
    var last := Started(r) - 1;
    if last <= c.maxFiles - 1 {
      OffsetOrder(last, c.maxFiles - 1, c.maxPerFile);
    } else {
      OffsetAdds(c.maxFiles - 1, last - (c.maxFiles - 1), c.maxPerFile);
    }
  }

  /**
   The slots in use are exactly those of the last started blocks, and read in block order they hold exactly the
   last min(n, (maxFiles - 1) * maxPerFile + size of the last block) of the n payloads written.
   */
  lemma RingHoldsTheLatest(c: Config, r: Ring)
    requires c.maxFiles >= 1 && c.maxPerFile >= 1 && RingOK(c, r)
    ensures Held(c, r.files, Oldest(c, r), Started(r)) == r.written[|r.written| - Min(|r.written|, Capacity(c, r))..]
    ensures forall slot: nat :: slot in r.files <==> slot < Min(Started(r), c.maxFiles)
  {
    if Started(r) > 0 {
      var last := Started(r) - 1;
      HeldIs(c, r, last);
      LastBlockHeld(c, r, last);
      OldestPayload(c, r);
      Joined(r.written, Offset(Oldest(c, r), c.maxPerFile), Offset(last, c.maxPerFile), |r.written|);
    }
  }

  lemma Reassociate(q: nat, s: nat, f: nat, b: nat)
    ensures (q * f + s) * b == q * (f * b) + s * b
  {
    assert (q * f + s) * b == (q * f) * b + s * b;
    assert (q * f) * b == q * (f * b);
  }

  lemma RestFits(s: nat, rest: nat, f: nat, b: nat)
    requires s < f && rest < b
    ensures s * b + rest < f * b
  {
    assert f * b - s * b == (f - s) * b;
    MultipleSign(f - s, b);
  }

  lemma NestedQuotient(block: nat, rest: nat, f: nat, b: nat)
    requires f >= 1 && rest < b
    ensures f * b >= 1 && (block * b + rest) / (f * b) == block / f
  {
    var q, s := block / f, block % f;
    RestFits(s, rest, f, b);
    Reassociate(q, s, f, b);
    var product, small := f * b, s * b + rest;
    assert block == q * f + s;
    DivModUnique(block * b + rest, product, q, small);
  }

  /**
   The overwrite counter after n successful writes: (n - 1) / (maxFiles * maxPerFile), except just after a rotation
   whose file could not be opened, when the counter is already ahead of the disk by that rotation.
   */
  lemma OverwriteCounter(c: Config, r: Ring)
    requires c.maxFiles >= 1 && c.maxPerFile >= 1 && RingOK(c, r)
    ensures c.maxFiles * c.maxPerFile >= 1
    ensures r.count > 0 ==> r.overwrites == (|r.written| - 1) / (c.maxFiles * c.maxPerFile)
    ensures r.count == 0 ==> r.overwrites == |r.written| / (c.maxFiles * c.maxPerFile)
  {
    OffsetIs(r.block, c.maxPerFile);
    NestedQuotient(r.block, if r.count > 0 then r.count - 1 else 0, c.maxFiles, c.maxPerFile);
  }

  lemma LapBoundary(n: nat, lap: nat)
    requires n >= 1 && lap >= 1
    ensures (n - 1) / lap == n / lap <==> n % lap != 0
  {
    var q, s := n / lap, n % lap;
    assert n == q * lap + s;
    if s == 0 {
      assert (q - 1) * lap == q * lap - lap;
      MultipleSign(q, lap);
      DivModUnique(n - 1, lap, q - 1, lap - 1);
    } else {
      DivModUnique(n - 1, lap, q, s - 1);
    }
  }

  /** When the counter is the number of completed laps before the n-th write, and when it is one ahead. */
  lemma OverwriteCounterExact(c: Config, r: Ring)
    requires c.maxFiles >= 1 && c.maxPerFile >= 1 && RingOK(c, r) && |r.written| >= 1
    ensures c.maxFiles * c.maxPerFile >= 1
    ensures r.overwrites == (|r.written| - 1) / (c.maxFiles * c.maxPerFile)
       <==> r.count > 0 || |r.written| % (c.maxFiles * c.maxPerFile) != 0
  {
    OverwriteCounter(c, r);
    LapBoundary(|r.written|, c.maxFiles * c.maxPerFile);
  }

  /** A rotation whose file cannot be opened counts an overwrite although the old file is still whole. */
  lemma CounterCanRunAhead()
    ensures var r := Run(Config(1, 1, 1, 1), FAILED_OPEN).ring;
            |r.written| == 1 && r.overwrites == 1 && 0 in r.files && r.files[0] == r.written
  {
    var c := Config(1, 1, 1, 1);
    var s1 := QueueEvent(c, START, 7);
    assert s1.pending[..1] == [7] && s1.pending[1..] == [];
    var s2 := Flush(c, s1, FAILED_OPEN[1].d);
    assert Take(c, s1).payload == Some(Payload(1, [7]));
    assert Rotate(c, EMPTY_RING) == EMPTY_RING;
    assert [] + [Payload(1, [7])] == [Payload(1, [7])];
    assert s2.ring == Write(EMPTY_RING, Payload(1, [7]));
    assert s2.ring == Ring(0, 1, true, 0, map[0 := [Payload(1, [7])]], [Payload(1, [7])], 0);
    var s3 := QueueEvent(c, s2, 8);
    assert FAILED_OPEN[..1][..0] == [] && FAILED_OPEN[..2][..1] == FAILED_OPEN[..1];
    assert FAILED_OPEN[..3][..2] == FAILED_OPEN[..2];
    assert Run(c, FAILED_OPEN[..1]) == s1;
    assert Run(c, FAILED_OPEN[..2]) == s2;
    assert Run(c, FAILED_OPEN[..3]) == s3;
  }

  const FAILED_OPEN := [
    Queued(7), Flushed(Dispatch(true, false, false, true)), Queued(8), Flushed(Dispatch(true, false, false, false))]

  lemma ZeroQuotient(n: nat, f: nat)
    requires f >= 1 && n / f == 0
    ensures n < f
  {
    assert n == (n / f) * f + n % f;
  }

  /** While the overwrite counter is zero everything spooled in this run is still on disk. */
  lemma ZeroMeansNothingLost(c: Config, steps: seq<Step>)
    requires c.maxFiles >= 1 && c.maxPerFile >= 1
    requires Run(c, steps).ring.overwrites == 0
    ensures var r := Run(c, steps).ring; Held(c, r.files, 0, Started(r)) == r.written
  {
    var r := Run(c, steps).ring;
    RunKeepsRing(c, steps);
    ZeroQuotient(r.block, c.maxFiles);
    assert Oldest(c, r) == 0;
    RingHoldsTheLatest(c, r);
    if Started(r) > 0 {
      OldestPayload(c, r);
    }
  }
}
