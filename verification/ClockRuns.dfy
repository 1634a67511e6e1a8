/** Runs of the clock protocol and of decision edges, and what holds of every one of them. */
module ClockRuns {
  import opened Clock
  import opened Common
  import opened Sorting

  // ----- one exchange -----

  /** The response is honest for a client whose clock is behind the server by `delta`: both network delays are non-negative. */
  predicate Genuine(c: Challenge, m: Response, nowMS: int, delta: real)
    requires m.Response?
  {
    && c.sendMS as real <= m.clientReceiveMS as real + delta
    && m.clientSendMS as real + delta <= nowMS as real
  }

  predicate Covers(e: Estimate, delta: real) {
    e.offset - e.uncertainty <= delta <= e.offset + e.uncertainty
  }

  /** Section 8 of RFC 5905: whatever the two delays, the true offset is within half the round trip of the estimate. */
  lemma OffsetWithinUncertainty(player: string, c: Challenge, m: Response, nowMS: int, delta: real)
    requires m.Response? && Genuine(c, m, nowMS, delta)
    ensures Covers(SampleOf(player, c, m, nowMS).estimate, delta)
  {
    var forth := m.clientReceiveMS as real + delta - c.sendMS as real;
    var back := nowMS as real - m.clientSendMS as real - delta;
    assert forth >= 0.0 && back >= 0.0;
    var s := SampleOf(player, c, m, nowMS);
    assert s.roundTripMS as real == forth + back;
    assert s.estimate.offset == delta + (back - forth) * 0.5;
  }

  /** The bound is the best possible: both ends are the true offset of some exchange with the same readings. */
  lemma UncertaintyIsTight(player: string, c: Challenge, m: Response, nowMS: int, delta: real)
    requires m.Response? && Genuine(c, m, nowMS, delta)
    ensures var e := SampleOf(player, c, m, nowMS).estimate;
            Genuine(c, m, nowMS, e.offset - e.uncertainty) && Genuine(c, m, nowMS, e.offset + e.uncertainty)
  {
  }

  predicate WithinClient(e: Edge, t: real) {
    e.clientLowerMS as real <= t <= e.clientUpperMS as real
  }

  predicate WithinServer(e: Edge, t: real) {
    e.lowerMS as real <= t <= e.upperMS as real
  }

  /** Whenever the edge really happened, the server interval contains it. */
  ghost predicate Sound(e: Edge, delta: real) {
    forall t: real :: WithinClient(e, t) && t + delta >= 0.0 ==> WithinServer(e, t + delta)
  }

  lemma MappedIntervalIsSound(player: string, m: EdgeMessage, estimates: map<string, Estimate>, nowMS: int, delta: real)
    requires m.EdgeMessage? && player in estimates && Covers(estimates[player], delta)
    ensures Sound(EdgeOf(player, m, estimates, nowMS), delta)
  {
  }

  // ----- runs -----

  /** One accepted edge of a player: its sequence number, arrival, and the start of the window it was counted in. */
  datatype Stamp = Stamp(sequence: int, timeMS: int, windowMS: int)

  datatype World = World(
    align: Alignment,
    log: EdgeLog,
    nowMS: int,
    issued: nat,
    accepted: seq<(string, int)>,
    stamps: map<string, seq<Stamp>>)

  /** What can happen: challenges to the players present, messages, a player's state being reset, the queues being read. */
  datatype Step =
    | ChallengeAll(players: seq<string>, nowMS: int)
    | Responded(player: string, response: Response, nowMS: int)
    | EdgeArrived(player: string, edge: EdgeMessage, nowMS: int)
    | PlayerReset(player: string, nowMS: int)
    | Drained(nowMS: int)

  const EMPTY := World(Alignment(map[], map[], []), EdgeLog(map[], map[], []), 0, 0, [], map[])

  function Issue(a: Alignment, issued: nat, players: seq<string>, nowMS: int): Alignment {
    if players == [] then a
    else
      var front := players[..|players| - 1];
      Record(Issue(a, issued, front, nowMS), players[|front|], issued + |players|, nowMS)
  }

  function StampsOf(w: World, player: string): seq<Stamp> {
    if player in w.stamps then w.stamps[player] else []
  }

  function Next(nonce: string, w: World, step: Step): World {
    match step
    case ChallengeAll(players, now) =>
      w.(align := Issue(w.align, w.issued, players, now), issued := w.issued + |players|, nowMS := now)
    case Responded(p, m, now) =>
      w.(align := Receive(w.align, nonce, p, m, now), nowMS := now,
         accepted := w.accepted + if Accepts(w.align, nonce, p, m, now) then [(p, m.sequence)] else [])
    case EdgeArrived(p, m, now) =>
      if Admits(w.log, nonce, p, m, now)
      then
        var stamp := Stamp(m.sequence, now, CurrentWindow(w.log, p, now).startMS);
        w.(log := TakeEdge(w.log, w.align.estimates, nonce, p, m, now), nowMS := now,
           stamps := w.stamps[p := StampsOf(w, p) + [stamp]])
      else w.(nowMS := now)
    case PlayerReset(p, now) =>
      w.(align := ResetSamples(w.align, p), log := ResetEdges(w.log, p), nowMS := now,
         stamps := if p == "" then w.stamps else w.stamps - {p})
    case Drained(now) =>
      w.(align := w.align.(samples := []), log := w.log.(edges := []), nowMS := now)
  }

  /** The server clock never goes back. */
  predicate InOrder(steps: seq<Step>) {
    && (forall i :: 0 <= i < |steps| ==> steps[i].nowMS >= 0)
    && (forall i, j :: 0 <= i < j < |steps| ==> steps[i].nowMS <= steps[j].nowMS)
  }

  function Run(nonce: string, steps: seq<Step>): World {
    if steps == [] then EMPTY
    else Next(nonce, Run(nonce, steps[..|steps| - 1]), steps[|steps| - 1])
  }

  // ----- at most one accepted response for each challenge -----

  /** Pending challenges carry distinct numbers that were issued and never accepted. */
  ghost predicate OnceEach(w: World) {
    && (forall p :: p in w.align.pending ==> p != "" && 1 <= w.align.pending[p].sequence <= w.issued)
    && (forall p, q :: p in w.align.pending && q in w.align.pending && p != q
          ==> w.align.pending[p].sequence != w.align.pending[q].sequence)
    && (forall p, i :: p in w.align.pending && 0 <= i < |w.accepted|
          ==> w.accepted[i].1 != w.align.pending[p].sequence)
    && (forall i :: 0 <= i < |w.accepted| ==> 1 <= w.accepted[i].1 <= w.issued)
    && (forall i, j :: 0 <= i < j < |w.accepted| ==> w.accepted[i].1 != w.accepted[j].1)
  }

  lemma {:induction false} IssueKeepsOnce(w: World, players: seq<string>, nowMS: int)
    requires OnceEach(w) && nowMS >= 0
    ensures OnceEach(w.(align := Issue(w.align, w.issued, players, nowMS), issued := w.issued + |players|))
  {
    if players != [] {
      IssueKeepsOnce(w, players[..|players| - 1], nowMS);
    }
  }

  lemma ResponseKeepsOnce(nonce: string, w: World, p: string, m: Response, nowMS: int)
    requires OnceEach(w)
    ensures OnceEach(Next(nonce, w, Responded(p, m, nowMS)))
  {
  }

  lemma ResetKeepsOnce(nonce: string, w: World, p: string, nowMS: int)
    requires OnceEach(w)
    ensures OnceEach(Next(nonce, w, PlayerReset(p, nowMS)))
  {
  }

  lemma StepKeepsOnce(nonce: string, w: World, step: Step)
    requires OnceEach(w) && step.nowMS >= 0
    ensures OnceEach(Next(nonce, w, step))
  {
    match step
    case ChallengeAll(players, now) => IssueKeepsOnce(w, players, now);
    case Responded(p, m, now) => ResponseKeepsOnce(nonce, w, p, m, now);
    case PlayerReset(p, now) => ResetKeepsOnce(nonce, w, p, now);
    case _ =>
  }

  lemma {:induction false} RunKeepsOnce(nonce: string, steps: seq<Step>)
    requires InOrder(steps)
    ensures OnceEach(Run(nonce, steps))
  {
    if steps != [] {
      RunKeepsOnce(nonce, steps[..|steps| - 1]);
      StepKeepsOnce(nonce, Run(nonce, steps[..|steps| - 1]), steps[|steps| - 1]);
    }
  }

  /** No two accepted responses in a run answer the same challenge, and each answers one that was issued. */
  lemma ChallengeAcceptedAtMostOnce(nonce: string, steps: seq<Step>, i: nat, j: nat)
    requires InOrder(steps) && i < j < |Run(nonce, steps).accepted|
    ensures var w := Run(nonce, steps); w.accepted[i].1 != w.accepted[j].1 && 1 <= w.accepted[i].1 <= w.issued
  {
    RunKeepsOnce(nonce, steps);
  }

  // ----- the mapped intervals over a run -----

  predicate Honest(w: World, nonce: string, step: Step, player: string, delta: real) {
    step.Responded? && step.player == player && Accepts(w.align, nonce, player, step.response, step.nowMS)
    ==> Genuine(w.align.pending[player], step.response, step.nowMS, delta)
  }

  predicate HonestAt(nonce: string, steps: seq<Step>, i: nat, player: string, delta: real)
    requires i < |steps|
  {
    Honest(Run(nonce, steps[..i]), nonce, steps[i], player, delta)
  }

  /**
   `player` answers honestly throughout, its clock being `delta(i)` behind the server's when step i happens. The
   offset may change only when the player's state is reset; the other players may send anything.
   */
  ghost predicate HonestRun(nonce: string, steps: seq<Step>, player: string, delta: nat -> real) {
    && (forall i :: 0 <= i < |steps| ==> HonestAt(nonce, steps, i, player, delta(i)))
    && (forall i :: 0 <= i < |steps| ==>
          delta(i + 1) == delta(i) || (steps[i].PlayerReset? && steps[i].player == player))
  }

  ghost predicate Truthful(w: World, player: string, delta: real) {
    && (player in w.align.estimates ==> Covers(w.align.estimates[player], delta))
    && (forall s :: s in w.align.samples && s.player == player ==> Covers(s.estimate, delta))
    && (forall e :: e in w.log.edges && e.player == player && e.aligned ==> Sound(e, delta))
  }

  lemma {:induction false} IssueKeepsEstimates(a: Alignment, issued: nat, players: seq<string>, nowMS: int)
    ensures Issue(a, issued, players, nowMS).estimates == a.estimates
    ensures Issue(a, issued, players, nowMS).samples == a.samples
  {
    if players != [] {
      IssueKeepsEstimates(a, issued, players[..|players| - 1], nowMS);
    }
  }

  lemma ResponseKeepsTruthful(nonce: string, w: World, p: string, m: Response, nowMS: int, player: string, delta: real)
    requires Truthful(w, player, delta) && Honest(w, nonce, Responded(p, m, nowMS), player, delta)
    ensures Truthful(Next(nonce, w, Responded(p, m, nowMS)), player, delta)
  {
    if Accepts(w.align, nonce, p, m, nowMS) && p == player {
      OffsetWithinUncertainty(p, w.align.pending[p], m, nowMS, delta);
    }
  }

  lemma EdgeKeepsTruthful(nonce: string, w: World, p: string, m: EdgeMessage, nowMS: int, player: string, delta: real)
    requires Truthful(w, player, delta)
    ensures Truthful(Next(nonce, w, EdgeArrived(p, m, nowMS)), player, delta)
  {
    if Admits(w.log, nonce, p, m, nowMS) && p == player && p in w.align.estimates {
      MappedIntervalIsSound(p, m, w.align.estimates, nowMS, delta);
    }
  }

  lemma ResetKeepsTruthful(nonce: string, w: World, p: string, nowMS: int, player: string, delta: real, later: real)
    requires Truthful(w, player, delta) && player != "" && (later == delta || p == player)
    ensures Truthful(Next(nonce, w, PlayerReset(p, nowMS)), player, later)
  {
    if p != "" {
      FilterMember(w.align.samples, NotSampleOf(p));
      FilterMember(w.log.edges, NotEdgeOf(p));
    }
  }

  /** For an honest player every queued sample, and every queued edge dated by alignment, covers the truth. */
  lemma {:induction false} RunIsTruthful(nonce: string, steps: seq<Step>, player: string, delta: nat -> real)
    requires player != "" && HonestRun(nonce, steps, player, delta)
    ensures Truthful(Run(nonce, steps), player, delta(|steps|))
  {
    if steps != [] {
      var front, step := steps[..|steps| - 1], steps[|steps| - 1];
      HonestFront(nonce, steps, player, delta);
      RunIsTruthful(nonce, front, player, delta);
      var w := Run(nonce, front);
      assert HonestAt(nonce, steps, |front|, player, delta(|front|));
      match step
      case ChallengeAll(players, now) => IssueKeepsEstimates(w.align, w.issued, players, now);
      case Responded(p, m, now) => ResponseKeepsTruthful(nonce, w, p, m, now, player, delta(|front|));
      case EdgeArrived(p, m, now) => EdgeKeepsTruthful(nonce, w, p, m, now, player, delta(|front|));
      case PlayerReset(p, now) => ResetKeepsTruthful(nonce, w, p, now, player, delta(|front|), delta(|steps|));
      case Drained(_) =>
    }
  }

  lemma HonestFront(nonce: string, steps: seq<Step>, player: string, delta: nat -> real)
    requires steps != [] && HonestRun(nonce, steps, player, delta)
    ensures HonestRun(nonce, steps[..|steps| - 1], player, delta)
  {
    var front := steps[..|steps| - 1];
    forall i | 0 <= i < |front| ensures HonestAt(nonce, front, i, player, delta(i)) {
      assert front[..i] == steps[..i];
      assert HonestAt(nonce, steps, i, player, delta(i));
    }
  }

  // ----- rate and order of edges -----

  /** Windows hold what was counted in them, and ten edges later it is another window. */
  ghost predicate WellSpaced(s: seq<Stamp>) {
    && (forall i :: 0 <= i < |s| ==> s[i].windowMS <= s[i].timeMS < s[i].windowMS + EDGE_WINDOW_MS)
    && (forall i, j :: 0 <= i < j < |s| ==> s[i].sequence < s[j].sequence && s[i].timeMS <= s[j].timeMS)
    && (forall i, j :: 0 <= i < j < |s| ==> s[i].windowMS <= s[j].windowMS)
    && (forall i, j :: 0 <= i && j == i + EDGES_PER_WINDOW && j < |s|
          ==> s[i].windowMS + EDGE_WINDOW_MS <= s[j].windowMS)
  }

  /** The last `w.count` stamps are those of the current window. */
  ghost predicate InWindow(s: seq<Stamp>, w: Window) {
    && 1 <= w.count <= EDGES_PER_WINDOW && w.count <= |s|
    && (forall i :: |s| - w.count <= i < |s| ==> s[i].windowMS == w.startMS)
    && (forall i :: 0 <= i < |s| - w.count ==> s[i].windowMS + EDGE_WINDOW_MS <= w.startMS)
  }

  ghost predicate LimitedFor(s: seq<Stamp>, w: Window, last: int, nowMS: int) {
    && WellSpaced(s)
    && InWindow(s, w)
    && s[|s| - 1].sequence == last
    && s[|s| - 1].timeMS <= nowMS
  }

  ghost predicate Limited(w: World) {
    && w.stamps.Keys == w.log.windows.Keys == w.log.last.Keys
    && (forall p :: p in w.stamps ==> LimitedFor(w.stamps[p], w.log.windows[p], w.log.last[p], w.nowMS))
  }

  /** `stamp` is the next one after s, counted in `current`. */
  ghost predicate Continues(s: seq<Stamp>, w: Window, current: Window, stamp: Stamp) {
    && (s != [] ==>
          && InWindow(s, w) && WellSpaced(s)
          && s[|s| - 1].timeMS <= stamp.timeMS && s[|s| - 1].sequence < stamp.sequence)
    && (current == if s == [] || stamp.timeMS - w.startMS >= EDGE_WINDOW_MS then Window(stamp.timeMS, 0) else w)
    && current.count < EDGES_PER_WINDOW && stamp.windowMS == current.startMS
  }

  lemma StampIsInWindow(s: seq<Stamp>, w: Window, current: Window, stamp: Stamp)
    requires Continues(s, w, current, stamp)
    ensures InWindow(s + [stamp], current.(count := current.count + 1))
  {
    assert s != [] ==> s[|s| - 1].windowMS == w.startMS;
  }

  lemma StampIsLater(s: seq<Stamp>, w: Window, current: Window, stamp: Stamp)
    requires Continues(s, w, current, stamp)
    ensures stamp.windowMS <= stamp.timeMS < stamp.windowMS + EDGE_WINDOW_MS
    ensures forall i :: 0 <= i < |s| ==> s[i].sequence < stamp.sequence && s[i].timeMS <= stamp.timeMS
    ensures forall i :: 0 <= i < |s| ==> s[i].windowMS <= stamp.windowMS
  {
    assert s != [] ==> s[|s| - 1].windowMS == w.startMS;
    assert forall i :: 0 <= i < |s| ==> s[i].timeMS <= s[|s| - 1].timeMS && s[i].sequence <= s[|s| - 1].sequence;
  }

  lemma StampFits(s: seq<Stamp>, w: Window, current: Window, stamp: Stamp)
    requires Continues(s, w, current, stamp)
    ensures WellSpaced(s + [stamp])
  {
    StampIsInWindow(s, w, current, stamp);
    StampIsLater(s, w, current, stamp);
    var s' := s + [stamp];
    assert forall i :: 0 <= i < |s| ==> s'[i] == s[i];
  }

  lemma EdgeFits(nonce: string, w: World, p: string, m: EdgeMessage, nowMS: int)
    requires Limited(w) && w.nowMS <= nowMS && Admits(w.log, nonce, p, m, nowMS)
    ensures var current := CurrentWindow(w.log, p, nowMS);
            LimitedFor(StampsOf(w, p) + [Stamp(m.sequence, nowMS, current.startMS)],
                       current.(count := current.count + 1), m.sequence, nowMS)
  {
    var current := CurrentWindow(w.log, p, nowMS);
    var stamp := Stamp(m.sequence, nowMS, current.startMS);
    var before := if p in w.log.windows then w.log.windows[p] else current;
    assert p in w.stamps ==> LimitedFor(w.stamps[p], w.log.windows[p], w.log.last[p], w.nowMS);
    StampIsInWindow(StampsOf(w, p), before, current, stamp);
    StampFits(StampsOf(w, p), before, current, stamp);
  }

  lemma OneMoreStillLimited(w: World, w': World, p: string, s: seq<Stamp>, current: Window, last: int)
    requires Limited(w) && w.nowMS <= w'.nowMS && LimitedFor(s, current, last, w'.nowMS)
    requires w'.stamps == w.stamps[p := s]
    requires w'.log.windows == w.log.windows[p := current] && w'.log.last == w.log.last[p := last]
    ensures Limited(w')
  {
    forall q | q in w'.stamps && q != p ensures LimitedFor(w'.stamps[q], w'.log.windows[q], w'.log.last[q], w'.nowMS) {
      assert LimitedFor(w.stamps[q], w.log.windows[q], w.log.last[q], w.nowMS);
    }
  }

  lemma EdgeLeaves(nonce: string, w: World, p: string, m: EdgeMessage, nowMS: int, w': World, current: Window)
    requires Admits(w.log, nonce, p, m, nowMS) && current == CurrentWindow(w.log, p, nowMS)
    requires w' == Next(nonce, w, EdgeArrived(p, m, nowMS))
    ensures w'.stamps == w.stamps[p := StampsOf(w, p) + [Stamp(m.sequence, nowMS, current.startMS)]]
    ensures w'.log.windows == w.log.windows[p := current.(count := current.count + 1)]
    ensures w'.log.last == w.log.last[p := m.sequence] && w'.nowMS == nowMS
  {
  }

  lemma EdgeKeepsLimited(nonce: string, w: World, p: string, m: EdgeMessage, nowMS: int, w': World)
    requires Limited(w) && w.nowMS <= nowMS && Admits(w.log, nonce, p, m, nowMS)
    requires w' == Next(nonce, w, EdgeArrived(p, m, nowMS))
    ensures Limited(w')
  {
    var current := CurrentWindow(w.log, p, nowMS);
    EdgeLeaves(nonce, w, p, m, nowMS, w', current);
    EdgeFits(nonce, w, p, m, nowMS);
    OneMoreStillLimited(w, w', p, StampsOf(w, p) + [Stamp(m.sequence, nowMS, current.startMS)],
                        current.(count := current.count + 1), m.sequence);
  }

  lemma LaterStillLimited(w: World, w': World)
    requires Limited(w) && w'.log.windows == w.log.windows && w'.log.last == w.log.last && w'.stamps == w.stamps
    requires w.nowMS <= w'.nowMS
    ensures Limited(w')
  {
  }

  lemma ResetStillLimited(w: World, p: string, nowMS: int)
    requires Limited(w) && w.nowMS <= nowMS && p != ""
    ensures Limited(Next("", w, PlayerReset(p, nowMS)))
  {
    var w' := Next("", w, PlayerReset(p, nowMS));
    assert w'.stamps == w.stamps - {p} && w'.log.windows == w.log.windows - {p} && w'.log.last == w.log.last - {p};
  }

  lemma StepKeepsLimited(nonce: string, w: World, step: Step)
    requires Limited(w) && w.nowMS <= step.nowMS
    ensures Limited(Next(nonce, w, step))
  {
    if step.EdgeArrived? && Admits(w.log, nonce, step.player, step.edge, step.nowMS) {
      EdgeKeepsLimited(nonce, w, step.player, step.edge, step.nowMS, Next(nonce, w, step));
    } else if step.PlayerReset? && step.player != "" {
      ResetStillLimited(w, step.player, step.nowMS);
    } else {
      LaterStillLimited(w, Next(nonce, w, step));
    }
  }

  lemma {:induction false} RunIsLimited(nonce: string, steps: seq<Step>)
    requires InOrder(steps)
    ensures Limited(Run(nonce, steps))
    ensures Run(nonce, steps).nowMS == if steps == [] then 0 else steps[|steps| - 1].nowMS
  {
    if steps != [] {
      RunIsLimited(nonce, steps[..|steps| - 1]);
      StepKeepsLimited(nonce, Run(nonce, steps[..|steps| - 1]), steps[|steps| - 1]);
    }
  }

  /**
   Since a player's state was last reset: accepted sequence numbers increase strictly, at most ten edges share a
   window, and any twenty-one accepted edges in a row take more than a second.
   */
  lemma EdgesAreRateLimited(nonce: string, steps: seq<Step>, player: string, i: nat, j: nat)
    requires InOrder(steps) && player in Run(nonce, steps).stamps
    requires i < j < |Run(nonce, steps).stamps[player]|
    ensures var s := Run(nonce, steps).stamps[player];
            && s[i].sequence < s[j].sequence
            && (j >= i + EDGES_PER_WINDOW ==> s[i].windowMS != s[j].windowMS)
            && (j >= i + 2 * EDGES_PER_WINDOW ==> s[j].timeMS - s[i].timeMS > EDGE_WINDOW_MS)
  {
    RunIsLimited(nonce, steps);
    var w := Run(nonce, steps);
    var s := w.stamps[player];
    assert LimitedFor(s, w.log.windows[player], w.log.last[player], w.nowMS);
    if j >= i + EDGES_PER_WINDOW {
      LaterWindow(s, i, j);
    }
    if j >= i + 2 * EDGES_PER_WINDOW {
      LaterWindow(s, i + EDGES_PER_WINDOW, j);
    }
  }

  lemma {:induction false} LaterWindow(s: seq<Stamp>, i: nat, j: nat)
    requires WellSpaced(s) && i + EDGES_PER_WINDOW <= j < |s|
    ensures s[i].windowMS + EDGE_WINDOW_MS <= s[j].windowMS
  {
    assert s[i].windowMS + EDGE_WINDOW_MS <= s[i + EDGES_PER_WINDOW].windowMS;
  }

  // ----- bounds -----

  /** The queues stay within their limits, accepted exchanges are short, and no interval is empty. */
  ghost predicate Bounded(w: World) {
    && |w.align.samples| <= MAX_QUEUED && |w.log.edges| <= MAX_QUEUED
    && (forall p :: p in w.align.pending ==>
          w.align.pending[p].expiryMS == w.align.pending[p].sendMS + CHALLENGE_LIFETIME_MS)
    && (forall s :: s in w.align.samples ==> 0.0 <= s.estimate.uncertainty <= 5000.0)
    && (forall p :: p in w.align.estimates ==> 0.0 <= w.align.estimates[p].uncertainty <= 5000.0)
    && (forall e :: e in w.log.edges ==> 0 <= e.lowerMS <= e.upperMS && DatedByArrival(e))
  }

  /** Without an alignment the interval is the last second before arrival, cut off at the start of the clock. */
  predicate DatedByArrival(e: Edge) {
    !e.aligned ==> e.lowerMS == Max(0, e.receiveMS - 1000) && e.upperMS == e.receiveMS
  }

  lemma {:induction false} IssueKeepsBounded(w: World, issued: nat, players: seq<string>, nowMS: int)
    requires Bounded(w)
    ensures Bounded(w.(align := Issue(w.align, issued, players, nowMS)))
  {
    if players != [] {
      IssueKeepsBounded(w, issued, players[..|players| - 1], nowMS);
    }
  }

  lemma StepKeepsBounded(nonce: string, w: World, step: Step)
    requires Bounded(w) && step.nowMS >= 0
    ensures Bounded(Next(nonce, w, step))
  {
    match step
    case ChallengeAll(players, now) => IssueKeepsBounded(w, w.issued, players, now);
    case PlayerReset(p, _) =>
      FilterShorter(w.align.samples, NotSampleOf(p));
      FilterShorter(w.log.edges, NotEdgeOf(p));
      FilterMember(w.align.samples, NotSampleOf(p));
      FilterMember(w.log.edges, NotEdgeOf(p));
    case _ =>
  }

  lemma {:induction false} RunIsBounded(nonce: string, steps: seq<Step>)
    requires InOrder(steps)
    ensures Bounded(Run(nonce, steps))
  {
    if steps != [] {
      RunIsBounded(nonce, steps[..|steps| - 1]);
      StepKeepsBounded(nonce, Run(nonce, steps[..|steps| - 1]), steps[|steps| - 1]);
    }
  }

  /** In every run the interval of an edge that was not aligned is right exactly for events at most a second old on arrival. */
  lemma FallbackIsSoundForRecent(nonce: string, steps: seq<Step>, e: Edge, t: real)
    requires InOrder(steps) && e in Run(nonce, steps).log.edges && !e.aligned && t >= 0.0
    ensures WithinServer(e, t) <==> (e.receiveMS - 1000) as real <= t <= e.receiveMS as real
  {
    RunIsBounded(nonce, steps);
    assert DatedByArrival(e);
  }
}
