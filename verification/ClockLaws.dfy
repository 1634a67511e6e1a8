/** When the server takes a clock response or a decision edge, and what it makes of them, from the messages' own fields. */
module ClockLaws {
  import opened Clock
  import opened ClockRuns
  import opened Common
  import opened Sorting

  // ----- challenges and responses -----

  /** A challenge stays open for ten seconds and replaces the player's previous one. */
  lemma ChallengeIsOpen(a: Alignment, player: string, sequence: int, sendMS: int)
    ensures var t := Record(a, player, sequence, sendMS);
            && t.estimates == a.estimates && t.samples == a.samples
            && (player != "" && sequence >= 1 && sendMS >= 0 ==>
                  t.pending == a.pending[player := Challenge(sequence, sendMS, sendMS + 10000)])
            && (player == "" || sequence < 1 || sendMS < 0 ==> t == a)
  {
  }

  predicate WellFormed(nonce: string, m: Response) {
    m.Response? && m.schemaVersion == 1 && m.nonce == nonce && 0 <= m.clientReceiveMS && m.clientReceiveMS <= m.clientSendMS
  }

  /** It carries the number and the send time of the open challenge, and comes in time. */
  predicate Fits(m: Response, c: Challenge, nowMS: int)
    requires m.Response?
  {
    m.sequence == c.sequence && m.echoedSendMS == c.sendMS && c.sendMS <= nowMS && nowMS <= c.expiryMS
  }

  predicate Taken(a: Alignment, nonce: string, player: string, m: Response, nowMS: int) {
    WellFormed(nonce, m) && player in a.pending && Fits(m, a.pending[player], nowMS)
  }

  /** The estimate of one exchange: the mean of the two offsets it shows, give or take half the time on the network. */
  predicate Estimates1(e: Estimate, c: Challenge, m: Response, nowMS: int)
    requires m.Response?
  {
    var network := (nowMS - c.sendMS) - (m.clientSendMS - m.clientReceiveMS);
    && 2.0 * e.offset == ((c.sendMS - m.clientReceiveMS) + (nowMS - m.clientSendMS)) as real
    && 2.0 * e.uncertainty == (if network > 0 then network else 0) as real
  }

  /**
   A well-formed response closes the player's challenge. Exactly one that fits it is accepted, and gives the player the
   estimate of that exchange; nothing else changes an estimate, and nobody else's is touched.
   */
  lemma ResponseDecides(a: Alignment, nonce: string, player: string, m: Response, nowMS: int)
    requires "" !in a.pending
    ensures var t := Receive(a, nonce, player, m, nowMS);
            && (Accepts(a, nonce, player, m, nowMS) <==> Taken(a, nonce, player, m, nowMS))
            && t.pending == (if WellFormed(nonce, m) then a.pending - {player} else a.pending)
            && (!Taken(a, nonce, player, m, nowMS) ==> t.estimates == a.estimates && t.samples == a.samples)
            && (Taken(a, nonce, player, m, nowMS) ==>
                  && player in t.estimates && Estimates1(t.estimates[player], a.pending[player], m, nowMS)
                  && t.estimates == a.estimates[player := t.estimates[player]]
                  && t.samples != [] && SampleTells(t.samples[|t.samples| - 1], player, t.estimates[player], m, nowMS))
  {
  }

  predicate SampleTells(s: Sample, player: string, e: Estimate, m: Response, nowMS: int)
    requires m.Response?
  {
    && s.player == player && s.estimate == e && s.sequence == m.sequence && s.sendMS == m.echoedSendMS
    && s.clientReceiveMS == m.clientReceiveMS && s.clientSendMS == m.clientSendMS && s.receiveMS == nowMS
  }

  // ----- decision edges -----

  predicate Sensible(nonce: string, m: EdgeMessage) {
    && m.EdgeMessage? && m.schemaVersion == 1 && m.nonce == nonce && m.sequence >= 1
    && 0 <= m.clientLowerMS && m.clientLowerMS <= m.clientUpperMS && 0.5 <= m.directionLength && m.directionLength <= 1.5
    && m.kind in ["WEAPON_RAISED", "ADS_ENTERED", "OPTICS_ENTERED", "DELIBERATE_CAMERA_TURN", "SHOT_FIRED_CLIENT"]
  }

  /** How many edges of the player the second that is still running has seen. */
  function SeenThisSecond(l: EdgeLog, player: string, nowMS: int): int {
    if player in l.windows && nowMS < l.windows[player].startMS + 1000 then l.windows[player].count else 0
  }

  /** When that second started: with this edge, if none is running. */
  function SecondOf(l: EdgeLog, player: string, nowMS: int): int {
    if player in l.windows && nowMS < l.windows[player].startMS + 1000 then l.windows[player].startMS else nowMS
  }

  predicate Admissible(l: EdgeLog, nonce: string, player: string, m: EdgeMessage, nowMS: int) {
    && Sensible(nonce, m) && (player in l.last ==> l.last[player] < m.sequence)
    && SeenThisSecond(l, player, nowMS) < 10
  }

  /** What is kept of an edge: its own account, and its interval on the server's clock. */
  predicate Keeps(e: Edge, player: string, m: EdgeMessage, estimates: map<string, Estimate>, nowMS: int)
    requires m.EdgeMessage?
  {
    && e.player == player && e.kind == m.kind && e.sequence == m.sequence && e.receiveMS == nowMS
    && e.clientLowerMS == m.clientLowerMS && e.clientUpperMS == m.clientUpperMS
    && (e.aligned <==> player in estimates)
    && (player !in estimates ==> e.upperMS == nowMS && e.lowerMS == if nowMS > 1000 then nowMS - 1000 else 0)
    && (player in estimates ==> Mapped(e, estimates[player]))
  }

  /** Mapped with the estimate, rounded outwards to whole milliseconds, and clipped at zero. */
  predicate Mapped(e: Edge, x: Estimate) {
    var lower, upper := e.clientLowerMS as real + x.offset - x.uncertainty, e.clientUpperMS as real + x.offset + x.uncertainty;
    && 0 <= e.lowerMS <= e.upperMS
    && (lower >= 0.0 ==> e.lowerMS as real <= lower < e.lowerMS as real + 1.0)
    && (lower < 0.0 ==> e.lowerMS == 0)
    && (upper > e.lowerMS as real ==> e.upperMS as real - 1.0 < upper <= e.upperMS as real)
    && (upper <= e.lowerMS as real ==> e.upperMS == e.lowerMS)
  }

  lemma EdgeIsKept(player: string, m: EdgeMessage, estimates: map<string, Estimate>, nowMS: int)
    requires m.EdgeMessage?
    ensures Keeps(EdgeOf(player, m, estimates, nowMS), player, m, estimates, nowMS)
  {
  }

  lemma AdmissionIs(l: EdgeLog, nonce: string, player: string, m: EdgeMessage, nowMS: int)
    ensures Admits(l, nonce, player, m, nowMS) <==> Admissible(l, nonce, player, m, nowMS)
    ensures CurrentWindow(l, player, nowMS) == Window(SecondOf(l, player, nowMS), SeenThisSecond(l, player, nowMS))
  {
  }

  /** Exactly the admissible edges are kept: the newest in the queue, counted in their second, and last of their player. */
  lemma EdgeDecides(l: EdgeLog, estimates: map<string, Estimate>, nonce: string, player: string, m: EdgeMessage, nowMS: int)
    ensures var t := TakeEdge(l, estimates, nonce, player, m, nowMS);
            && (Admits(l, nonce, player, m, nowMS) <==> Admissible(l, nonce, player, m, nowMS))
            && (!Admissible(l, nonce, player, m, nowMS) ==> t == l)
            && (Admissible(l, nonce, player, m, nowMS) ==>
                  && t.edges != [] && Keeps(t.edges[|t.edges| - 1], player, m, estimates, nowMS)
                  && t.edges[..|t.edges| - 1] == (if |l.edges| >= 128 then l.edges[1..] else l.edges)
                  && t.last == l.last[player := m.sequence]
                  && player in t.windows && t.windows == l.windows[player := t.windows[player]]
                  && t.windows[player].count == SeenThisSecond(l, player, nowMS) + 1
                  && t.windows[player].startMS == SecondOf(l, player, nowMS))
  {
    AdmissionIs(l, nonce, player, m, nowMS);
    if Admissible(l, nonce, player, m, nowMS) {
      EdgeIsKept(player, m, estimates, nowMS);
    }
  }

  // ----- forgetting a player -----

  /** `rest` keeps every item of the others, as often and in the same order, and none of the player's. */
  ghost predicate OthersRemain<T(!new)>(queue: seq<T>, rest: seq<T>, mine: T -> bool) {
    && (forall x :: multiset(rest)[x] == if mine(x) then 0 else multiset(queue)[x])
    && exists at: seq<nat> :: Picks(queue, rest, at)
  }

  ghost predicate Picks<T>(queue: seq<T>, rest: seq<T>, at: seq<nat>) {
    && |at| == |rest| && (forall i :: 0 <= i < |at| ==> at[i] < |queue| && rest[i] == queue[at[i]])
    && forall i, j :: 0 <= i < j < |at| ==> at[i] < at[j]
  }

  /** The same places in a queue with one more item in front. */
  function Shifted(at: seq<nat>): (r: seq<nat>)
    ensures |r| == |at| && forall i :: 0 <= i < |at| ==> r[i] == at[i] + 1
  {
    seq(|at|, i requires 0 <= i < |at| => at[i] + 1)
  }

  lemma PicksShifted<T>(first: T, queue: seq<T>, rest: seq<T>, at: seq<nat>)
    requires Picks(queue, rest, at)
    ensures Picks([first] + queue, rest, Shifted(at))
  {
  }

  lemma PicksFirst<T>(first: T, queue: seq<T>, rest: seq<T>, at: seq<nat>)
    requires Picks([first] + queue, rest, at) && forall i :: 0 <= i < |at| ==> at[i] > 0
    ensures Picks([first] + queue, [first] + rest, [0] + at)
  {
  }

  lemma {:induction false} FilterPicks<T>(queue: seq<T>, keep: T -> bool) returns (at: seq<nat>)
    ensures Picks(queue, Filter(queue, keep), at)
  {
    if queue == [] {
      at := [];
    } else {
      var later := FilterPicks(queue[1..], keep);
      assert queue == [queue[0]] + queue[1..];
      PicksShifted(queue[0], queue[1..], Filter(queue[1..], keep), later);
      at := Shifted(later);
      if keep(queue[0]) {
        PicksFirst(queue[0], queue[1..], Filter(queue[1..], keep), at);
        at := [0] + at;
      }
    }
  }

  lemma FilterLeavesOthers<T(!new)>(queue: seq<T>, keep: T -> bool, mine: T -> bool)
    requires forall x :: keep(x) <==> !mine(x)
    ensures OthersRemain(queue, Filter(queue, keep), mine)
  {
    var at := FilterPicks(queue, keep);
    forall x ensures multiset(Filter(queue, keep))[x] == if mine(x) then 0 else multiset(queue)[x] {
      FilterCount(queue, keep, x);
    }
  }

  ghost predicate OnlyMineGone<V(!new)>(m: map<string, V>, m': map<string, V>, player: string) {
    m'.Keys == m.Keys - {player} && forall p :: p in m' ==> m'[p] == m[p]
  }

  /** When a player's session ends the clock tables, the edge tables and all four queues lose that player, and nobody else. */
  lemma ResetForgetsPlayer(
      a: Alignment, l: EdgeLog, b: BatchLog, health: seq<ClientHealth>, player: string)
    requires player != ""
    ensures var t := ResetSamples(a, player);
            && OnlyMineGone(a.pending, t.pending, player) && OnlyMineGone(a.estimates, t.estimates, player)
            && OthersRemain(a.samples, t.samples, (s: Sample) => s.player == player)
    ensures var t := ResetEdges(l, player);
            && OnlyMineGone(l.last, t.last, player) && OnlyMineGone(l.windows, t.windows, player)
            && OthersRemain(l.edges, t.edges, (e: Edge) => e.player == player)
    ensures var t := ResetBatches(b, player);
            && OnlyMineGone(b.last, t.last, player) && OnlyMineGone(b.windows, t.windows, player)
            && OthersRemain(b.batches, t.batches, (x: ClientBatch) => x.player == player)
    ensures OthersRemain(health, ResetHealth(health, player), (h: ClientHealth) => h.player == player)
  {
    FilterLeavesOthers(a.samples, NotSampleOf(player), (s: Sample) => s.player == player);
    FilterLeavesOthers(l.edges, NotEdgeOf(player), (e: Edge) => e.player == player);
    FilterLeavesOthers(b.batches, NotBatchOf(player), (x: ClientBatch) => x.player == player);
    FilterLeavesOthers(health, NotHealthOf(player), (h: ClientHealth) => h.player == player);
  }

  // ----- whole runs -----

  /** The step challenges the player, among others. */
  predicate Challenges1(step: Step, player: string) {
    step.ChallengeAll? && player in step.players
  }

  /** The step closes the player's challenge: with a well-formed response, whatever it says, or with the player's state. */
  predicate Closes(nonce: string, step: Step, player: string) {
    || (step.Responded? && step.player == player && WellFormed(nonce, step.response))
    || (step.PlayerReset? && step.player == player)
  }

  /** The player was last challenged at step j, and nothing has closed that challenge before step n. */
  ghost predicate OpenSince(nonce: string, steps: seq<Step>, player: string, j: nat, n: nat)
    requires n <= |steps|
  {
    && j < n && Challenges1(steps[j], player)
    && forall i :: j < i < n ==> !Challenges1(steps[i], player) && !Closes(nonce, steps[i], player)
  }

  ghost predicate IsOpen(nonce: string, steps: seq<Step>, player: string, n: nat)
    requires n <= |steps|
  {
    exists j: nat :: OpenSince(nonce, steps, player, j, n)
  }

  lemma {:induction false} IssueOpens(a: Alignment, issued: nat, players: seq<string>, nowMS: int, player: string)
    requires nowMS >= 0 && player != ""
    ensures var t := Issue(a, issued, players, nowMS);
            && (player in players ==> player in t.pending && t.pending[player].sendMS == nowMS
                                      && t.pending[player].expiryMS == nowMS + 10000)
            && (player !in players ==> (player in t.pending <==> player in a.pending)
                                       && (player in a.pending ==> t.pending[player] == a.pending[player]))
  {
    if players != [] {
      var front := players[..|players| - 1];
      IssueOpens(a, issued, front, nowMS, player);
      assert players == front + [players[|front|]];
    }
  }

  lemma {:induction false} NobodyUnnamed(nonce: string, steps: seq<Step>)
    ensures "" !in Run(nonce, steps).align.pending
  {
    if steps != [] {
      NobodyUnnamed(nonce, steps[..|steps| - 1]);
      if steps[|steps| - 1].ChallengeAll? {
        var w := Run(nonce, steps[..|steps| - 1]);
        IssueNamed(w.align, w.issued, steps[|steps| - 1].players, steps[|steps| - 1].nowMS);
      }
    }
  }

  lemma {:induction false} IssueNamed(a: Alignment, issued: nat, players: seq<string>, nowMS: int)
    requires "" !in a.pending
    ensures "" !in Issue(a, issued, players, nowMS).pending
  {
    if players != [] {
      IssueNamed(a, issued, players[..|players| - 1], nowMS);
    }
  }

  /** What one step makes of the player's challenge. */
  lemma StepOnChallenge(nonce: string, w: World, step: Step, player: string)
    requires step.nowMS >= 0 && player != "" && "" !in w.align.pending
    ensures var before, after := w.align.pending, Next(nonce, w, step).align.pending;
            && (Challenges1(step, player) ==>
                  player in after && after[player].sendMS == step.nowMS && after[player].expiryMS == step.nowMS + 10000)
            && (Closes(nonce, step, player) ==> player !in after)
            && (!Challenges1(step, player) && !Closes(nonce, step, player) ==>
                  (player in after <==> player in before) && (player in before ==> after[player] == before[player]))
  {
    match step
    case ChallengeAll(players, now) => IssueOpens(w.align, w.issued, players, now, player);
    case Responded(p, m, now) => ResponseDecides(w.align, nonce, p, m, now);
    case _ =>
  }

  ghost predicate SentAt(c: Challenge, step: Step) {
    c.sendMS == step.nowMS && c.expiryMS == step.nowMS + 10000
  }

  ghost predicate OpenedBy(nonce: string, steps: seq<Step>, player: string, n: nat, c: Challenge)
    requires n <= |steps|
  {
    exists j: nat :: OpenSince(nonce, steps, player, j, n) && SentAt(c, steps[j])
  }

  /** A challenge is open exactly when its player was challenged and nothing has closed it since. */
  lemma {:induction false} PendingIsOpen(nonce: string, steps: seq<Step>, player: string, n: nat)
    requires InOrder(steps) && n <= |steps| && player != ""
    ensures var pending := Run(nonce, steps[..n]).align.pending;
            && (player in pending ==> OpenedBy(nonce, steps, player, n, pending[player]))
            && (player in pending <==> IsOpen(nonce, steps, player, n))
  {
    if n > 0 {
      PendingIsOpen(nonce, steps, player, n - 1);
      NobodyUnnamed(nonce, steps[..n - 1]);
      assert steps[..n][..n - 1] == steps[..n - 1];
      StepOnChallenge(nonce, Run(nonce, steps[..n - 1]), steps[n - 1], player);
      OpenStep(nonce, steps, player, n, Run(nonce, steps[..n - 1]).align.pending, Run(nonce, steps[..n]).align.pending);
    }
  }

  lemma OpenStep(nonce: string, steps: seq<Step>, player: string, n: nat,
                 before: map<string, Challenge>, after: map<string, Challenge>)
    requires 0 < n <= |steps|
    requires player in before ==> OpenedBy(nonce, steps, player, n - 1, before[player])
    requires player in before <==> IsOpen(nonce, steps, player, n - 1)
    requires var step := steps[n - 1];
             && (Challenges1(step, player) ==> player in after && SentAt(after[player], step))
             && (Closes(nonce, step, player) ==> player !in after)
             && (!Challenges1(step, player) && !Closes(nonce, step, player) ==>
                   (player in after <==> player in before) && (player in before ==> after[player] == before[player]))
    ensures player in after ==> OpenedBy(nonce, steps, player, n, after[player])
    ensures player in after <==> IsOpen(nonce, steps, player, n)
  {
    var step := steps[n - 1];
    if Challenges1(step, player) {
      assert OpenSince(nonce, steps, player, n - 1, n);
    } else {
      if player in after {
        var j: nat :| OpenSince(nonce, steps, player, j, n - 1) && SentAt(before[player], steps[j]);
        assert OpenSince(nonce, steps, player, j, n);
      }
      if j: nat :| OpenSince(nonce, steps, player, j, n) {
        assert j < n - 1 && OpenSince(nonce, steps, player, j, n - 1);
      }
    }
  }

  /**
   Every accepted response of a run answers the player's latest challenge, echoing when it was sent, at most ten seconds
   later, with no other well-formed response and no reset of the player in between.
   */
  lemma AcceptedAnswersLatest(nonce: string, steps: seq<Step>, k: nat) returns (j: nat)
    requires InOrder(steps) && k < |steps| && steps[k].Responded? && steps[k].player != ""
    requires Accepts(Run(nonce, steps[..k]).align, nonce, steps[k].player, steps[k].response, steps[k].nowMS)
    ensures OpenSince(nonce, steps, steps[k].player, j, k)
    ensures steps[k].response.echoedSendMS == steps[j].nowMS
    ensures steps[j].nowMS <= steps[k].nowMS <= steps[j].nowMS + 10000
  {
    var p, a := steps[k].player, Run(nonce, steps[..k]).align;
    PendingIsOpen(nonce, steps, p, k);
    NobodyUnnamed(nonce, steps[..k]);
    ResponseDecides(a, nonce, p, steps[k].response, steps[k].nowMS);
    j :| OpenSince(nonce, steps, p, j, k) && SentAt(a.pending[p], steps[j]);
  }
}
