/**
 The server's view of each client's clock, and the decision edges it dates with that view. The client clock is
 assumed to run at the server's rate; offsets are exact reals, everything read from a clock is an integer.
 */
module Clock {
  import opened Common
  import opened Sorting

  const SCHEMA_VERSION := 1
  const MAX_QUEUED := 128
  const CHALLENGE_LIFETIME_MS := 10000
  const EDGE_WINDOW_MS := 1000
  const EDGES_PER_WINDOW := 10

  datatype Challenge = Challenge(sequence: int, sendMS: int, expiryMS: int)

  /** Server time minus client time, with the half-width of the interval it lies in. */
  datatype Estimate = Estimate(offset: real, uncertainty: real)

  datatype Sample = Sample(
    player: string,
    sequence: int,
    sendMS: int,
    clientReceiveMS: int,
    clientSendMS: int,
    receiveMS: int,
    roundTripMS: int,
    estimate: Estimate)

  /** `Malformed` stands for a message without a sender identity or with an unreadable field. */
  datatype Response =
    | MalformedResponse
    | Response(schemaVersion: int, nonce: string, sequence: int, echoedSendMS: int,
               clientReceiveMS: int, clientSendMS: int)

  datatype Alignment = Alignment(
    pending: map<string, Challenge>,
    estimates: map<string, Estimate>,
    samples: seq<Sample>)

  datatype EdgeMessage =
    | MalformedEdge
    | EdgeMessage(schemaVersion: int, nonce: string, sequence: int, clientLowerMS: int, clientUpperMS: int,
                  kind: string, directionLength: real)

  datatype Edge = Edge(
    player: string,
    kind: string,
    sequence: int,
    clientLowerMS: int,
    clientUpperMS: int,
    lowerMS: int,
    upperMS: int,
    receiveMS: int,
    aligned: bool)

  datatype Window = Window(startMS: int, count: int)

  datatype EdgeLog = EdgeLog(last: map<string, int>, windows: map<string, Window>, edges: seq<Edge>)

  /** A batch of samples as it waits to be processed; the samples are not modelled. */
  datatype ClientBatch = ClientBatch(player: string, sequence: int, receiveMS: int)

  datatype BatchLog = BatchLog(last: map<string, int>, windows: map<string, Window>, batches: seq<ClientBatch>)

  /** A client's report on its own collector; the counts in it are not modelled. */
  datatype ClientHealth = ClientHealth(player: string, receiveMS: int)

  /** The queues keep the newest entries. */
  function Push<T>(queue: seq<T>, item: T): (r: seq<T>)
    ensures |queue| <= MAX_QUEUED ==> |r| <= MAX_QUEUED
    ensures |r| > 0 && r[|r| - 1] == item
    ensures forall x :: x in r ==> x in queue || x == item
  {
    (if |queue| >= MAX_QUEUED then queue[1..] else queue) + [item]
  }

  // ----- challenges and responses -----

  function Record(a: Alignment, player: string, sequence: int, sendMS: int): Alignment {
    if player == "" || sequence < 1 || sendMS < 0 then a
    else a.(pending := a.pending[player := Challenge(sequence, sendMS, sendMS + CHALLENGE_LIFETIME_MS)])
  }

  function Forget(a: Alignment, player: string): Alignment {
    if player == "" then a else a.(pending := a.pending - {player})
  }

  function ForgetAlignment(a: Alignment, player: string): Alignment {
    if player == "" then a else a.(pending := a.pending - {player}, estimates := a.estimates - {player})
  }

  predicate ResponseValid(nonce: string, m: Response) {
    && m.Response?
    && m.schemaVersion == SCHEMA_VERSION
    && m.nonce == nonce
    && 0 <= m.clientReceiveMS <= m.clientSendMS
  }

  predicate Answers(c: Challenge, m: Response, nowMS: int)
    requires m.Response?
  {
    && m.sequence == c.sequence
    && m.echoedSendMS == c.sendMS
    && c.sendMS <= nowMS <= c.expiryMS
  }

  function RoundTrip(c: Challenge, m: Response, nowMS: int): (r: int)
    requires m.Response?
    ensures r >= 0
  {
    var measured := (nowMS - c.sendMS) - (m.clientSendMS - m.clientReceiveMS);
    if measured < 0 then 0 else measured
  }

  function SampleOf(player: string, c: Challenge, m: Response, nowMS: int): Sample
    requires m.Response?
  {
    var roundTrip := RoundTrip(c, m, nowMS);
    Sample(player, m.sequence, c.sendMS, m.clientReceiveMS, m.clientSendMS, nowMS, roundTrip,
           Estimate(((c.sendMS - m.clientReceiveMS) + (nowMS - m.clientSendMS)) as real * 0.5, roundTrip as real * 0.5))
  }

  predicate Accepts(a: Alignment, nonce: string, player: string, m: Response, nowMS: int) {
    ResponseValid(nonce, m) && player in a.pending && Answers(a.pending[player], m, nowMS)
  }

  /** A well-formed response uses up the pending challenge whether or not it answers it. */
  function Receive(a: Alignment, nonce: string, player: string, m: Response, nowMS: int): Alignment {
    if !ResponseValid(nonce, m) || player !in a.pending then a
    else if !Answers(a.pending[player], m, nowMS) then Forget(a, player)
    else
      var sample := SampleOf(player, a.pending[player], m, nowMS);
      Forget(a, player).(estimates := a.estimates[player := sample.estimate], samples := Push(a.samples, sample))
  }

  // ----- decision edges -----

  predicate IsDecisionEdge(kind: string) {
    kind == "WEAPON_RAISED" || kind == "ADS_ENTERED" || kind == "OPTICS_ENTERED"
    || kind == "DELIBERATE_CAMERA_TURN" || kind == "SHOT_FIRED_CLIENT"
  }

  predicate EdgeValid(nonce: string, m: EdgeMessage) {
    && m.EdgeMessage?
    && m.schemaVersion == SCHEMA_VERSION
    && m.nonce == nonce
    && m.sequence >= 1
    && 0 <= m.clientLowerMS <= m.clientUpperMS
    && IsDecisionEdge(m.kind)
    && 0.5 <= m.directionLength <= 1.5
  }

  function Ceiling(x: real): (r: int)
    ensures x <= r as real < x + 1.0
  {
    -(-x).Floor
  }

  function LowerOn(clientLowerMS: int, e: Estimate): int {
    Max(0, (clientLowerMS as real + e.offset - e.uncertainty).Floor)
  }

  function UpperOn(clientUpperMS: int, lowerMS: int, e: Estimate): int {
    Max(lowerMS, Ceiling(clientUpperMS as real + e.offset + e.uncertainty))
  }

  /** Without an alignment the edge is dated by when it arrived. */
  function EdgeOf(player: string, m: EdgeMessage, estimates: map<string, Estimate>, nowMS: int): Edge
    requires m.EdgeMessage?
  {
    if player in estimates then
      var lower := LowerOn(m.clientLowerMS, estimates[player]);
      Edge(player, m.kind, m.sequence, m.clientLowerMS, m.clientUpperMS,
           lower, UpperOn(m.clientUpperMS, lower, estimates[player]), nowMS, true)
    else
      Edge(player, m.kind, m.sequence, m.clientLowerMS, m.clientUpperMS, Max(0, nowMS - 1000), nowMS, nowMS, false)
  }

  function CurrentWindow(l: EdgeLog, player: string, nowMS: int): Window {
    if player !in l.windows || nowMS - l.windows[player].startMS >= EDGE_WINDOW_MS then Window(nowMS, 0)
    else l.windows[player]
  }

  predicate Admits(l: EdgeLog, nonce: string, player: string, m: EdgeMessage, nowMS: int) {
    && EdgeValid(nonce, m)
    && (player in l.last ==> m.sequence > l.last[player])
    && CurrentWindow(l, player, nowMS).count < EDGES_PER_WINDOW
  }

  function Admit(l: EdgeLog, player: string, edge: Edge, nowMS: int): EdgeLog {
    var w := CurrentWindow(l, player, nowMS);
    EdgeLog(l.last[player := edge.sequence], l.windows[player := w.(count := w.count + 1)], Push(l.edges, edge))
  }

  function TakeEdge(l: EdgeLog, estimates: map<string, Estimate>, nonce: string, player: string, m: EdgeMessage,
                    nowMS: int): EdgeLog
  {
    if Admits(l, nonce, player, m, nowMS) then Admit(l, player, EdgeOf(player, m, estimates, nowMS), nowMS) else l
  }

  function NotEdgeOf(player: string): Edge -> bool {
    (e: Edge) => e.player != player
  }

  function NotSampleOf(player: string): Sample -> bool {
    (s: Sample) => s.player != player
  }

  function NotBatchOf(player: string): ClientBatch -> bool {
    (b: ClientBatch) => b.player != player
  }

  function NotHealthOf(player: string): ClientHealth -> bool {
    (h: ClientHealth) => h.player != player
  }

  function ResetBatches(l: BatchLog, player: string): BatchLog {
    if player == "" then l
    else BatchLog(l.last - {player}, l.windows - {player}, Filter(l.batches, NotBatchOf(player)))
  }

  function ResetHealth(health: seq<ClientHealth>, player: string): seq<ClientHealth> {
    if player == "" then health else Filter(health, NotHealthOf(player))
  }

  function ResetEdges(l: EdgeLog, player: string): EdgeLog {
    if player == "" then l
    else EdgeLog(l.last - {player}, l.windows - {player}, Filter(l.edges, NotEdgeOf(player)))
  }

  function ResetSamples(a: Alignment, player: string): Alignment {
    if player == "" then a
    else ForgetAlignment(a, player).(samples := Filter(a.samples, NotSampleOf(player)))
  }

  // ----- the state of the source -----

  /** The per-player tables of the source are kept apart, as there; `Valid` says which of them go together. */
  class ProbeRuntime {
    const serverNonce: string
    var challengeSequenceByPlayer: map<string, int>
    var challengeSendByPlayer: map<string, int>
    var challengeExpiryByPlayer: map<string, int>
    var offsetByPlayer: map<string, real>
    var uncertaintyByPlayer: map<string, real>
    var samples: seq<Sample>
    var lastEdgeSequenceByPlayer: map<string, int>
    var windowStartByPlayer: map<string, int>
    var edgeCountByPlayer: map<string, int>
    var edges: seq<Edge>
    var lastBatchSequenceByPlayer: map<string, int>
    var batchWindowStartByPlayer: map<string, int>
    var batchCountByPlayer: map<string, int>
    var batches: seq<ClientBatch>
    var health: seq<ClientHealth>

    ghost predicate ClockValid()
      reads this`challengeSequenceByPlayer, this`challengeSendByPlayer, this`challengeExpiryByPlayer
      reads this`offsetByPlayer, this`uncertaintyByPlayer
    {
      && challengeSequenceByPlayer.Keys == challengeSendByPlayer.Keys == challengeExpiryByPlayer.Keys
      && offsetByPlayer.Keys == uncertaintyByPlayer.Keys
    }

    ghost predicate EdgesValid()
      reads this`windowStartByPlayer, this`edgeCountByPlayer
    {
      windowStartByPlayer.Keys == edgeCountByPlayer.Keys
    }

    ghost predicate BatchesValid()
      reads this`batchWindowStartByPlayer, this`batchCountByPlayer
    {
      batchWindowStartByPlayer.Keys == batchCountByPlayer.Keys
    }

    ghost predicate Valid()
      reads this
    {
      ClockValid() && EdgesValid() && BatchesValid()
    }

    ghost function Aligned(): Alignment
      requires ClockValid()
      reads this`challengeSequenceByPlayer, this`challengeSendByPlayer, this`challengeExpiryByPlayer
      reads this`offsetByPlayer, this`uncertaintyByPlayer, this`samples
    {
      Alignment(Challenges(challengeSequenceByPlayer, challengeSendByPlayer, challengeExpiryByPlayer),
                Estimates(offsetByPlayer, uncertaintyByPlayer), samples)
    }

    ghost function Logged(): EdgeLog
      requires EdgesValid()
      reads this`lastEdgeSequenceByPlayer, this`windowStartByPlayer, this`edgeCountByPlayer, this`edges
    {
      EdgeLog(lastEdgeSequenceByPlayer, Windows(windowStartByPlayer, edgeCountByPlayer), edges)
    }

    ghost function Batched(): BatchLog
      requires BatchesValid()
      reads this`lastBatchSequenceByPlayer, this`batchWindowStartByPlayer, this`batchCountByPlayer, this`batches
    {
      BatchLog(lastBatchSequenceByPlayer, Windows(batchWindowStartByPlayer, batchCountByPlayer), batches)
    }

    constructor (nonce: string)
      ensures Valid() && serverNonce == nonce
      ensures Aligned() == Alignment(map[], map[], []) && Logged() == EdgeLog(map[], map[], [])
      ensures Batched() == BatchLog(map[], map[], []) && health == []
    {
      serverNonce := nonce;
      challengeSequenceByPlayer, challengeSendByPlayer, challengeExpiryByPlayer := map[], map[], map[];
      offsetByPlayer, uncertaintyByPlayer, samples := map[], map[], [];
      lastEdgeSequenceByPlayer, windowStartByPlayer, edgeCountByPlayer, edges := map[], map[], map[], [];
      lastBatchSequenceByPlayer, batchWindowStartByPlayer, batchCountByPlayer, batches := map[], map[], map[], [];
      health := [];
    }

    method RecordClockChallenge(player: string, sequence: int, sendMS: int)
      requires ClockValid()
      modifies this`challengeSequenceByPlayer, this`challengeSendByPlayer, this`challengeExpiryByPlayer
      ensures ClockValid() && Aligned() == Record(old(Aligned()), player, sequence, sendMS)
    {
      if player == "" || sequence < 1 || sendMS < 0 {
        return;
      }
      challengeSequenceByPlayer := challengeSequenceByPlayer[player := sequence];
      challengeSendByPlayer := challengeSendByPlayer[player := sendMS];
      challengeExpiryByPlayer := challengeExpiryByPlayer[player := sendMS + CHALLENGE_LIFETIME_MS];
    }

    method ResetClockChallenge(player: string)
      requires ClockValid()
      modifies this`challengeSequenceByPlayer, this`challengeSendByPlayer, this`challengeExpiryByPlayer
      ensures ClockValid() && Aligned() == Forget(old(Aligned()), player)
    {
      if player == "" {
        return;
      }
      challengeSequenceByPlayer := challengeSequenceByPlayer - {player};
      challengeSendByPlayer := challengeSendByPlayer - {player};
      challengeExpiryByPlayer := challengeExpiryByPlayer - {player};
    }

    method ResetClockAlignment(player: string)
      requires ClockValid()
      modifies this`challengeSequenceByPlayer, this`challengeSendByPlayer, this`challengeExpiryByPlayer
      modifies this`offsetByPlayer, this`uncertaintyByPlayer
      ensures ClockValid() && Aligned() == ForgetAlignment(old(Aligned()), player)
    {
      ResetClockChallenge(player);
      if player == "" {
        return;
      }
      offsetByPlayer := offsetByPlayer - {player};
      uncertaintyByPlayer := uncertaintyByPlayer - {player};
    }

    method ReceiveValidatedClockResponse(player: string, m: Response, nowMS: int) returns (accepted: bool)
      requires ClockValid()
      modifies this`challengeSequenceByPlayer, this`challengeSendByPlayer, this`challengeExpiryByPlayer
      modifies this`offsetByPlayer, this`uncertaintyByPlayer, this`samples
      ensures ClockValid() && Aligned() == Receive(old(Aligned()), serverNonce, player, m, nowMS)
      ensures accepted == Accepts(old(Aligned()), serverNonce, player, m, nowMS)
    {
      if !ResponseValid(serverNonce, m) {
        return false;
      }
      if player !in challengeSequenceByPlayer || player !in challengeSendByPlayer || player !in challengeExpiryByPlayer {
        return false;
      }
      var challenge := Challenge(challengeSequenceByPlayer[player], challengeSendByPlayer[player],
                                 challengeExpiryByPlayer[player]);
      ResetClockChallenge(player);
      if !Answers(challenge, m, nowMS) {
        return false;
      }
      var sample := SampleOf(player, challenge, m, nowMS);
      KeepSample(player, sample);
      return true;
    }

    method KeepSample(player: string, sample: Sample)
      requires ClockValid()
      modifies this`offsetByPlayer, this`uncertaintyByPlayer, this`samples
      ensures ClockValid()
      ensures var was := old(Aligned());
              Aligned() == was.(estimates := was.estimates[player := sample.estimate], samples := Push(was.samples, sample))
    {
      offsetByPlayer := offsetByPlayer[player := sample.estimate.offset];
      uncertaintyByPlayer := uncertaintyByPlayer[player := sample.estimate.uncertainty];
      samples := Push(samples, sample);
    }

    method ReceiveTemporalDecisionEdge(player: string, m: EdgeMessage, nowMS: int) returns (accepted: bool)
      requires Valid()
      modifies this`lastEdgeSequenceByPlayer, this`windowStartByPlayer, this`edgeCountByPlayer, this`edges
      ensures Valid() && Logged() == TakeEdge(old(Logged()), Aligned().estimates, serverNonce, player, m, nowMS)
      ensures accepted == Admits(old(Logged()), serverNonce, player, m, nowMS)
    {
      if !EdgeValid(serverNonce, m) {
        return false;
      }
      if player in lastEdgeSequenceByPlayer && m.sequence <= lastEdgeSequenceByPlayer[player] {
        return false;
      }
      var window := WindowAt(player, nowMS);
      if window.count >= EDGES_PER_WINDOW {
        return false;
      }
      var edge := DateEdge(player, m, nowMS);
      StoreEdge(player, edge, window);
      return true;
    }

    method WindowAt(player: string, nowMS: int) returns (window: Window)
      requires Valid()
      ensures window == CurrentWindow(Logged(), player, nowMS)
    {
      if player in windowStartByPlayer && nowMS - windowStartByPlayer[player] < EDGE_WINDOW_MS {
        window := Window(windowStartByPlayer[player], edgeCountByPlayer[player]);
      } else {
        window := Window(nowMS, 0);
      }
    }

    method StoreEdge(player: string, edge: Edge, window: Window)
      requires Valid()
      modifies this`lastEdgeSequenceByPlayer, this`windowStartByPlayer, this`edgeCountByPlayer, this`edges
      ensures Valid()
      ensures lastEdgeSequenceByPlayer == old(lastEdgeSequenceByPlayer)[player := edge.sequence]
      ensures Windows(windowStartByPlayer, edgeCountByPlayer)
           == old(Windows(windowStartByPlayer, edgeCountByPlayer))[player := Window(window.startMS, window.count + 1)]
      ensures edges == Push(old(edges), edge)
    {
      lastEdgeSequenceByPlayer := lastEdgeSequenceByPlayer[player := edge.sequence];
      windowStartByPlayer := windowStartByPlayer[player := window.startMS];
      edgeCountByPlayer := edgeCountByPlayer[player := window.count + 1];
      edges := Push(edges, edge);
    }

    method DateEdge(player: string, m: EdgeMessage, nowMS: int) returns (edge: Edge)
      requires Valid() && m.EdgeMessage?
      ensures edge == EdgeOf(player, m, Aligned().estimates, nowMS)
    {
      if player in offsetByPlayer && player in uncertaintyByPlayer {
        var offset, uncertainty := offsetByPlayer[player], uncertaintyByPlayer[player];
        var lower := Max(0, (m.clientLowerMS as real + offset - uncertainty).Floor);
        var upper := Max(lower, Ceiling(m.clientUpperMS as real + offset + uncertainty));
        edge := Edge(player, m.kind, m.sequence, m.clientLowerMS, m.clientUpperMS, lower, upper, nowMS, true);
      } else {
        edge := Edge(player, m.kind, m.sequence, m.clientLowerMS, m.clientUpperMS,
                     Max(0, nowMS - 1000), nowMS, nowMS, false);
      }
    }

    /** When a player's session ends, every table and queue forgets the player, and nobody else. */
    method ResetPlayerState(player: string)
      requires Valid()
      modifies this
      ensures Valid() && Aligned() == ResetSamples(old(Aligned()), player)
      ensures Logged() == ResetEdges(old(Logged()), player)
      ensures Batched() == ResetBatches(old(Batched()), player)
      ensures health == ResetHealth(old(health), player)
    {
      if player == "" {
        return;
      }
      ForgetReports(player);
      ForgetTimes(player);
    }

    method ForgetReports(player: string)
      requires BatchesValid() && player != ""
      modifies this`lastBatchSequenceByPlayer, this`batchWindowStartByPlayer, this`batchCountByPlayer, this`batches
      modifies this`health
      ensures BatchesValid() && Batched() == ResetBatches(old(Batched()), player)
      ensures health == ResetHealth(old(health), player)
    {
      ForgetBatches(player);
      health := Remaining(health, NotHealthOf(player));
    }

    method ForgetTimes(player: string)
      requires ClockValid() && EdgesValid() && player != ""
      modifies this`lastEdgeSequenceByPlayer, this`windowStartByPlayer, this`edgeCountByPlayer, this`edges
      modifies this`challengeSequenceByPlayer, this`challengeSendByPlayer, this`challengeExpiryByPlayer
      modifies this`offsetByPlayer, this`uncertaintyByPlayer, this`samples
      ensures EdgesValid() && Logged() == ResetEdges(old(Logged()), player)
      ensures ClockValid() && Aligned() == ResetSamples(old(Aligned()), player)
    {
      ForgetEdges(player);
      ForgetClock(player);
    }

    method ForgetClock(player: string)
      requires ClockValid() && player != ""
      modifies this`challengeSequenceByPlayer, this`challengeSendByPlayer, this`challengeExpiryByPlayer
      modifies this`offsetByPlayer, this`uncertaintyByPlayer, this`samples
      ensures ClockValid() && Aligned() == ResetSamples(old(Aligned()), player)
    {
      ResetClockAlignment(player);
      samples := Remaining(samples, NotSampleOf(player));
    }

    method ForgetBatches(player: string)
      requires BatchesValid() && player != ""
      modifies this`lastBatchSequenceByPlayer, this`batchWindowStartByPlayer, this`batchCountByPlayer, this`batches
      ensures BatchesValid() && Batched() == ResetBatches(old(Batched()), player)
    {
      lastBatchSequenceByPlayer := lastBatchSequenceByPlayer - {player};
      batchWindowStartByPlayer := batchWindowStartByPlayer - {player};
      batchCountByPlayer := batchCountByPlayer - {player};
      batches := Remaining(batches, NotBatchOf(player));
    }

    method ForgetEdges(player: string)
      requires EdgesValid() && player != ""
      modifies this`lastEdgeSequenceByPlayer, this`windowStartByPlayer, this`edgeCountByPlayer, this`edges
      ensures EdgesValid() && Logged() == ResetEdges(old(Logged()), player)
    {
      lastEdgeSequenceByPlayer := lastEdgeSequenceByPlayer - {player};
      windowStartByPlayer := windowStartByPlayer - {player};
      edgeCountByPlayer := edgeCountByPlayer - {player};
      edges := Remaining(edges, NotEdgeOf(player));
    }
  }

  function Challenges(sequences: map<string, int>, sends: map<string, int>, expiries: map<string, int>): map<string, Challenge>
    requires sequences.Keys == sends.Keys == expiries.Keys
  {
    map p | p in sequences :: Challenge(sequences[p], sends[p], expiries[p])
  }

  function Estimates(offsets: map<string, real>, uncertainties: map<string, real>): map<string, Estimate>
    requires offsets.Keys == uncertainties.Keys
  {
    map p | p in offsets :: Estimate(offsets[p], uncertainties[p])
  }

  function Windows(starts: map<string, int>, counts: map<string, int>): map<string, Window>
    requires starts.Keys == counts.Keys
  {
    map p | p in starts :: Window(starts[p], counts[p])
  }

  /** Walks the queue from its end and takes out, in place, what is not kept. */
  method Remaining<T>(queue: seq<T>, keep: T -> bool) returns (r: seq<T>)
    ensures r == Filter(queue, keep)
  {
    r := queue;
    var k := |queue|;
    while k > 0
      invariant 0 <= k <= |queue|
      invariant r == queue[..k] + Filter(queue[k..], keep)
    {
      k := k - 1;
      assert queue[k..][1..] == queue[k + 1..];
      if !keep(r[k]) {
        r := r[..k] + r[k + 1..];
      }
    }
  }
}
