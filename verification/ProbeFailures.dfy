/** What runs of the probe scheduler do not keep, and under exactly which configurations they do. */
module ProbeFailures {
  import opened Common
  import Clock
  import opened ProbeQueues
  import opened ProbeRuns

  // ----- one request, followed through a tick -----

  /** The request 7 is the only one, and waits so many times. */
  ghost predicate Alone(s: State<nat>, q: Request, copies: nat) {
    && s.random == [] && s.requests == map[7 := q] && !q.random
    && s.enrich == if copies == 0 then [] else if copies == 1 then [7] else [7, 7]
  }

  /** How often it waits after a probe. */
  function CopiesAfter(c: Config, q: Request, r: Reading, copies: nat): nat {
    match Returns(c, q, r)
    case 0 => if copies == 0 then 0 else copies - 1
    case 1 => copies
    case _ => if c.maxEnrich >= 2 then 2 else copies
  }

  lemma ProbeAlone(c: Config, s: State<nat>, q: Request, copies: nat, r: Reading) returns (t: State<nat>)
    requires Alone(s, q, copies) && 1 <= copies <= 2 && copies <= c.maxEnrich && Known(s)
    requires r.usable && Ripe(c, q, r) && (Returns(c, q, r) == 2 ==> copies == 1)
    ensures t == Take(c, s, r) && TurnOf(c, s, r) == Probed && t.nowMS == r.completedMS
    ensures Alone(t, AfterProbe(c, q, r), CopiesAfter(c, q, r, copies))
  {
    t := Take(c, s, r);
    var h, u := Head(s), Popped(s);
    assert h == 7 && u.enrich == if copies == 1 then [] else [7];
    ProbedIs(c, u, h, r, q);
    assert u.requests[7 := AfterProbe(c, q, r)] == map[7 := AfterProbe(c, q, r)];
  }

  lemma PassAlone(c: Config, s: State<nat>, q: Request, copies: nat, r: Reading)
    requires Alone(s, q, copies) && copies <= 2 && copies <= Max(0, c.maxEnrich) && Known(s)
    requires copies > 0 ==> r.usable && q.notBeforeMS > r.nowMS && r.nowMS - q.queuedMS <= c.maxAgeMS
    ensures TurnOf(c, s, r) == Idle || TurnOf(c, s, r) == NotYet
    ensures Alone(Take(c, s, r), q, copies) && (Take(c, s, r).nowMS == s.nowMS || Take(c, s, r).nowMS == r.nowMS)
  {
    if copies > 0 {
      assert Popped(s).enrich == if copies == 1 then [] else [7];
    }
  }

  function Still(r: Reading): nat -> Reading {
    (k: nat) => r
  }

  /** One tick with the clock standing still probes the request once. */
  lemma OneTick(c: Config, s: State<nat>, q: Request, copies: nat, r: Reading) returns (t: State<nat>)
    requires Probes(c) && Alone(s, q, copies) && 1 <= copies <= 2 && copies <= c.maxEnrich && Known(s)
    requires r.usable && r.nowMS == r.completedMS && Ripe(c, q, r) && (Returns(c, q, r) == 2 ==> copies == 1)
    requires CopiesAfter(c, q, r, copies) > 0 ==>
               var p := AfterProbe(c, q, r); p.notBeforeMS > r.nowMS && r.nowMS - p.queuedMS <= c.maxAgeMS
    ensures t == Drain(c, s, Still(r)).0 && t.nowMS == r.nowMS && Known(t)
    ensures Alone(t, AfterProbe(c, q, r), CopiesAfter(c, q, r, copies))
  {
    var u := ProbeAlone(c, s, q, copies, r);
    PassAlone(c, u, AfterProbe(c, q, r), CopiesAfter(c, q, r, copies), r);
    DrainUnfolds(c, s, Still(r), 0, 0, u);
    if c.maxPairs > 1 {
      DrainUnfolds(c, u, Still(r), 1, 1, Take(c, u, r));
      t := Take(c, u, r);
    } else {
      t := u;
    }
  }

  // ----- a run: one edge, then ticks -----

  const SEEN: EdgeArrival<nat> := EdgeArrival(Clock.Edge("p", "SHOT_FIRED_CLIENT", 1, 0, 0, 0, 1000, 1000, false), true, 7)

  lemma ScheduledOnce(c: Config) returns (s: State<nat>)
    requires c.enabled && c.maxEnrich >= 1
    ensures s == EnrichAll(c, Start<nat>(), [SEEN], 1000) && Alone(s, EnrichmentRequest(1000), 1) && s.nowMS == 1000
    ensures Known(s) && Possible(Start<nat>(), EdgesTick([SEEN], 1000))
  {
    var edges: seq<EdgeArrival<nat>> := [SEEN];
    assert edges[..0] == [];
    s := EnrichAll(c, Start<nat>(), edges, 1000);
    assert EnrichAll(c, Start<nat>(), edges[..0], 1000) == Start<nat>().(nowMS := 1000);
    assert EdgeIDs(edges) == [7];
  }

  /** The target is hidden when the edge arrives. */
  const HIDDEN := Reading(1000, true, true, 1000)

  /** A run goes on by one step. */
  lemma OneStepOn(c: Config, states: seq<State<nat>>, steps: seq<Step<nat>>, step: Step<nat>, t: State<nat>)
      returns (states': seq<State<nat>>, steps': seq<Step<nat>>)
    requires Behaviour(c, states, steps)
    requires Known(states[|steps|]) && Possible(states[|steps|], step) && t == Next(c, states[|steps|], step)
    ensures states' == states + [t] && steps' == steps + [step] && Behaviour(c, states', steps')
  {
    states', steps' := states + [t], steps + [step];
    forall i | 0 <= i < |steps'|
      ensures Known(states'[i]) && Possible(states'[i], steps'[i]) && states'[i + 1] == Next(c, states'[i], steps'[i])
    {
      if i < |steps| {
        assert states'[i] == states[i] && steps'[i] == steps[i] && states'[i + 1] == states[i + 1];
      }
    }
  }

  lemma OneTickOn(c: Config, states: seq<State<nat>>, steps: seq<Step<nat>>, r: Reading, t: State<nat>)
      returns (states': seq<State<nat>>, steps': seq<Step<nat>>)
    requires Behaviour(c, states, steps) && Known(states[|steps|]) && t == Drain(c, states[|steps|], Still(r)).0
    requires states[|steps|].nowMS <= r.nowMS == r.completedMS && r.completedMS > 0
    ensures states' == states + [t] && |steps'| == |steps| + 1 && Behaviour(c, states', steps')
  {
    assert Ticking(Still(r), states[|steps|].nowMS);
    states', steps' := OneStepOn(c, states, steps, DrainTick(Still(r)), t);
  }

  lemma RunOfOneEdge(c: Config) returns (states: seq<State<nat>>, steps: seq<Step<nat>>, s: State<nat>)
    requires c.enabled && c.maxEnrich >= 1
    ensures |steps| == 1 && states == [Start<nat>(), s] && Behaviour(c, states, steps)
    ensures Known(s) && Alone(s, EnrichmentRequest(1000), 1) && s.nowMS == 1000
  {
    s := ScheduledOnce(c);
    states, steps := OneStepOn(c, [Start<nat>()], [], EdgesTick([SEEN], 1000), s);
  }

  // ----- queued twice -----

  /** At some moment of some run a request waits in two places. */
  ghost predicate QueuedTwice(c: Config, states: seq<State<nat>>, steps: seq<Step<nat>>, k: nat) {
    Behaviour(c, states, steps) && k <= |steps| && !NoRepeats(states[k].random + states[k].enrich)
  }

  lemma OneEntryOnly(c: Config, states: seq<State<nat>>, steps: seq<Step<nat>>, k: nat)
    requires Behaviour(c, states, steps) && k <= |steps| && (Single(c) || c.maxEnrich < 2)
    ensures NoRepeats(states[k].random + states[k].enrich)
  {
    QueuesStayWithinLimits(c, states, steps, k);
    BehaviourKeepsInv(c, states, steps, k);
    var s := states[k];
    if !Single(c) {
      forall id | id in s.random + s.enrich ensures multiset(s.random + s.enrich)[id] <= 1 {
        OneEntry(c, s, id);
      }
      NoRepeatsFromCopies(s.random + s.enrich);
    }
  }

  lemma OneEntry(c: Config, s: State<nat>, id: nat)
    requires Inv(c, s) && |s.enrich| <= 1 && id in s.random + s.enrich
    ensures multiset(s.random + s.enrich)[id] <= 1
  {
    assert id in s.requests && RequestOK(c, s.requests[id], Copies(s, id), s.nowMS);
    assert multiset(s.random + s.enrich)[id] == Copies(s, id);
    if !s.requests[id].random {
      assert id !in s.random;
      assert multiset(s.enrich)[id] <= |multiset(s.enrich)|;
    }
  }

  lemma RunQueuesTwice(c: Config) returns (states: seq<State<nat>>, steps: seq<Step<nat>>)
    requires !(Single(c) || c.maxEnrich < 2)
    ensures QueuedTwice(c, states, steps, 2)
  {
    var s;
    states, steps, s := RunOfOneEdge(c);
    var t := OneTick(c, s, EnrichmentRequest(1000), 1, HIDDEN);
    states, steps := OneTickOn(c, states, steps, HIDDEN, t);
    var waiting := t.random + t.enrich;
    assert waiting[0] == waiting[1];
  }

  /**
   No run ever queues a request twice if and only if occlusions are not confirmed, or the minimum duration is positive,
   or no probe is ever made, or there is no room for two.
   */
  lemma NeverQueuedTwiceExactlyWhen(c: Config)
    ensures (forall states, steps, k: nat :: !QueuedTwice(c, states, steps, k))
       <==> c.minOcclusionMS > 0 || !c.validated || !c.enabled || c.maxPairs < 1 || c.maxAgeMS < 0 || c.maxEnrich < 2
  {
    if Single(c) || c.maxEnrich < 2 {
      forall states: seq<State<nat>>, steps, k: nat ensures !QueuedTwice(c, states, steps, k) {
        if Behaviour(c, states, steps) && k <= |steps| {
          OneEntryOnly(c, states, steps, k);
        }
      }
    } else {
      var states, steps := RunQueuesTwice(c);
    }
  }

  // ----- robust although clear between -----

  /** At some moment of some run a request has been called robustly occluded with a clear probe in between. */
  ghost predicate RobustAfterClear(c: Config, states: seq<State<nat>>, steps: seq<Step<nat>>, k: nat, id: nat) {
    Behaviour(c, states, steps) && k <= |steps| && id in states[k].requests && ClearBetween(states[k].requests[id].log)
  }

  /** The first moment at which the request can be probed again after its first occlusion. */
  function SecondMS(c: Config): int {
    1000 + Max(ENRICHMENT_INTERVAL_MS, c.minOcclusionMS)
  }

  function Clear(c: Config): Reading {
    Reading(SecondMS(c), true, false, SecondMS(c))
  }

  function HiddenAgain(c: Config): Reading {
    Reading(SecondMS(c) + ENRICHMENT_INTERVAL_MS, true, true, SecondMS(c) + ENRICHMENT_INTERVAL_MS)
  }

  const FRESH := EnrichmentRequest(1000)

  function AfterHidden(c: Config): Request {
    AfterProbe(c, FRESH, HIDDEN)
  }

  function AfterClear(c: Config): Request {
    AfterProbe(c, AfterHidden(c), Clear(c))
  }

  function Waiting(c: Config): nat {
    CopiesAfter(c, FRESH, HIDDEN, 1)
  }

  lemma FirstTick(c: Config, s: State<nat>) returns (t: State<nat>)
    requires !Consecutive(c) && Alone(s, FRESH, 1) && Known(s)
    ensures t == Drain(c, s, Still(HIDDEN)).0 && t.nowMS == 1000 && Known(t) && Alone(t, AfterHidden(c), Waiting(c))
  {
    t := OneTick(c, s, FRESH, 1, HIDDEN);
  }

  /** The request is looked at again as soon as it may be, and waits on. */
  lemma SecondLook(c: Config)
    requires !Consecutive(c)
    ensures 1 <= Waiting(c) <= 2 && Waiting(c) <= c.maxEnrich
    ensures Ripe(c, AfterHidden(c), Clear(c)) && Returns(c, AfterHidden(c), Clear(c)) == 1
    ensures AfterClear(c).notBeforeMS == SecondMS(c) + ENRICHMENT_INTERVAL_MS && AfterClear(c).queuedMS == SecondMS(c)
    ensures AfterHidden(c).log == [Probing(1000, 1000, true, Unreported)] && AfterHidden(c).firstOccludedMS == 1000
    ensures AfterHidden(c).windowEndMS == 6000 && !AfterHidden(c).random && AfterHidden(c).intervalMS == ENRICHMENT_INTERVAL_MS
  {
  }

  lemma SecondTick(c: Config, s: State<nat>) returns (t: State<nat>)
    requires !Consecutive(c) && Alone(s, AfterHidden(c), Waiting(c)) && Known(s)
    ensures t == Drain(c, s, Still(Clear(c))).0 && t.nowMS == SecondMS(c) && Known(t) && Alone(t, AfterClear(c), Waiting(c))
  {
    SecondLook(c);
    t := OneTick(c, s, AfterHidden(c), Waiting(c), Clear(c));
  }

  /** After a clear probe it is called robustly occluded all the same; two copies of it still have the time to wait. */
  lemma ThirdLook(c: Config)
    requires !Consecutive(c)
    ensures Ripe(c, AfterClear(c), HiddenAgain(c)) && Returns(c, AfterClear(c), HiddenAgain(c)) <= 1
    ensures Waiting(c) == 2 ==> Returns(c, AfterClear(c), HiddenAgain(c)) == 1
    ensures Returns(c, AfterClear(c), HiddenAgain(c)) == 1 ==>
              var p := AfterProbe(c, AfterClear(c), HiddenAgain(c));
              p.notBeforeMS > HiddenAgain(c).nowMS && p.queuedMS == HiddenAgain(c).nowMS
    ensures ClearBetween(AfterProbe(c, AfterClear(c), HiddenAgain(c)).log)
  {
    SecondLook(c);
    var log := AfterProbe(c, AfterClear(c), HiddenAgain(c)).log;
    assert log[0].mark == Unreported && !log[1].occluded && log[2].mark == Robust;
  }

  lemma ThirdTick(c: Config, s: State<nat>) returns (t: State<nat>)
    requires !Consecutive(c) && Alone(s, AfterClear(c), Waiting(c)) && Known(s)
    ensures t == Drain(c, s, Still(HiddenAgain(c))).0 && 7 in t.requests && ClearBetween(t.requests[7].log)
  {
    SecondLook(c);
    ThirdLook(c);
    t := OneTick(c, s, AfterClear(c), Waiting(c), HiddenAgain(c));
  }

  lemma RunIsRobustAfterClear(c: Config) returns (states: seq<State<nat>>, steps: seq<Step<nat>>)
    requires !Consecutive(c)
    ensures RobustAfterClear(c, states, steps, 4, 7)
  {
    var s;
    states, steps, s := RunOfOneEdge(c);
    var t := FirstTick(c, s);
    states, steps := OneTickOn(c, states, steps, HIDDEN, t);
    var u := SecondTick(c, t);
    states, steps := OneTickOn(c, states, steps, Clear(c), u);
    var v := ThirdTick(c, u);
    states, steps := OneTickOn(c, states, steps, HiddenAgain(c), v);
  }

  /**
   In every run all probes between the first occlusion and a robust mark are occluded, if and only if no enrichment
   request can be probed three times with its age limit, its window and the minimum duration.
   */
  lemma RobustIsConsecutiveExactlyWhen(c: Config)
    ensures (forall states, steps, k: nat, id: nat :: !RobustAfterClear(c, states, steps, k, id))
       <==> !(&& c.enabled && c.maxPairs >= 1 && c.maxEnrich >= 1 && c.validated
              && c.minOcclusionMS < ENRICHMENT_WINDOW_MS && c.maxAgeMS >= Max(ENRICHMENT_INTERVAL_MS, c.minOcclusionMS))
  {
    if Consecutive(c) {
      forall states: seq<State<nat>>, steps, k: nat, id: nat ensures !RobustAfterClear(c, states, steps, k, id) {
        if Behaviour(c, states, steps) && k <= |steps| && id in states[k].requests {
          RobustIsConsecutive(c, states, steps, k, id);
        }
      }
    } else {
      var states, steps := RunIsRobustAfterClear(c);
    }
  }
}
