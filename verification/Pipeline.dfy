/** The analysis of an archive from end to end: build, enrich, match and fit. */
module Pipeline {
  import AudioCues
  import Builder
  import ClientEdges
  import Independence
  import opened ConditionalLogit
  import opened LogitFit
  import opened Observations
  import opened Strata
  import opened Telemetry

  /** The observations of an archive as the matching receives them. */
  function Analysed(batches: seq<Batch>, config: Independence.Config, ear: AudioCues.Ear, cues: AudioCues.Config): seq<Observation> {
    AudioCues.EachEnriched(Builder.Evidence(Builder.Timeline(batches), config),
                           AudioCues.FlatAll(batches, |batches|), ear, cues)
  }

  predicate OneKind(o: Observation) {
    o.strongHidden != o.control
  }

  /** A matched observation is of one kind only, and rests on an event the server itself produced. */
  lemma MemberOfArchive(batches: seq<Batch>, config: Independence.Config, ear: AudioCues.Ear, cues: AudioCues.Config,
                        o: Observation)
      returns (b: Batch, e: Event)
    requires AllAccepted(batches)
    requires o in Analysed(batches, config, ear, cues) && Matchable(o)
    ensures OneKind(o)
    ensures b in batches && e in b.events && o.opportunityID == Builder.Flat(b, e).id
    ensures e.source == Server && e.authority == TierA
  {
    var built := Builder.Evidence(Builder.Timeline(batches), config);
    var flat := AudioCues.FlatAll(batches, |batches|);
    var i :| 0 <= i < |built| && AudioCues.EnrichOne(built[i], flat, ear, cues) == o;
    var p := built[i];
    AudioCues.CueClassNeverDrops(p, AudioCues.SessionEvents(flat, (p.context.serverID, p.context.serverSessionID)),
      AudioCues.Snapshots(flat, (p.context.serverID, p.context.serverSessionID, p.context.observer)), ear, cues);
    assert p in built && p.strongHidden == o.strongHidden && p.control == o.control && p.opportunityID == o.opportunityID;
    ClientEdges.KindsAreExclusive(Builder.Timeline(batches), config, p);
    b, e := ClientEdges.EligibleIsServerAuthored(batches, config, p);
  }

  /** Members of the informative strata of these sessions. */
  function InformativeMembers(strata: seq<MatchedStratum>, eligible: set<string>, n: nat): nat
    requires n <= |strata|
  {
    if n == 0 then 0
    else
      var s := strata[n - 1];
      InformativeMembers(strata, eligible, n - 1)
      + if s.playerSessionID in eligible && Informative(Tally(s.observations, |s.observations|)) then |s.observations| else 0
  }

  ghost predicate AllOneKind(strata: seq<MatchedStratum>) {
    forall s, o :: s in strata && o in s.observations ==> OneKind(o)
  }

  lemma {:induction false} MembersCounted(strata: seq<MatchedStratum>, eligible: set<string>, n: nat)
    requires n <= |strata| && AllOneKind(strata)
    ensures Members(UsefulStrata(strata, eligible, n)) == InformativeMembers(strata, eligible, n)
  {
    if n > 0 {
      MembersCounted(strata, eligible, n - 1);
      var s := strata[n - 1];
      var before, t := UsefulStrata(strata, eligible, n - 1), Tally(s.observations, |s.observations|);
      assert s in strata;
      forall i | 0 <= i < |s.observations| ensures OneKind(s.observations[i]) {
        assert s.observations[i] in s.observations;
      }
      TallyBounds(s.observations, |s.observations|);
      assert (before + [t])[..|before|] == before;
    }
  }

  lemma MatchedAreOneKind(batches: seq<Batch>, config: Independence.Config, ear: AudioCues.Ear, cues: AudioCues.Config,
                          strata: seq<MatchedStratum>)
    requires AllAccepted(batches)
    requires IsMatching(Analysed(batches, config, ear, cues), strata)
    ensures AllOneKind(strata)
  {
    var input := Analysed(batches, config, ear, cues);
    forall s, o | s in strata && o in s.observations ensures OneKind(o) {
      StratumMembers(input, s, o);
      var b, e := MemberOfArchive(batches, config, ear, cues, o);
    }
  }

  /** What such a fit tells its reader. */
  ghost predicate Conclusive(useful: seq<Sufficient>, members: nat, exp: real -> real, fit: FitResult)
    requires AllUseful(useful) && IsExponential(exp)
  {
    var observed, least, most := Observed(useful, |useful|), Least(useful, |useful|), Most(useful, |useful|);
    && fit.usefulStrata == |useful| && fit.observationCount == members
    && least <= observed <= most
    && (useful != [] && (observed == least || observed == most) ==> fit.separated && !fit.converged)
    && (fit.converged ==> least < observed < most && exists before :: NearStationary(useful, exp, before, fit.logOddsRatio))
  }

  lemma ConclusiveFit(playerID: string, useful: seq<Sufficient>, members: nat, exp: real -> real)
    requires AllUseful(useful) && AllInRange(useful) && IsExponential(exp) && members == Members(useful)
    ensures AllInformative(useful) && FitOf(playerID, useful, exp).Ends?
    ensures Conclusive(useful, members, exp, FitOf(playerID, useful, exp).result)
  {
    FitIsSuppressedOrInterior(playerID, useful, exp);
    ObservedWithin(useful, |useful|);
  }

  lemma FitOfMatched(input: seq<Observation>, strata: seq<MatchedStratum>, playerID: string, eligible: set<string>,
                     exp: real -> real)
    requires IsMatching(input, strata) && AllOneKind(strata) && IsExponential(exp)
    ensures IsConclusive(strata, eligible, exp, FitOfStrata(playerID, strata, eligible, exp))
  {
    StrataAreWellMatched(input, strata);
    UsefulStrataAreUseful(strata, eligible, |strata|);
    MembersCounted(strata, eligible, |strata|);
    ConclusiveFit(playerID, UsefulStrata(strata, eligible, |strata|), InformativeMembers(strata, eligible, |strata|), exp);
  }

  /** All strata that survive the filter are useful, and the fit ends and is conclusive about them. */
  ghost predicate IsConclusive(strata: seq<MatchedStratum>, eligible: set<string>, exp: real -> real, fit: FitEnd)
    requires IsExponential(exp)
  {
    && AllUseful(UsefulStrata(strata, eligible, |strata|)) && fit.Ends?
    && Conclusive(UsefulStrata(strata, eligible, |strata|), InformativeMembers(strata, eligible, |strata|), exp, fit.result)
  }

  /**
   The fit over an archive of accepted batches. It always ends; its observation count is the number of observations in
   its useful strata; at either extreme of what the margins allow it reports separation; and when it converges the
   observed total lies strictly between the extremes and the last step had all but vanished.
   */
  lemma FitOfAnArchive(
      batches: seq<Batch>, config: Independence.Config, ear: AudioCues.Ear, cues: AudioCues.Config,
      strata: seq<MatchedStratum>, playerID: string, eligible: set<string>, exp: real -> real)
    requires AllAccepted(batches)
    requires IsMatching(Analysed(batches, config, ear, cues), strata) && IsExponential(exp)
    ensures IsConclusive(strata, eligible, exp, FitOfStrata(playerID, strata, eligible, exp))
  {
    MatchedAreOneKind(batches, config, ear, cues, strata);
    FitOfMatched(Analysed(batches, config, ear, cues), strata, playerID, eligible, exp);
  }
}
