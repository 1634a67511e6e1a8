# DayZ behaviour telemetry: a verified model

A Dafny model of the parts of the telemetry system in which the difficulty lies, with proofs of the properties
that its loops, early exits and in-place state have to meet. `dafny verify dfyconfig.toml` checks everything.

The system has four connected pieces, and the model follows them.

**Evidence.** Telemetry batches become a sorted timeline (`Telemetry`, `Builder`); at every random opportunity three
scans look for a readiness edge, an exposure and an earlier cue; a sweep in place marks independent observations and
numbers episodes and encounters (`Independence`); the audio ledger adds the best audible gunshot and footstep
(`AudioCues`). The scans leave early on time and session; each is proved against a definition over the whole timeline.
`EvidenceContents`, `SweepLaws` and `AudioLaws` say, from the events' own fields, what every record contains;
`EvidenceLaws` and `ClientEdges` prove what the evidence does not depend on: other sessions, the order and the cut of
the batches, later events, and client edges; and exactly when other sessions do matter.

**Statistics.** Matched strata (`Grouping`, `Strata`), the exact conditional logit (`Binomials`, `Moments`,
`ConditionalLogit`, `LogitFit`), with `MatchingLaws` and `FitLaws` about which observations they use and what sign
the effect gets, interval timing with medians (`PreExposure`) and the step-up adjustment (`FalseDiscovery`). `Pipeline`
joins evidence and fit, `Incidents` evidence and timing. The odds ratio is `exp(beta)` for a real exponential passed in
as a function; weights are true binomials times powers of it. The central result about the fit is that the variance of
a stratum is at most the distance from its mean to either end of its range; so on separated data every Newton step has
size at least one and the loop reports separation instead of convergence.

**Delivery.** The agent's outbox and uploader (`Agent`), the central store and the ingest endpoint (`Ingest`), the
spool importer (`Spool`) and the in-game exporter with its spool ring (`Exporter`). `Delivery` describes each
operation on values, the classes are proved against it, and `DeliveryRuns` interleaves all of them with lost requests,
lost responses and crashes; `DeliveryLinks` proves that its steps are those of the classes. `DeliveryLaws`,
`SpoolLaws`, `ExporterLaws` and `PathNames` state from the inputs alone what each operation answers and moves.

**Collector.** The clock exchange and the decision edges dated with it (`Clock`, `ClockRuns`), the two probe queues and
their shared request objects (`ProbeQueues`, `ProbeRuns`, `ProbeFailures`, `MissionServer`). `ClockLaws` and
`DrainLaws` say which messages are taken and which requests are probed, from their own fields. `EdgeTiming`
joins both ends: an aligned edge of an honest client that is counted as a definite pre-exposure really preceded the exposure.

Where the system mutates objects the model has classes (`Agent.Outbox`, `Agent.Uploader`, `Ingest.RawStore`,
`Spool.SpoolDirectory`, `Exporter.DBAProbeExporter`, `Clock.ProbeRuntime`, `MissionServer.MissionServer`) whose methods
are proved equal to functions on values; the theorems about whole runs are about those functions. Clocks, file
outcomes, network answers, probe results and random choices are parameters, and every theorem holds for all of them.

Several expectations turned out to be false of the code as written; each is stated with the condition under which it
holds and an input that shows the failure:

- the reported upper median of the leads loses half a millisecond when the two middle leads have an odd sum;
- the overwrite counter of the spool ring runs one ahead after a rotation whose file cannot be opened;
- a payload that reaches no spool file is lost without a trace in any counter, and the drop counter itself is wrong
  when the pending limit is not positive or the batch limit is negative;
- when occlusions are validated with a minimum duration that is not positive, a probe request can be queued twice;
- an enrichment request may be called robustly occluded although a probe in between was clear, unless its age limit, its
  window or the minimum duration keeps it from being probed a third time, which the default limits do not;
- a joined context key stands for one context when its fields contain no `|`; otherwise two players can share a stratum;
- a spool file left under its claimed name waits only until a new file of that name is claimed, which replaces it;
- an edge whose interval was clamped to start at zero collapses to a point, and when it ends after one it can be
  counted on the wrong side;
- sessions that share an observer or a pair key influence each other's evidence;
- the refractory sweep need not keep a largest possible choice when a start comes before an earlier one and repeats none.

## Model

| member | source | states |
|---|---|---|
| LogitFit.FitConditionalLogitForSessions | internal/features/matched.go:95-180 | For every list of strata: the fit is exactly what the clamped Newton iteration from zero defines on the informative strata of the selected sessions, the final information check never failing; strata with one outcome too many leave it unconverged, and with two or more too many the program stops. What the strata count, and the sign that results, are the next three rows. |
| FitLaws.EffectHasTheSignOfTheExcess | internal/features/matched.go:95-180 | The sign law: a stationary coefficient is positive (negative) exactly when the followed opportunities that were hidden outnumber (fall short of) their proportional share summed over the strata in the fit, and a converged fit reports that sign up to its step tolerance unless the excess is below half the width of the strata times the tolerance. |
| FitLaws.FitCountsPicked | internal/features/matched.go:103-129 | The reported number of strata is that of the strata of eligible players with a hidden member, a control, an outcome and not only outcomes; the reported observations are all hidden members and controls of these. |
| FitLaws.UsefulAreCounts | internal/features/matched.go:103-121 | The four numbers of each stratum in the fit are the sizes of the sets of its members that are hidden, that are controls, that were followed by readiness, and that were both followed and hidden; exactly the strata that qualify by these sizes enter, in input order. |
| LogitFit.FitIsSuppressedOrInterior | internal/features/matched.go:95-180 | For every list of useful strata the fit ends; it is never both converged and separated; data at or beyond an extreme are reported as separated; a converged coefficient means the observed hidden total lies strictly between the summed minima and maxima and the last Newton step was below tolerance. |
| LogitFit.ExcessIsSuppressed | internal/features/matched.go:182-204 | Informative strata that are not useful, having more outcomes than hidden and control members together, never give an estimate or a verdict. |
| Pipeline.FitOfAnArchive | cmd/analyse/main.go:68-128 | For accepted batches, built, enriched and matched: the fit ends, counts exactly the observations of its strata, reports separation at either extreme of what the margins allow, and converges only with an observed total strictly inside and a vanishing last step. |
| Pipeline.MemberOfArchive | cmd/analyse/main.go:68-118 | Every observation that enters the matching is a hidden opportunity or a control and not both, also after enrichment, and rests on a tier A event that the server itself produced. |
| LogitFit.ScoreDecreases | internal/features/matched.go:137-142 | The summed score is strictly decreasing in the odds ratio. |
| LogitFit.AtMostOneStationary | internal/features/matched.go:133-160 | At most one coefficient has score zero. |
| LogitFit.StationaryNeedsInterior | internal/features/matched.go:122-127 | A stationary coefficient exists only if the observed hidden total lies strictly between the summed minima and maxima. |
| LogitFit.ScoreBounds | internal/features/matched.go:137-145 | The score lies strictly between the two extremes the data allow, and the information is strictly positive. |
| LogitFit.InformationWithinScore | internal/features/matched.go:137-160 | The information is at most the distance from the score to either extreme, at every odds ratio. |
| LogitFit.SeparatedFitIsSuppressed | internal/features/matched.go:133-165 | On separated data, at or beyond an extreme, every Newton step is at least one in size, so the loop always ends in the separated branch and never converges. |
| LogitFit.ConvergedIsNearStationary | internal/features/matched.go:133-165 | Convergence means the last unclamped score-over-information step was below the tolerance, and excludes separation. |
| LogitFit.StationaryIsReturned | internal/features/matched.go:133-160 | From every coefficient the clamped Newton step goes towards the stationary one, if there is one, and from the stationary one itself the loop returns it unchanged and converged. |
| LogitFit.UsefulStrataAreUseful | internal/features/matched.go:103-127 | When every member is a hidden opportunity or a control, every stratum that survives the filter has outcomes strictly between none and all, and an observed count that the margins allow. |
| LogitFit.ObservedWithin | internal/features/matched.go:122-127 | The observed hidden outcomes lie between the summed minima and maxima when each stratum's count lies in its range. |
| LogitFit.ConditionalMoments | internal/features/matched.go:182-204 | The scaled sums of the source give exactly the conditional mean and variance, although every weight was divided by the largest. |
| LogitFit.WeightValues | internal/features/matched.go:182-195 | The weights over the clipped range are the products of true binomials and powers of the odds ratio, and the largest is one of them and bounds them all. |
| LogitFit.CollectUseful | internal/features/matched.go:96-129 | The filtering loop collects exactly the useful strata of the eligible sessions and counts their members; what their numbers count is `FitLaws.UsefulAreCounts`. |
| LogitFit.NewtonLoop | internal/features/matched.go:133-164 | The loop from coefficient zero ends where the clamped iteration does: same coefficient, same verdict. |
| LogitFit.ScoreAndInformation | internal/features/matched.go:135-140 | The inner loop computes the summed score and information of the useful strata. |
| LogitFit.WeightAt | internal/features/matched.go:187-189 | One unnormalised weight is the product of two binomials and a power of the odds ratio, and is positive. |
| LogitFit.ScaledMoments | internal/features/matched.go:194-203 | The sums over weights divided by the largest give the mean and variance of the undivided weights. |
| LogitFit.TallyBounds | internal/features/matched.go:107-121 | When every member is a hidden opportunity or a control the tallied outcomes fit among them and the observed count is in range; members of one kind each make the kinds add up. |
| ConditionalLogit.ExpectedIncreases | internal/features/matched.go:182-204 | For every useful stratum the conditional mean is strictly increasing in the odds ratio (monotone likelihood ratio). |
| ConditionalLogit.ExpectedInside | internal/features/matched.go:182-204 | The mean lies strictly inside the clipped range and the variance is strictly positive. |
| ConditionalLogit.RangeOfUseful | internal/features/matched.go:182-192 | The clipped range of a useful stratum is proper and holds exactly the counts with a positive weight: clipping drops nothing that can occur. |
| ConditionalLogit.NullMean | internal/features/matched.go:182-204 | At coefficient zero the mean is exactly outcomes * hidden / (hidden + control): Vandermonde's identity over the clipped range. |
| ConditionalLogit.VarianceWithinTop | internal/features/matched.go:182-204 | The variance is at most the distance from the mean to the largest possible count. |
| ConditionalLogit.VarianceWithinBottom | internal/features/matched.go:182-204 | The variance is at most the distance from the smallest possible count to the mean. |
| Moments.ScaleInvariance | internal/features/matched.go:190-203 | Dividing all weights by one positive number (subtracting the largest logarithm) changes neither mean nor variance. |
| Binomials.Vandermonde | internal/features/matched.go:206-211 | The convolution of two rows of binomials is a binomial of the sum. |
| Binomials.ChooseIsFactorialRatio | internal/features/matched.go:206-211 | The recursive binomial is the factorial ratio whose logarithm the source computes. |
| Grouping.GroupInto | internal/features/matched.go:46-58 | Every group is the subsequence of the selected members with that key, in input order, and there is no other group. |
| Grouping.SortedKeys | internal/features/matched.go:59-63 | The keys of the map are listed once each in increasing order. |
| Strata.BuildMatchedStrata | internal/features/matched.go:45-86 | The strata are, in increasing key order, exactly the joined context keys that hold both hidden opportunities and controls, each with all its members in id order. |
| Strata.StratumIsContext | internal/features/matched.go:52-57 | When no field but the last contains the separator, a stratum is one matched context: its members are exactly the matchable observations that agree with any of them in all eleven fields. |
| Strata.KeyIsContext | internal/features/matched.go:52-57 | For such observations the joined keys are equal if and only if all eleven fields are. |
| Strata.MixedStratum | internal/features/matched.go:52-57 | With the separator inside ids a stratum can hold two players: a hidden opportunity of one is matched with a control of the other. |
| Strata.AtMostOneStratum | internal/features/matched.go:45-86 | No observation is used by two strata. |
| Strata.UsedObservations | internal/features/matched.go:45-86 | An observation is used exactly when it can be matched and its context has both kinds. |
| MatchingLaws.UsedExactlyWhen | internal/features/matched.go:45-86 | Without separators in the fields, an observation is used exactly when it is independent, unexplained, hidden or a control, and alike observations of that sort include a hidden one and a control, alike meaning equal in player, server, place, posture, weapon, camera, population and policy. |
| MatchingLaws.StratumHoldsAll | internal/features/matched.go:45-86 | A stratum belongs to the player of its members, holds exactly the comparable observations alike to them, each as often as the input does, in identifier order. |
| Strata.MatchingUnique | internal/features/matched.go:45-86 | The matching does not depend on the order of the input. |
| Strata.StrataAreWellMatched | internal/features/matched.go:45-86 | Every stratum of every input consists of hidden opportunities and controls, which makes its tallies consistent. |
| Strata.CountKinds | internal/features/matched.go:66-77 | A context is kept exactly when both counts are positive. |
| ClientEdges.KindsAreExclusive | internal/observations/builder.go:254-269 | In built evidence no observation is both a hidden opportunity and a control of any kind. |
| Builder.Build | internal/observations/builder.go:165-277 | The build is rejected for a bad configuration or an undecodable event, which it names; otherwise it returns the evidence of the sorted timeline, defined without early exits and with every derived name and window. |
| EvidenceContents.BuildIsRight | internal/observations/builder.go:165-277 | A build refuses exactly the bad configurations, names a malformed event when it refuses batches, and otherwise returns, in order, one right record for each sampled event of the sent batches, with an uncertainty limit of half a second where none is given. |
| EvidenceContents.EvidenceIsRight | internal/observations/builder.go:190-272 | Each record names its event and window. Its outcome is observed if and only if some later event of the same server, session and player raises a weapon or uses sights or optics, at a server time at most five seconds after the window closes, with a reported interval that meets the window, and it is that of the first such event. Its exposure is the first enrichment probe within thirty seconds that saw the same target, and is censored if and only if there is none. It is unexplained if and only if no sighting of the target and no hit or kill by it came in the thirty seconds before, and otherwise explained by the last. Its flags follow from its own fields. |
| EvidenceContents.OutcomeMeetsWindow | internal/observations/builder.go:384-416 | An observed outcome never lies wholly before the opportunity started or after its window closed. |
| EvidenceContents.RecordsAreBandedAndNamed | internal/observations/builder.go:190-350 | Each record is banded by the ranges that its own distance, speed and population lie in, and two records have one name exactly when their events have one id. |
| EvidenceContents.TimelineHolds | internal/observations/builder.go:352-365 | The timeline holds the events of all batches and nothing else, each with its own or a composed id and with its decoded or an empty payload. |
| EvidenceContents.TimelineRuns | internal/observations/builder.go:366-382 | The timeline runs by server, then session, then time, then sequence number. |
| Builder.Flatten | internal/observations/builder.go:352-382 | Flattening fails exactly on a malformed payload, which it names; otherwise it gives the sorted timeline. |
| Builder.ReadinessOutcome | internal/observations/builder.go:384-416 | The scan that stops on time and session finds the first qualifying readiness edge of the whole remaining timeline; which edges qualify is spelled out in `EvidenceContents.EvidenceIsRight`. |
| Builder.FirstExposure | internal/observations/builder.go:279-311 | The scan that stops at the horizon finds the first qualifying exposure of the whole remaining timeline. |
| Builder.FindCue | internal/observations/builder.go:440-465 | The backward scan that stops at the lookback finds the last qualifying cue of the whole earlier timeline. |
| Builder.FirstMatchIs | internal/observations/builder.go:279-311 | A first match has only misses before it; no match means only misses. |
| Builder.LastMatchIs | internal/observations/builder.go:440-465 | A last match has only misses after it; no match means only misses. |
| Builder.SessionContiguous | internal/observations/builder.go:366-382 | In sorted order the events of one session are contiguous and in time order, which is why the scans may stop at a change of session. |
| Builder.Interval | internal/observations/builder.go:418-438 | The reported interval is ordered around its estimate, whatever the payload claims. |
| Builder.BuildOne | internal/observations/builder.go:190-272 | One observation is assembled from its opportunity and the three declaratively defined findings. |
| Builder.ObserveAll | internal/observations/builder.go:190-272 | The loop yields one observation for each random opportunity of the timeline, in order. |
| Builder.SweepAll | internal/observations/builder.go:273-277 | The collected observations are swept as a whole. |
| Builder.ExposureAt | internal/observations/builder.go:279-311 | The reported exposure interval is ordered around its estimate and is not censored. |
| Independence.AssignIndependence | internal/observations/builder.go:467-499 | The in-place sweep leaves exactly the array that the refractory and grouping rules define. |
| SweepLaws.IndependentExactlyWhen | internal/observations/builder.go:490-497 | Of fresh observations exactly those stay independent that no earlier independent one of the same observer precedes by less than the refractory time. |
| SweepLaws.FlagsFollowIndependence | internal/observations/builder.go:494-497 | An observation that is not independent loses all eligibility, any other keeps its flags, and the sweep changes nothing else but the two numbers. |
| SweepLaws.FirstOfPair | internal/observations/builder.go:477-488 | The first observation of an observer and target opens episode one and encounter one. |
| SweepLaws.NextOfPair | internal/observations/builder.go:477-488 | A later one stays in the episode (encounter) of the pair's previous observation if and only if that did not start at zero and the gap between their starts is at most the episode (encounter) gap; otherwise it opens the next. |
| Independence.KeptIffSeparated | internal/observations/builder.go:490-497 | An observation is kept if and only if it starts at least the refractory time after every earlier kept observation of its observer. |
| Independence.IndependentAreSeparated | internal/observations/builder.go:490-497 | For every input the independent observations of one observer are pairwise at least the refractory time apart. |
| Independence.KeptIsMaximum | internal/observations/builder.go:490-497 | When each start of an observer is no earlier than all before it, or equal to one of them, no separated choice of its observations is larger than the kept one. |
| Independence.KeptIsMaximumExactlyWhen | internal/observations/builder.go:490-497 | The kept choice is a largest one for every refractory time if and only if each start of the observer is no earlier than all before it or equal to one of them. |
| Independence.KeptNotMaximumOutOfOrder | internal/observations/builder.go:182-185 | When starts are out of order the sweep can keep one observation where three are separated. |
| Independence.EpisodesRefineEncounters | internal/observations/builder.go:477-488 | With an encounter gap at least the episode gap, one episode never spreads over two encounters, and episode numbers never fall. |
| Independence.AssignOne | internal/observations/builder.go:475-497 | The body of the sweep for one observation, with both maps as it leaves them. |
| Independence.LastKeptIs | internal/observations/builder.go:490-496 | The remembered start of an observer is that of a kept observation, and no kept one starts later. |
| Independence.GreedyStaysAhead | internal/observations/builder.go:490-496 | At every point of such a sweep the greedy choice has kept at least as many as any separated choice, and is no later when it has kept as many. |
| EvidenceLaws.SessionsAreIndependent | internal/observations/builder.go:165-277 | Building any choice of sessions alone gives exactly the observations of those sessions, refractory sweep included, when opportunities of different sessions share neither an observer nor a pair key. |
| EvidenceLaws.SessionsAreIndependentExactlyWhen | internal/observations/builder.go:165-277 | Sessions can be built apart, in every choice and under every configuration, if and only if no two opportunities of different sessions share an observer or a pair key; when ids contain no separator the accepted configurations suffice to show it. |
| EvidenceLaws.ArchiveIsItsSessions | internal/observations/builder.go:165-277 | The evidence of an archive is the evidence of each of its sessions built alone, one after the other in the order of server and session id. |
| EvidenceLaws.ArchiveSplitsBySession | internal/observations/builder.go:165-277 | The same for batches: evidence restricted to some sessions is the evidence of those sessions' batches. |
| EvidenceLaws.SessionsConcatenate | internal/observations/builder.go:165-277 | A timeline cut between sessions yields the evidence of the first part followed by that of the second. |
| EvidenceLaws.SharedPairKeyLeaks | internal/observations/builder.go:477-486 | Two opportunities in two sessions, of players with different ids that contain the separator, whose pair keys read the same: building the second session alone gives other evidence than the archive does. |
| EvidenceLaws.SharedPlayersLeak | internal/observations/builder.go:467-499 | Whenever two opportunities of different sessions share an observer or a pair key, some choice of sessions and some configuration show the difference, an accepted one if they share the observer. |
| EvidenceLaws.IndependentWindowsDiffer | internal/observations/builder.go:270-271 | Independent observations of one observer never share a refractory window id. |
| EvidenceLaws.ArrivalOrderIrrelevant | internal/observations/builder.go:352-382 | Two lists of batches that carry the same events of the same servers and sessions build alike, results and errors, however these are cut into batches, numbered or ordered; only events with the same server, session, time and sequence must keep their order. |
| EvidenceLaws.RecutSendsTheSame | internal/observations/builder.go:352-365 | Cutting one batch in two anywhere in a list, under any numbers, sends the same events. |
| EvidenceLaws.FlatAllIs | internal/observations/builder.go:352-365 | The flattened events of a list of batches are, one by one, the events it carries with the ids of their batches. |
| ClientEdges.EdgesOnlyAddOutcomes | internal/observations/builder.go:190-272 | Deleting every client decision edge leaves the same observations with the same cues, independence, episodes and encounters, and makes none ineligible. |
| ClientEdges.EvidenceOrigin | internal/observations/builder.go:190-272 | Every observation is an opportunity event of the timeline, and its flags are at most what its own context allows. |
| ClientEdges.EligibleIsServerAuthored | pkg/schema/v1.go:95-140 | In validated batches every eligible observation rests on a server event of tier A of an opportunity type. |
| Telemetry.TierAIsFromServer | pkg/schema/v1.go:102-108 | An accepted event with server authority comes from the server. |
| Telemetry.AcceptedIsProper | pkg/schema/v1.go:68-183 | An accepted batch is of version one, numbered, named and holds one to a thousand events; no event of it breaks a rule on type, source, authority, numbering, identifiers or payload size, and each visibility observation is the server's own and names its players, classification, policy and probabilities, with validation and duration for a robust occlusion. |
| Telemetry.ProperIsAccepted | pkg/schema/v1.go:68-183 | A batch that meets these rules is always accepted. |
| PreExposure.EstimatePreExposure | internal/features/preexposure.go:29-57 | The loop counts exactly the usable, definite and ambiguous incidents and reports the medians of the two lead lists and the two rates. |
| PreExposure.MedianInt64 | internal/features/preexposure.go:59-69 | The array is sorted in place and its middle, or the truncated mean of its two middles, is returned; zero when empty. |
| PreExposure.RateWithinBounds | internal/features/preexposure.go:40-53 | For every choice of true times inside the intervals the true pre-exposure rate lies between the two reported rates, and each of them is attained. |
| PreExposure.CountAttained | internal/features/preexposure.go:40-49 | Readiness as late and exposure as early as possible attains the lower count; the reverse attains the upper. |
| PreExposure.SortedBelow | internal/features/preexposure.go:59-69 | Pointwise dominance of two lists survives sorting them separately. |
| PreExposure.MedianLeadWithinBounds | internal/features/preexposure.go:40-57 | The median of the true leads is at least the reported lower median and exceeds the reported upper median by at most the half millisecond that integer division drops. |
| PreExposure.UpperMedianExact | internal/features/preexposure.go:59-69 | The reported upper median bounds every possible true median if and only if the division of the two middle leads drops no half. |
| PreExposure.UpperMedianCanBeShort | internal/features/preexposure.go:59-69 | With leads of one and two milliseconds the true median is 1.5 and the reported bound is 1. |
| PreExposure.CountIncidents | internal/features/preexposure.go:31-50 | The loop with its early continues counts usable, definite and ambiguous incidents and collects both lead lists. |
| Incidents.EstimatePreExposureForSessions | cmd/analyse/main.go:217-237 | The loop turns exactly the strong, independent, unexplained observations with an exposure into incidents and estimates those: counts, both rates, which are zero without incidents, and both medians. |
| Incidents.CountsAreOfObservations | internal/features/preexposure.go:31-50 | The three counts are the numbers of observations, named by their own fields, whose exposure was seen, whose readiness certainly came before it, and whose readiness may have. |
| Incidents.DefiniteIncidentRests | cmd/analyse/main.go:217-237 | A definite incident of built evidence rests on a readiness edge and a sighting by its own player, in its own session and in the timeline. |
| Incidents.DefiniteIncidentIsReal | internal/features/preexposure.go:40-45 | From built evidence to the client: if that edge came aligned from an honest player's run, with an interval that starts after zero or ends by one, the weapon was really raised before the exposure. |
| FalseDiscovery.BenjaminiHochberg | internal/features/validation.go:110-140 | The backward sweep produces the step-up adjustment of the clamped p-values in rank order. |
| FalseDiscovery.ResultIsOfInput | internal/features/validation.go:110-140 | Every hypothesis is listed once, by p-value and then by identifier; a p-value in the unit interval is listed unchanged and any other as the end it lies beyond; each adjusted value is the least of one and the scaled p-values from its rank on. |
| FalseDiscovery.AdjustmentUnique | internal/features/validation.go:110-126 | The random iteration order of the input map has no effect on the result. |
| FalseDiscovery.AdjustIsMinimum | internal/features/validation.go:127-138 | An adjusted value is the minimum of one and the scaled p-values from its rank on. |
| FalseDiscovery.AdjustNondecreasing | internal/features/validation.go:127-138 | Adjusted values never fall with rank. |
| FalseDiscovery.AdjustedMeansRejected | internal/features/validation.go:110-140 | At every level the entries adjusted to at most alpha are exactly the ones the classic step-up rule rejects. |
| FalseDiscovery.RejectedIs | internal/features/validation.go:110-140 | The independent step-up rule: the last rank that passes, with every later rank failing. |
| FalseDiscovery.TiesAgree | internal/features/validation.go:121-138 | Tied p-values receive equal adjusted values. |
| FalseDiscovery.AdjustNeverHelps | internal/features/validation.go:127-138 | An adjusted value is never below its p-value. |
| FalseDiscovery.CollectEntries | internal/features/validation.go:111-120 | The entries are the clamped input, each identifier once, in some order. |
| FalseDiscovery.AdjustRanks | internal/features/validation.go:127-138 | The backward loop fills in every adjusted value in place. |
| FalseDiscovery.AdjustmentIsRanked | internal/features/validation.go:121-126 | Any result lists exactly the clamped inputs in nondecreasing order with their adjustments. |
| AudioCues.Enrich | internal/cues/audio.go:63-118 | Enrichment fails without touching anything on a bad configuration or payload; otherwise every observation becomes its declaratively defined enrichment. |
| AudioLaws.EnrichmentIsLoudest | internal/cues/audio.go:63-118 | Each observation records the loudest audible shot and the loudest audible step of its target in its session and within the lookbacks, the latest of equally loud ones: shots by the durable id of their source, steps also by the player session. Nothing is added without one. The result is known exactly if it was or the shot was strong, and unexplained exactly if it was and neither sound was better than possible. |
| AudioLaws.ListenerIsLatest | internal/cues/audio.go:242-255 | A sound is heard from the observer's latest snapshot with a position up to then, unless that is older than the tolerance, and then not at all. |
| AudioLaws.DurableFollowsLastColon | internal/cues/audio.go:282-287 | The durable id is what follows the last colon. |
| AudioLaws.ArchiveIsIndexed | internal/cues/audio.go:120-156 | Every event of every batch is in the archive of the ledger under its own session, time, source and id. |
| AudioLaws.IndexedIsArchived | internal/cues/audio.go:120-156 | The archive holds nothing else. |
| AudioCues.IndexEvents | internal/cues/audio.go:120-156 | The session and player indexes answer every lookup with the time-sorted events of the archive. |
| AudioCues.ScanSounds | internal/cues/audio.go:72-116 | The scan that stops at the observation's start finds the best gunshot and footstep over all events, where `BestIs` says what best means. |
| AudioCues.BestIs | internal/cues/audio.go:238-240 | The chosen candidate is one of the audible ones; every other has a lower rank, or the same rank and a time at most as late. |
| AudioCues.NearestIs | internal/cues/audio.go:242-255 | The position used is the latest snapshot at or before the moment and within tolerance, if there is one. |
| AudioCues.CueClassNeverDrops | internal/cues/audio.go:103-116 | Enriching never lowers a cue class and changes only the cue fields. |
| AudioCues.EnrichUsesOnlyPast | internal/cues/audio.go:72-116 | Enrichment uses only events and snapshots up to the observation's start. |
| AudioCues.EnrichIsCausal | internal/cues/audio.go:72-116 | Two archives that agree up to an observation's start enrich it identically. |
| AudioCues.ArrivalOrderIrrelevant | internal/cues/audio.go:120-156 | Where the events of a session have distinct times, the order in which events arrived has no effect on any enrichment. |
| AudioCues.IndexBatch | internal/cues/audio.go:120-156 | Indexing one batch extends both indexes by its events, or stops at a malformed payload. |
| AudioCues.EnrichFrom | internal/cues/audio.go:72-116 | One observation is enriched from the index as from the whole archive. |
| AudioCues.EnrichAll | internal/cues/audio.go:72-116 | The loop rewrites every observation in place to its enrichment. |
| Agent.OpenOutbox | internal/agent/outbox.go:61-87 | Opening refuses missing names, limits that are not positive and directories that cannot be made or read; otherwise the queue is a scan of the files on disk. |
| Agent.Outbox.Put | internal/agent/outbox.go:89-122 | A put has exactly the specified effect on queue, files and wake signal, for every outcome of the write. |
| DeliveryLaws.PutStores | internal/agent/outbox.go:89-122 | A batch is stored exactly when it is of this server, its path is free, both limits leave room for it and the write works; then it is the last item and a new file of exactly its text, and otherwise the queue stays as it was. |
| DeliveryLaws.PutRefuses | internal/agent/outbox.go:89-122 | The wrong server, an equal file, a different file and a full outbox are each answered exactly when they occur, in this order; only a write that fails to sync leaves a file without an item. |
| PathNames.PathsNameBatches | internal/agent/outbox.go:253-295 | Two batches share a file exactly when their cleaned server and session identifiers and their sequence numbers are equal. |
| PathNames.PlainPathsAreDistinct | internal/agent/outbox.go:253-295 | With identifiers of safe characters only, batches of different identity never share a file. |
| Agent.Outbox.Remove | internal/agent/outbox.go:144-156 | Removing has exactly the specified effect on queue and files. |
| DeliveryLaws.RemovalTakesItem | internal/agent/outbox.go:144-156 | Removing an item closes the gap, deletes its file and its size, and nothing else. |
| Agent.Outbox.DeadLetter | internal/agent/outbox.go:158-192 | Dead-lettering moves the file and the item, or leaves both. |
| Agent.Outbox.Scan | internal/agent/outbox.go:215-251 | The scan rebuilds the queue from the files, ordered by modification time and path. |
| DeliveryLaws.ReopenedIsOldestFirst | internal/agent/outbox.go:215-251 | A reopened outbox lists every file once with its size and time, oldest first and by path among equally old ones. |
| Agent.Outbox.FindIndex | internal/agent/outbox.go:262-272 | The search finds the first item with the path, or nothing. |
| Delivery.IndexFromIs | internal/agent/outbox.go:262-272 | The index is the first match from the start position, and minus one means no match. |
| Agent.Uploader.UploadNext | internal/agent/uploader.go:82-140 | One attempt changes queue and files only after an answer: success removes, a permanent rejection dead-letters, anything else leaves all for a retry; the counters follow. |
| DeliveryLaws.AnswersDecide | internal/agent/uploader.go:82-172 | A status from 200 to 299 removes the head of the queue and its file; exactly 400, 409, 413 and 422 move it to the dead letters with its content; any other answer, or a file system that fails, leaves everything for a retry. |
| DeliveryLaws.HeadGetsThrough | internal/agent/uploader.go:82-140 | In every run, an undisturbed upload of an admissible head delivers it: the head departs with its file and the central store holds the batch, unless another one already stood under its name. |
| Agent.Outbox.Open | internal/agent/outbox.go:61-87 | A newly opened outbox is a scan of the files that are there. |
| Agent.Outbox.Peek | internal/agent/outbox.go:124-131 | The head of the queue, if there is one. |
| Agent.Outbox.Read | internal/agent/outbox.go:133-142 | The content of the file of an item, or a failure when it is gone. |
| Agent.Outbox.AtCapacity | internal/agent/outbox.go:206-209 | Full means that no further file fits, however small, and that every put of a new batch is refused as long as nothing leaves. |
| Agent.Outbox.RemoveItem | internal/agent/outbox.go:274-280 | Items, known paths and byte count lose the same item. |
| Agent.LoadFiles | internal/agent/outbox.go:240-244 | Loading sorted files sets items, known paths and byte count together. |
| Agent.Uploader.Try | internal/agent/uploader.go:82-140 | The attempt without the failure bookkeeping of the surrounding loop. |
| Delivery.SuccessMeansStored | internal/ingest/server.go:179-212 | A success status means the very batch of the request is in the store, and nothing else was written. |
| DeliveryLaws.OnlyAdmissibleIsStored | internal/ingest/server.go:113-212 | A success status, or any change of the store, implies a valid credential, a body within the limit, a decoded and valid batch, and a server id equal to the expected and the bound one where these are set. |
| DeliveryLaws.AdmissibleIsAnswered | internal/ingest/server.go:179-212 | An admissible batch is stored with 202 when its path is free and the store works, answered 200 when the path holds it and 409 when it holds another, and 500 exactly when the store fails. |
| DeliveryLaws.RefusalsInOrder | internal/ingest/server.go:113-178 | The statuses 401, 413, 400, 422 and 403 are each given exactly when credential, size, form, validity or server is wrong and everything before it in this order is right. |
| DeliveryLaws.ForeignIsBoundElsewhere | internal/ingest/server.go:172-177 | The 403 that is counted as a failed credential is given exactly when the batch is valid and of the expected server but the credential is bound to another. |
| DeliveryLaws.StoredWasAdmitted | internal/ingest/server.go:113-212 | In every run, everything in the central store was brought by one step: the delivery of an admissible request, or another agent. |
| Delivery.PermanentMeansUnacceptable | internal/agent/uploader.go:165-172 | A batch is refused for good only if it is malformed, invalid, too large or contradicts what is stored. |
| Ingest.RawStore.Put | internal/storage/raw.go:41-117 | The store is write-once: an equal batch is a duplicate, a different one a conflict, and neither changes the file. |
| Ingest.IngestServer.HandleBatch | internal/ingest/server.go:113-213 | Each request gets the specified status and store effect; success or any change of the store needs a credential, a valid body of allowed size and the right server; every request is counted in exactly one outcome, and refusals are counted by cause: credentials, decoding or validation. |
| Ingest.IngestServer.Screen | internal/ingest/server.go:113-178 | Credential, size, form, validity and server are checked in the order that `DeliveryLaws.RefusalsInOrder` spells out, and the first that fails decides status and counters. |
| Spool.ImportFile | internal/spool/import.go:97-149 | A file is read line by line until the first bad line or failed put; it passes only with at least one batch. |
| Spool.PassedMeansStored | internal/spool/import.go:107-144 | A file passes only if every line is blank or a valid batch that is then on disk. |
| SpoolLaws.PassedExactlyWhen | internal/spool/import.go:107-144 | A file passes up to a line exactly when every line before it is blank or a valid batch that the outbox stores or already has. |
| SpoolLaws.PassedCounts | internal/spool/import.go:107-149 | A passing file has only blank lines and valid batches of this server; it counts all of these, and those that are not duplicates are the items that joined the queue. |
| SpoolLaws.CleanFilePasses | internal/spool/import.go:97-149 | On a disk that works and with room for all of it, a file of blank lines and valid batches of this server without conflicting paths passes, and all of it is stored. |
| Spool.FailureSticks | internal/spool/import.go:107-144 | After a failed line nothing further is read. |
| Spool.SpoolDirectory.ImportClaimed | internal/spool/import.go:55-93 | A claimed file is archived only after every line was stored; otherwise it is renamed back unless that rename fails; verdict and counts say which. |
| Spool.SpoolDirectory.ImportDir | internal/spool/import.go:34-95 | The sweep visits the ready files in name order, stops at the first that fails, and leaves exactly the directory, queue, files, verdict and counts of the sweep defined on values, for every outcome of every file operation. |
| Spool.SpoolDirectory.ImportOne | internal/spool/import.go:65-93 | One file of the sweep: claimed if it is still there, imported, archived or put back. |
| SpoolLaws.ClaimedEndsUp | internal/spool/import.go:65-93 | A claimed file with a batch whose lines all pass is archived and counted if that rename works; any other ends the sweep uncounted and is back in place, or still claimed if that rename fails too; no other file moves. |
| SpoolLaws.FinishedSweepArchived | internal/spool/import.go:34-95 | A sweep that reaches its end has archived every ready file that it claimed and left none of them in place. |
| Spool.SweepArchivesWhatIsStored | internal/spool/import.go:52-95 | After any part of a sweep everything newly archived is stored line by line, and the reported file count is the number of files archived. |
| Spool.SweepLosesNothing | internal/spool/import.go:52-95 | After any part of a sweep the content of every file that had its own name before is in its place, claimed or archived, and as long as nothing failed not merely claimed. |
| Spool.StrandedStaysExactlyWhen | internal/spool/import.go:55-62 | A file that an earlier sweep left under its claimed name stays there if and only if no new file of that name is claimed, which would replace it. |
| DeliveryRuns.PutKeepsQueue | internal/agent/outbox.go:89-122 | A put keeps queue, known paths, byte count and files consistent, never passes a limit, and disturbs no stored file. |
| DeliveryRuns.ScanKeepsQueue | internal/agent/outbox.go:215-251 | Reopening rebuilds a consistent queue that holds exactly the outbox files on disk. |
| DeliveryRuns.RunKeepsInv | internal/agent/outbox.go:89-192 | Every interleaving of puts, imports, uploads, lost requests and responses, crashes and reopenings keeps the delivery invariant. |
| DeliveryRuns.AcknowledgedIsNeverLost | internal/agent/uploader.go:82-140 | In every run an acknowledged batch stays byte for byte in the outbox, the central store or the dead letters. |
| DeliveryRuns.CentralNeverChanges | internal/storage/raw.go:59-116 | In every run a central entry, once written, never changes, and no acknowledgement is withdrawn. |
| DeliveryRuns.ArchivedIsAcknowledged | internal/spool/import.go:73-93 | In every run an archived spool file consists of blank lines and acknowledged batches that are still held. |
| DeliveryRuns.QueueIsFIFO | internal/agent/uploader.go:82-140 | Since the last opening, what entered is what left followed by what waits, in order. |
| DeliveryLinks.ImportStepsAgree | internal/spool/import.go:97-149 | Importing a file line by line, as runs do, ends with the queue, files and verdict of importing it in one call. |
| DeliveryLinks.ReactionIsAttempt | internal/agent/uploader.go:82-140 | The reaction to an answer in a run is the uploader's own attempt with that answer. |
| DeliveryLinks.LossIsNoAnswer | internal/agent/uploader.go:82-140 | Losing a request or a response leaves queue and files as an attempt without an answer does. |
| Exporter.DBAProbeExporter.Queue | dayz/BehaviourProbe/scripts/5_Mission/DayZBehaviour/DBAProbeExporter.c:78-90 | Queueing at the limit drops the oldest event, if there is one, and counts a drop, for every limit. |
| ExporterLaws.QueuedIsLast | dayz/BehaviourProbe/scripts/5_Mission/DayZBehaviour/DBAProbeExporter.c:78-90 | A new event becomes the last pending one; a full queue gives up its oldest event for it and counts one drop; nothing else changes. |
| ExporterLaws.PendingIsLatest | dayz/BehaviourProbe/scripts/5_Mission/DayZBehaviour/DBAProbeExporter.c:78-178 | First in, first out: in every run the pending events are the latest of the queued ones, in order. |
| Exporter.DBAProbeExporter.FlushBatch | dayz/BehaviourProbe/scripts/5_Mission/DayZBehaviour/DBAProbeExporter.c:121-178 | A flush does nothing while a request is in flight; otherwise it takes the next events and sends, spools or drops them. |
| ExporterLaws.FlushSendsOldest | dayz/BehaviourProbe/scripts/5_Mission/DayZBehaviour/DBAProbeExporter.c:121-178 | With nothing in flight a flush takes the oldest events, as many as a batch may have, under the next number: into flight when everything works, into the spool when serialised but not sent, and counted as dropped when not serialised. |
| ExporterLaws.FlushWaits | dayz/BehaviourProbe/scripts/5_Mission/DayZBehaviour/DBAProbeExporter.c:121-127 | With a request in flight, or nothing pending, a flush changes nothing. |
| ExporterLaws.CallbacksEndRequest | dayz/BehaviourProbe/scripts/5_Mission/DayZBehaviour/DBAProbeExporter.c:180-193 | Either callback ends the request and counts itself; a failed payload is written to the spool where that is possible, a confirmed one nowhere. |
| ExporterLaws.SpooledInOrder | dayz/BehaviourProbe/scripts/5_Mission/DayZBehaviour/DBAProbeExporter.c:121-236 | In every run the spool receives payloads in the order of their numbers and none twice, and the one in flight has a higher number than all of them. |
| Exporter.DBAProbeExporter.OnExportFailed | dayz/BehaviourProbe/scripts/5_Mission/DayZBehaviour/DBAProbeExporter.c:187-193 | A failure hands the payload in flight to the spool. |
| Exporter.DBAProbeExporter.OnExportSucceeded | dayz/BehaviourProbe/scripts/5_Mission/DayZBehaviour/DBAProbeExporter.c:180-185 | A success confirms the payload in flight. |
| Exporter.DBAProbeExporter.SpoolPayload | dayz/BehaviourProbe/scripts/5_Mission/DayZBehaviour/DBAProbeExporter.c:195-236 | Spooling rotates and appends to the ring as specified; a payload that reaches no file is lost. |
| Exporter.RunConserves | dayz/BehaviourProbe/scripts/5_Mission/DayZBehaviour/DBAProbeExporter.c:78-193 | In every run, under every configuration, each queued event is counted exactly once among pending, in flight, confirmed, in a payload that reached a file, lost with a payload that reached none, and dropped; and the pending buffer keeps its limit or, with none, one event. |
| Exporter.DropCounterExactlyWhen | dayz/BehaviourProbe/scripts/5_Mission/DayZBehaviour/DBAProbeExporter.c:84-95 | In every run the reported drop counter is the number of events dropped, if and only if the pending limit is at least one and the batch limit is not negative. |
| Exporter.NothingLostExactlyWhen | dayz/BehaviourProbe/scripts/5_Mission/DayZBehaviour/DBAProbeExporter.c:195-236 | In every run whose spool files all open no event is lost, if and only if the spool has valid bounds or batches carry no events. |
| Exporter.LossIsSilent | dayz/BehaviourProbe/scripts/5_Mission/DayZBehaviour/DBAProbeExporter.c:121-236 | Whether a spool file opens, and so whether its payload is lost, changes no counter in that step, not even that of the overwrites. |
| Exporter.LossStaysSilent | dayz/BehaviourProbe/scripts/5_Mission/DayZBehaviour/DBAProbeExporter.c:121-236 | Two runs that differ only in which spool files open report the same drops, successes and failures throughout. |
| Exporter.RunKeepsRing | dayz/BehaviourProbe/scripts/5_Mission/DayZBehaviour/DBAProbeExporter.c:195-236 | In every run the ring's slot, counters and files are those of the payloads written so far. |
| Exporter.RingHoldsTheLatest | dayz/BehaviourProbe/scripts/5_Mission/DayZBehaviour/DBAProbeExporter.c:195-236 | After n writes the files, read in block order, hold exactly the last min(n, (files - 1) * per-file + size of the last block) payloads, in exactly the slots of those blocks. |
| Exporter.OverwriteCounterExact | dayz/BehaviourProbe/scripts/5_Mission/DayZBehaviour/DBAProbeExporter.c:208-217 | The overwrite counter is (n - 1) div (files * per-file) if and only if the current file has been opened or n is not a whole number of laps. |
| Exporter.OverwriteCounter | dayz/BehaviourProbe/scripts/5_Mission/DayZBehaviour/DBAProbeExporter.c:208-217 | The value of the counter in both cases. |
| Exporter.CounterCanRunAhead | dayz/BehaviourProbe/scripts/5_Mission/DayZBehaviour/DBAProbeExporter.c:208-231 | A rotation whose file cannot be opened counts an overwrite while the old file is still whole. |
| Exporter.ZeroMeansNothingLost | dayz/BehaviourProbe/scripts/5_Mission/DayZBehaviour/DBAProbeExporter.c:195-236 | While the counter is zero everything spooled in this run is still on disk. |
| Exporter.DBAProbeExporter.TakeBatch | dayz/BehaviourProbe/scripts/5_Mission/DayZBehaviour/DBAProbeExporter.c:128-147 | The next events move from the pending buffer into a numbered payload. |
| Exporter.DBAProbeExporter.WriteToRing | dayz/BehaviourProbe/scripts/5_Mission/DayZBehaviour/DBAProbeExporter.c:202-234 | Rotation and append as specified, nothing with invalid bounds, and whether the payload reached a file. |
| Exporter.DBAProbeExporter.RotateWhenFull | dayz/BehaviourProbe/scripts/5_Mission/DayZBehaviour/DBAProbeExporter.c:207-216 | A full file makes the slot advance cyclically, and reaching slot zero counts an overwrite. |
| Exporter.DBAProbeExporter.AppendLine | dayz/BehaviourProbe/scripts/5_Mission/DayZBehaviour/DBAProbeExporter.c:218-234 | The payload is appended, or starts the file afresh after a rotation. |
| MissionServer.MissionServer.DrainProbeQueues | dayz/BehaviourProbe/scripts/5_Mission/DayZBehaviour/ZZZZ_DBATemporalMission.c:81-132 | The loop over shared request objects terminates and leaves exactly the specified state and number of probes; what that state is, turn by turn, is stated in `DrainLaws`. |
| DrainLaws.DueIsProbed | dayz/BehaviourProbe/scripts/5_Mission/DayZBehaviour/ZZZZ_DBATemporalMission.c:83-130 | A head, random requests first, that is usable, due and at most the age limit old is probed: its log gains the reading with its mark, raycasts grow by one, the mark is reported unless it is a first occlusion, which waits again; an enrichment request goes back due its interval later while its window lasts; everything else stays. |
| DrainLaws.SpoiltIsDropped | dayz/BehaviourProbe/scripts/5_Mission/DayZBehaviour/ZZZZ_DBATemporalMission.c:107-115 | A head whose players are unfit or that waited too long is dropped, and the loop goes on. |
| DrainLaws.EarlyGoesBack | dayz/BehaviourProbe/scripts/5_Mission/DayZBehaviour/ZZZZ_DBATemporalMission.c:116-120 | A head that is not due goes to the end of its queue, which has room for it, and the loop ends. |
| DrainLaws.HeadIsProbed | dayz/BehaviourProbe/scripts/5_Mission/DayZBehaviour/ZZZZ_DBATemporalMission.c:81-130 | With probing on, a head that is fit and due at the first reading has that reading in its log after the tick, and the returned count is at least one and equals the raycasts. |
| DrainLaws.RandomsAreProbed | dayz/BehaviourProbe/scripts/5_Mission/DayZBehaviour/ZZZZ_DBATemporalMission.c:81-130 | As far as the budget goes, waiting random requests that are fit and due at their turn are probed in order, each with its own reading. |
| DrainLaws.UnprobedLeavesOnlySpoilt | dayz/BehaviourProbe/scripts/5_Mission/DayZBehaviour/ZZZZ_DBATemporalMission.c:81-162 | In every run a waiting request that stops waiting without being probed was met by the drain on a reading that found its players unfit or the request too old; nothing is ever pushed out. |
| MissionServer.MissionServer.TakeTurn | dayz/BehaviourProbe/scripts/5_Mission/DayZBehaviour/ZZZZ_DBATemporalMission.c:91-130 | One turn pops the random queue first, discards stale or unusable requests, returns on one that is not due, and probes otherwise; the four cases are spelled out in `DrainLaws`. |
| MissionServer.MissionServer.EmitVisibilityObservation | dayz/BehaviourProbe/scripts/5_Mission/DayZBehaviour/DBAMissionServerCorrectness.c:75-185 | A first validated occlusion is kept back and requeued; any other result is exported, as robust when occluded long enough after the first. |
| MissionServer.ProbeRequest.Confirm | dayz/BehaviourProbe/scripts/5_Mission/DayZBehaviour/DBAMissionServerCorrectness.c:131-154 | The effect of one result on its request. |
| MissionServer.MissionServer.RequeueRequest | dayz/BehaviourProbe/scripts/5_Mission/DayZBehaviour/ZZZZ_DBATemporalMission.c:134-162 | Requeueing respects the limit of the request's stream and counts drops. |
| MissionServer.MissionServer.ScheduleRandomOpportunities | dayz/BehaviourProbe/scripts/5_Mission/DayZBehaviour/ZZ_DBASamplingControls.c:3-64 | The scheduler loop makes the specified offers in order, with a new request object for each admission. |
| MissionServer.MissionServer.ScheduleEventEnrichment | dayz/BehaviourProbe/scripts/5_Mission/DayZBehaviour/ZZZZ_DBATemporalMission.c:3-79 | Each drained edge is exported, and becomes a bounded enrichment request or a counted drop when it can be probed. |
| MissionServer.ProbeRequest.Postpone | dayz/BehaviourProbe/scripts/5_Mission/DayZBehaviour/ZZZZ_DBATemporalMission.c:127-128 | The next look at a request is at least a hundred milliseconds away. |
| MissionServer.MissionServer.RepeatRequest | dayz/BehaviourProbe/scripts/5_Mission/DayZBehaviour/ZZZZ_DBATemporalMission.c:125-130 | An enrichment request is postponed and requeued while its window lasts. |
| MissionServer.MissionServer.PopRequest | dayz/BehaviourProbe/scripts/5_Mission/DayZBehaviour/ZZZZ_DBATemporalMission.c:91-105 | The head of the random queue, else of the enrichment queue, leaves its queue. |
| MissionServer.MissionServer.OfferOpportunity | dayz/BehaviourProbe/scripts/5_Mission/DayZBehaviour/ZZ_DBASamplingControls.c:15-63 | One player of the scheduler loop, with all its early continues. |
| MissionServer.MissionServer.ServeOpportunity | dayz/BehaviourProbe/scripts/5_Mission/DayZBehaviour/ZZ_DBASamplingControls.c:36-62 | A due opportunity becomes a request, a neutral report or a dropped report. |
| MissionServer.MissionServer.EnrichEdge | dayz/BehaviourProbe/scripts/5_Mission/DayZBehaviour/ZZZZ_DBATemporalMission.c:23-78 | One edge of the enrichment loop: its export, then the early continues. |
| ProbeRuns.DrainKeepsInv | dayz/BehaviourProbe/scripts/5_Mission/DayZBehaviour/ZZZZ_DBATemporalMission.c:81-132 | One tick makes at most the configured number of raycasts, reports exactly how many, and keeps the scheduler invariant. |
| ProbeRuns.BehaviourKeepsInv | dayz/BehaviourProbe/scripts/5_Mission/DayZBehaviour/ZZZZ_DBATemporalMission.c:3-162 | Every run of schedulers and drains keeps the scheduler invariant. |
| ProbeRuns.QueuesStayWithinLimits | dayz/BehaviourProbe/scripts/5_Mission/DayZBehaviour/ZZZZ_DBATemporalMission.c:134-162 | In every run both queues keep their limits, a random request waits at most once and an enrichment request at most twice, and only once when occlusions are not validated, the minimum duration is positive or no probe is ever made. |
| ProbeRuns.RandomRequestsAreConfirmed | dayz/BehaviourProbe/scripts/5_Mission/DayZBehaviour/DBAMissionServerCorrectness.c:131-154 | In every run a random request is probed at most twice and is marked robust exactly on a second occluded probe at least the minimum duration after a first one. |
| ProbeRuns.EnrichmentRequestsAreBounded | dayz/BehaviourProbe/scripts/5_Mission/DayZBehaviour/ZZZZ_DBATemporalMission.c:125-130 | In every run an enrichment request is probed at most 22 times and marked robust exactly on the occluded probes at least the minimum duration after its first occlusion. |
| ProbeRuns.RobustIsConsecutive | dayz/BehaviourProbe/scripts/5_Mission/DayZBehaviour/ZZZZ_DBATemporalMission.c:107-130 | Under those configurations at most one probe ever follows a first occlusion, so nothing lies between it and a robust mark. |
| ProbeFailures.NeverQueuedTwiceExactlyWhen | dayz/BehaviourProbe/scripts/5_Mission/DayZBehaviour/DBAMissionServerCorrectness.c:135-148 | No run ever queues a request twice if and only if occlusions are not validated, or the minimum duration is positive, or ticks make no probes, or the age limit is negative, or there is no room for two; otherwise one edge and one tick do it. |
| ProbeFailures.RobustIsConsecutiveExactlyWhen | dayz/BehaviourProbe/scripts/5_Mission/DayZBehaviour/ZZZZ_DBATemporalMission.c:107-130 | In every run all probes between a first occlusion and a robust mark are occluded if and only if probing is off or has no room, occlusions are not validated, the minimum duration is at least the window, or the age limit is below the interval or the minimum duration; otherwise one edge and three ticks put a clear probe between. |
| ProbeRuns.OffersAreAccountedFor | dayz/BehaviourProbe/scripts/5_Mission/DayZBehaviour/ZZ_DBASamplingControls.c:15-63 | Each opportunity has exactly one fate: skipped unless due; if due, reported as neutral without targets, refused and reported when the queue is full at its turn, else queued. Queue, reports and drop counter grow by just these, in order. |
| ProbeRuns.EdgesAreAccountedFor | dayz/BehaviourProbe/scripts/5_Mission/DayZBehaviour/ZZZZ_DBATemporalMission.c:23-78 | Every drained edge is reported once and in order, whatever becomes of its probe, and each one that can be probed is queued or counted as dropped. |
| DrainLaws.OffersExtend | dayz/BehaviourProbe/scripts/5_Mission/DayZBehaviour/ZZ_DBASamplingControls.c:15-63 | Scheduling only lengthens the random queue, and each new request is an unprobed random one queued at that moment and due at once. |
| DrainLaws.EdgesExtend | dayz/BehaviourProbe/scripts/5_Mission/DayZBehaviour/ZZZZ_DBATemporalMission.c:23-78 | Each new enrichment request belongs to one drained edge: queued when that was received, five seconds long and looked at every quarter of a second. |
| DrainLaws.EdgeIsQueued | dayz/BehaviourProbe/scripts/5_Mission/DayZBehaviour/ZZZZ_DBATemporalMission.c:55-78 | An edge that can be probed joins the enrichment queue exactly when that has room, and is counted as dropped otherwise; every edge is reported. |
| DrainLaws.OpportunityMovesOn | dayz/BehaviourProbe/scripts/5_Mission/DayZBehaviour/ZZ_DBASamplingControls.c:15-34 | A player's next opportunity moves on exactly when it is first seen or due. |
| DrainLaws.ReportKeepsInterval | dayz/BehaviourProbe/scripts/5_Mission/DayZBehaviour/ZZZZ_DBATemporalMission.c:23-60 | A report keeps the identity and interval of its edge and dates it in the middle of it. |
| ProbeRuns.ProbeEnrich | dayz/BehaviourProbe/scripts/5_Mission/DayZBehaviour/DBAMissionServerCorrectness.c:131-154 | A probe of an enrichment request keeps its pace: all probes but the first occlusion, or all of them if that was queued twice, push it a full interval on. |
| ProbeRuns.ProbeRandom | dayz/BehaviourProbe/scripts/5_Mission/DayZBehaviour/DBAMissionServerCorrectness.c:131-154 | A probe of a random request either waits for confirmation once or ends it. |
| Clock.ProbeRuntime.RecordClockChallenge | dayz/BehaviourProbe/scripts/3_Game/DayZBehaviour/ZZZ_DBAClockIntegrity.c:7-16 | Recording sets the three tables together, or ignores an invalid challenge. |
| ClockLaws.ChallengeIsOpen | dayz/BehaviourProbe/scripts/3_Game/DayZBehaviour/ZZZ_DBAClockIntegrity.c:7-16 | A challenge with a player, a positive number and a time replaces that player's previous one and stays open for ten seconds. |
| Clock.ProbeRuntime.ReceiveValidatedClockResponse | dayz/BehaviourProbe/scripts/3_Game/DayZBehaviour/ZZZ_DBAClockIntegrity.c:40-111 | A response is accepted exactly when it is well formed and answers the pending challenge in time; any well-formed one uses the challenge up. |
| ClockLaws.ResponseDecides | dayz/BehaviourProbe/scripts/3_Game/DayZBehaviour/ZZZ_DBAClockIntegrity.c:40-111 | A well-formed response closes the player's challenge. Exactly one with its number and send time, received before it expires, is accepted, and sets that player's offset to the mean of the two it shows and the uncertainty to half the time on the network; nothing else changes an estimate. |
| ClockLaws.PendingIsOpen | dayz/BehaviourProbe/scripts/3_Game/DayZBehaviour/ZZZ_DBAClockIntegrity.c:7-86 | In every run a player has an open challenge exactly when challenged with no well-formed response and no reset since, and it carries the time of that challenge. |
| ClockLaws.AcceptedAnswersLatest | dayz/BehaviourProbe/scripts/3_Game/DayZBehaviour/ZZZ_DBAClockIntegrity.c:64-86 | Every accepted response of a run answers the player's latest challenge, echoing its time, at most ten seconds later, with no other well-formed response and no reset in between. |
| Clock.ProbeRuntime.ReceiveTemporalDecisionEdge | dayz/BehaviourProbe/scripts/3_Game/DayZBehaviour/ZZZZ_DBATemporalTypes.c:26-110 | An edge is accepted exactly when valid, newer than the last and within the rate window, and is dated by alignment or by arrival. |
| ClockLaws.EdgeDecides | dayz/BehaviourProbe/scripts/3_Game/DayZBehaviour/ZZZZ_DBATemporalTypes.c:26-110 | Exactly the edges of version one with the server's nonce, a known kind, an ordered interval, a direction of about unit length, a number above the player's last and fewer than ten before them in the running second are kept: newest in the queue, with the mapped interval rounded outwards, or the last second where there is no alignment. |
| Clock.ProbeRuntime.ResetPlayerState | dayz/BehaviourProbe/scripts/3_Game/DayZBehaviour/ZZ_DBAPlayerSessionState.c:3-50 | A reset forgets the player in every table and queue: challenge, alignment, clock samples, edges, client batches and health reports with their sequences and windows; and nothing of the others. |
| ClockLaws.ResetForgetsPlayer | dayz/BehaviourProbe/scripts/3_Game/DayZBehaviour/ZZ_DBAPlayerSessionState.c:3-50 | A reset takes the player out of every table and all four queues; every entry of the others remains, as often and in the same order. |
| Clock.ProbeRuntime.ResetClockChallenge | dayz/BehaviourProbe/scripts/3_Game/DayZBehaviour/ZZZ_DBAClockIntegrity.c:18-27 | Resetting removes the player's challenge from all three tables. |
| Clock.ProbeRuntime.ResetClockAlignment | dayz/BehaviourProbe/scripts/3_Game/DayZBehaviour/ZZZ_DBAClockIntegrity.c:29-38 | Resetting also forgets the player's offset and uncertainty. |
| Clock.ProbeRuntime.WindowAt | dayz/BehaviourProbe/scripts/3_Game/DayZBehaviour/ZZZZ_DBATemporalTypes.c:59-70 | The current rate window, a new one when a second has passed. |
| Clock.ProbeRuntime.DateEdge | dayz/BehaviourProbe/scripts/3_Game/DayZBehaviour/ZZZZ_DBATemporalTypes.c:76-99 | The edge with its mapped or fallback interval. |
| Clock.ProbeRuntime.StoreEdge | dayz/BehaviourProbe/scripts/3_Game/DayZBehaviour/ZZZZ_DBATemporalTypes.c:101-108 | Sequence, window, count and queue are updated together, the queue dropping its oldest when full. |
| Clock.Remaining | dayz/BehaviourProbe/scripts/3_Game/DayZBehaviour/ZZ_DBAPlayerSessionState.c:26-41 | Removing backwards in place leaves exactly the entries to be kept, in order. |
| Clock.Push | dayz/BehaviourProbe/scripts/3_Game/DayZBehaviour/ZZZ_DBAClockIntegrity.c:105-109 | The bounded queues never pass their limit and always keep the newest entry. |
| Clock.RoundTrip | dayz/BehaviourProbe/scripts/3_Game/DayZBehaviour/ZZZ_DBAClockIntegrity.c:88-92 | The measured round trip is never negative. |
| ClockRuns.OffsetWithinUncertainty | dayz/BehaviourProbe/scripts/3_Game/DayZBehaviour/ZZZ_DBAClockIntegrity.c:88-102 | With non-negative delays and equal rates the true clock offset lies within the estimate plus or minus half the round trip (section 8 of RFC 5905). |
| ClockRuns.UncertaintyIsTight | dayz/BehaviourProbe/scripts/3_Game/DayZBehaviour/ZZZ_DBAClockIntegrity.c:88-102 | Both ends of that interval are possible true offsets for the same readings. |
| ClockRuns.ChallengeAcceptedAtMostOnce | dayz/BehaviourProbe/scripts/3_Game/DayZBehaviour/ZZZ_DBAClockIntegrity.c:64-86 | In every run no two accepted responses answer the same challenge, and each answers one that was issued. |
| ClockRuns.RunIsTruthful | dayz/BehaviourProbe/scripts/3_Game/DayZBehaviour/ZZZZ_DBATemporalTypes.c:86-99 | In every run, whatever other players send, each queued aligned edge of an honest player has a server interval that contains its true server time. |
| ClockRuns.FallbackIsSoundForRecent | dayz/BehaviourProbe/scripts/3_Game/DayZBehaviour/ZZZZ_DBATemporalTypes.c:94-99 | In every run the interval of a queued edge without alignment contains the true time if and only if the event is at most a second old on arrival. |
| ClockRuns.EdgesAreRateLimited | dayz/BehaviourProbe/scripts/3_Game/DayZBehaviour/ZZZZ_DBATemporalTypes.c:52-74 | Since a player's last reset, accepted sequence numbers increase strictly, at most ten edges share a window, and twenty-one in a row take more than a second. |
| ClockRuns.RunIsBounded | dayz/BehaviourProbe/scripts/3_Game/DayZBehaviour/ZZZ_DBAClockIntegrity.c:83-109 | In every run both queues keep their limit, uncertainties are at most five seconds, and edge intervals are ordered and non-negative. |
| ClockRuns.MappedIntervalIsSound | dayz/BehaviourProbe/scripts/3_Game/DayZBehaviour/ZZZZ_DBATemporalTypes.c:88-93 | If the estimate covers the true offset, the mapped interval contains the true server time of everything in the client interval. |
| EdgeTiming.IntervalSurvivesExactlyWhen | internal/observations/builder.go:418-425 | The builder keeps the interval of a reported edge if and only if it starts after zero or is the point zero. |
| EdgeTiming.DefiniteIsRightExactlyWhen | internal/features/preexposure.go:40-45 | Definite counts timed by a reported edge are right for all true times inside its interval and the exposure's if and only if the edge's interval starts after zero or ends by one. |
| EdgeTiming.DefiniteLeadIsReal | internal/features/preexposure.go:40-45 | In every run in which a player answers honestly, an aligned edge whose interval starts after zero or ends by one, and that counts as a definite pre-exposure, really precedes the exposure. |
| EdgeTiming.ClampedEdgeCanMislead | internal/observations/builder.go:418-425 | A run of an honest player whose edge, clamped to start at zero, is counted before an exposure that it followed. |

## Left out

- LogitFit.FitConditionalLogitForSessions: a score that is not a number is not carried through the fifty rounds, whose outcome is stated instead; the standard error, the confidence interval and the odds ratio printed beside the coefficient are not modelled, being square roots and exponentials of what is.
- LogitFit.ConditionalMoments: works in exact reals; rounding and overflow of floating point, and `Lgamma`, are not modelled.
- Strata.BuildMatchedStrata: keeps the joined context key but not the hash used as stratum identifier; the quality and policy fields are constants.
- PreExposure.MedianInt64: integers are unbounded, so the overflow of the sum of the two middle values is not modelled.
- Builder.Build: identifiers, the target key and the window names are the joined parts that the system hashes; raw JSON is replaced by decoded or malformed payloads; sorting is stable, so the order of events with equal keys is that of arrival.
- EvidenceLaws.SessionsAreIndependentExactlyWhen: for ids that contain the separator, a shared pair key is shown to matter under an episode gap that the builder refuses; under positive gaps it matters exactly when the starts make the episode counts differ, which has no simpler form.
- AudioCues.Enrich: the audibility model and the details text of a cue are parameters; keys joined with NUL are tuples.
- Telemetry.Validate: white space is the ASCII white space and the two Latin-1 ones that trimming removes, and payload sizes are numbers; validity of JSON is part of the decoding result.
- Agent.Outbox.Put: collisions that arise when names are made safe for the file system appear as ordinary conflicts; when they arise is `PathNames.PathsNameBatches`.
- Agent.Outbox.DeadLetter: the reason file beside a dead letter is not modelled, and two dead letters of one path are assumed to have different time stamps.
- Agent.Uploader.UploadNext: the retry delay of the surrounding loop and the status texts are not modelled.
- DeliveryRuns.AcknowledgedIsNeverLost: a process that dies while a spool file is claimed leaves that file under its claimed name, which no later import visits; the batches already acknowledged from it are safe, the rest stays there until a new file of that name is claimed and replaces it.
- Ingest.IngestServer.HandleBatch: credentials, size limits and time measurement are parameters or absent; replies and logs are not modelled.
- Spool.SpoolDirectory.ImportDir: a missing or unreadable directory, cancellation, the extension and age filters and the archive stamp are parameters or absent.
- Exporter.DBAProbeExporter.Queue: taking the first element out of an empty array, which the original does with a limit of zero, is taken to do nothing.
- Exporter.RingHoldsTheLatest: speaks of what this run wrote; files left by an earlier run in slots not yet reached are not modelled.
- MissionServer.MissionServer.DrainProbeQueues: players, positions and raycasts appear as readings; the fields of the exported payload other than its classification are not modelled.
- ProbeRuns.RandomRequestsAreConfirmed: assumes positive probe times; the original uses zero for "not yet occluded", so a probe completed at time zero would not be remembered.
- Clock.ProbeRuntime.ResetPlayerState: the receipt of client sample batches and health reports, and what is in them, are not modelled; only what a reset does to their tables and queues.
- ClockRuns.RunIsTruthful: clocks run at equal rates and readings are exact; the sub-millisecond truncation of the game clock is not modelled.
- Floating point, square roots and trigonometry, including the view sectors.
- `RunNegativeControls`, `RobustScore`, readiness thresholds, stability tables and the ranking policy: one-line formulas and threshold tables.
- HTTP, TLS, cookies, Steam OpenID, the Windows service, the web interface and the map tiles.
- PostgreSQL: retention, review and explorer queries, and deletion for privacy.
- Liveness against an upstream that fails for ever, and queue order after reopening when modification times are not monotone: the system promises neither.
