/** What the sweep writes into each observation, in terms of the swept observations themselves. */
module SweepLaws {
  import opened Independence
  import opened Observations

  ghost predicate AllFresh(obs: seq<Observation>) {
    forall k :: 0 <= k < |obs| ==> obs[k].independent
  }

  /** An earlier independent observation of the same observer that started too recently. */
  predicate Blocks(earlier: Observation, o: Observation, refractoryMS: int) {
    && earlier.independent && earlier.context.observer == o.context.observer
    && o.context.startedMS - earlier.context.startedMS < refractoryMS
  }

  /** Of fresh observations, exactly those stay independent that no earlier independent one blocks. */
  lemma IndependentExactlyWhen(obs: seq<Observation>, config: Config, i: nat)
    requires i < |obs| && config.refractoryMS >= 0 && AllFresh(obs)
    ensures var swept := AllAssigned(obs, config);
            swept[i].independent <==> forall j :: 0 <= j < i ==> !Blocks(swept[j], swept[i], config.refractoryMS)
  {
    var swept := AllAssigned(obs, config);
    KeptIffSeparated(obs, config.refractoryMS, i);
    forall j | 0 <= j < i
      ensures Blocks(swept[j], swept[i], config.refractoryMS) <==>
                SameObserver(obs, i, j) && Keeps(obs, config.refractoryMS, j)
                && Start(obs, i) - Start(obs, j) < config.refractoryMS
    {
    }
  }

  /** A blocked observation is good for nothing; any other keeps its flags, and nothing else ever changes. */
  lemma FlagsFollowIndependence(obs: seq<Observation>, config: Config, i: nat)
    requires i < |obs| && obs[i].independent
    ensures var o, o' := obs[i], AllAssigned(obs, config)[i];
            && o' == o.(independent := o'.independent, episode := o'.episode, encounter := o'.encounter,
                        strongHidden := o'.strongHidden, control := o'.control, positiveControl := o'.positiveControl)
            && (o'.independent ==> o'.strongHidden == o.strongHidden && o'.control == o.control
                                   && o'.positiveControl == o.positiveControl)
            && (!o'.independent ==> !o'.strongHidden && !o'.control && !o'.positiveControl)
  {
    var keep := Keeps(obs, config.refractoryMS, i);
    assert AllAssigned(obs, config)[i] == Assigned(obs, config, i);
  }

  // ----- episodes and encounters -----

  predicate SamePair(a: Observation, b: Observation) {
    a.context.observer + "|" + a.context.target == b.context.observer + "|" + b.context.target
  }

  /** A pair's first observation opens its first episode and encounter. */
  lemma FirstOfPair(obs: seq<Observation>, config: Config, i: nat)
    requires i < |obs| && forall j :: 0 <= j < i ==> !SamePair(obs[j], obs[i])
    ensures var o := AllAssigned(obs, config)[i]; o.episode == 1 && o.encounter == 1
  {
    NoGroupYet(obs, config, i, i);
  }

  lemma {:induction false} NoGroupYet(obs: seq<Observation>, config: Config, i: nat, n: nat)
    requires n <= i < |obs| && forall j :: 0 <= j < i ==> !SamePair(obs[j], obs[i])
    ensures PairKey(obs[i]) !in Groups(obs, config, n)
  {
    if n > 0 {
      NoGroupYet(obs, config, i, n - 1);
      assert !SamePair(obs[n - 1], obs[i]);
    }
  }

  lemma {:induction false} GroupSince(obs: seq<Observation>, config: Config, p: nat, i: nat, n: nat)
    requires p < n <= i < |obs| && SamePair(obs[p], obs[i]) && forall j :: p < j < i ==> !SamePair(obs[j], obs[i])
    ensures PairKey(obs[i]) in Groups(obs, config, n)
    ensures Groups(obs, config, n)[PairKey(obs[i])] == GroupAt(obs, config, p)
  {
    if n > p + 1 {
      GroupSince(obs, config, p, i, n - 1);
      assert !SamePair(obs[n - 1], obs[i]);
    }
  }

  /**
   A later observation stays in the episode of the pair's previous one unless the gap between their starts exceeds the
   episode gap or the previous one started at zero; so with encounters and their gap.
   */
  lemma NextOfPair(obs: seq<Observation>, config: Config, p: nat, i: nat)
    requires p < i < |obs| && SamePair(obs[p], obs[i]) && forall j :: p < j < i ==> !SamePair(obs[j], obs[i])
    ensures var before, o := AllAssigned(obs, config)[p], AllAssigned(obs, config)[i];
            var gap := o.context.startedMS - before.context.startedMS;
            && (o.episode == before.episode || o.episode == before.episode + 1)
            && (o.encounter == before.encounter || o.encounter == before.encounter + 1)
            && (o.episode == before.episode <==> before.context.startedMS != 0 && gap <= config.episodeGapMS)
            && (o.encounter == before.encounter <==> before.context.startedMS != 0 && gap <= config.encounterGapMS)
  {
    GroupSince(obs, config, p, i, i);
    LastStart(obs, config, p);
  }

  lemma LastStart(obs: seq<Observation>, config: Config, p: nat)
    requires p < |obs|
    ensures GroupAt(obs, config, p).lastMS == obs[p].context.startedMS
  {
  }
}
