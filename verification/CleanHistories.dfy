/** What every clean history keeps: the structural validation, the allocation
    sequence, and the death of abandoned, rolled-back and retired versions. */
module CleanHistories {
  import opened LifecycleState
  import opened LifecycleEvents

  // ---------------------------------------------------------------------------
  // Every clean prefix is valid
  // ---------------------------------------------------------------------------

  predicate CleanStep(s: State, e: Event) {
    Apply(s, e).fault.NoFault?
  }

  /** The validation is inductive: a clean event takes a valid state to a valid,
      named state. */
  lemma StepKeepsValid(s: State, e: Event)
    requires Valid(s) && CleanStep(s, e)
    ensures Valid(Apply(s, e)) && Apply(s, e).name != ""
  {
    hide Valid, Apply;
    if e.RebuildInitiated? { RebuildInitiatedKeepsValid(s, e); }
    if e.RunnerClaimed? { RunnerClaimedKeepsValid(s, e); }
    if e.RunnerReleased? { RunnerReleasedKeepsValid(s, e); }
    if e.BuildStarted? { BuildStartedKeepsValid(s, e); }
    if e.CaughtUp? { CaughtUpKeepsValid(s, e); }
    if e.Promoted? { PromotedKeepsValid(s, e); }
    if e.RolledBack? { RolledBackKeepsValid(s, e); }
    if e.Abandoned? { AbandonedKeepsValid(s, e); }
    if e.RetireStarted? { RetireStartedKeepsValid(s, e); }
    if e.PreviousRetired? { PreviousRetiredKeepsValid(s, e); }
    if e.RetirementPolicySet? { RetirementPolicySetKeepsValid(s, e); }
  }

  lemma RebuildInitiatedKeepsValid(s: State, e: Event)
    requires e.RebuildInitiated? && Valid(s) && CleanStep(s, e)
    ensures Valid(Apply(s, e)) && Apply(s, e).name != ""
  {
  }

  lemma RunnerClaimedKeepsValid(s: State, e: Event)
    requires e.RunnerClaimed? && Valid(s) && CleanStep(s, e)
    ensures Valid(Apply(s, e)) && Apply(s, e).name != ""
  {
    hide RestAccepts, ValidName, CanonicalWitnesses;
  }

  lemma RunnerReleasedKeepsValid(s: State, e: Event)
    requires e.RunnerReleased? && Valid(s) && CleanStep(s, e)
    ensures Valid(Apply(s, e)) && Apply(s, e).name != ""
  {
    hide RestAccepts, ValidName, CanonicalWitnesses;
  }

  lemma BuildStartedKeepsValid(s: State, e: Event)
    requires e.BuildStarted? && Valid(s) && CleanStep(s, e)
    ensures Valid(Apply(s, e)) && Apply(s, e).name != ""
  {
    hide RestAccepts, ValidName, CanonicalWitnesses;
  }

  lemma CaughtUpKeepsValid(s: State, e: Event)
    requires e.CaughtUp? && Valid(s) && CleanStep(s, e)
    ensures Valid(Apply(s, e)) && Apply(s, e).name != ""
  {
    hide RestAccepts, ValidName, CanonicalWitnesses;
  }

  lemma PromotedKeepsValid(s: State, e: Event)
    requires e.Promoted? && Valid(s) && CleanStep(s, e)
    ensures Valid(Apply(s, e)) && Apply(s, e).name != ""
  {
    hide RestAccepts, ValidName, CanonicalWitnesses;
  }

  lemma RolledBackKeepsValid(s: State, e: Event)
    requires e.RolledBack? && Valid(s) && CleanStep(s, e)
    ensures Valid(Apply(s, e)) && Apply(s, e).name != ""
  {
    hide ValidName;
  }

  lemma AbandonedKeepsValid(s: State, e: Event)
    requires e.Abandoned? && Valid(s) && CleanStep(s, e)
    ensures Valid(Apply(s, e)) && Apply(s, e).name != ""
  {
    hide ValidName;
  }

  lemma RetireStartedKeepsValid(s: State, e: Event)
    requires e.RetireStarted? && Valid(s) && CleanStep(s, e)
    ensures Valid(Apply(s, e)) && Apply(s, e).name != ""
  {
    hide RestAccepts, ValidName;
  }

  lemma PreviousRetiredKeepsValid(s: State, e: Event)
    requires e.PreviousRetired? && Valid(s) && CleanStep(s, e)
    ensures Valid(Apply(s, e)) && Apply(s, e).name != ""
  {
    hide ValidName;
  }

  lemma RetirementPolicySetKeepsValid(s: State, e: Event)
    requires e.RetirementPolicySet? && Valid(s) && CleanStep(s, e)
    ensures Valid(Apply(s, e)) && Apply(s, e).name != ""
  {
    hide RestAccepts, ValidName;
  }

  lemma {:induction false} CleanHistoryIsValid(h: History)
    requires Clean(h)
    ensures Valid(Fold(h))
    ensures h != [] ==> Fold(h).name != ""
  {
    if h == [] {
    } else {
      CleanPrefix(h, |h| - 1);
      CleanHistoryIsValid(h[..|h| - 1]);
      StepKeepsValid(Fold(h[..|h| - 1]), h[|h| - 1]);
    }
  }

  /** validate accepts every prefix of every clean history, in every phase. */
  lemma EveryCleanPrefixIsValid(h: History, i: nat)
    requires Clean(h) && i <= |h|
    ensures Valid(Fold(h[..i]))
    ensures Fold(h[..i]).name == "" <==> i == 0
  {
    CleanPrefix(h, i);
    CleanHistoryIsValid(h[..i]);
  }

  /** A snapshot of any fold of at least one event, clean or poisoned, is
      accepted when it is read back; a snapshot of no event is refused. */
  lemma SnapshotsOfFoldsAreAccepted(h: History)
    ensures ValidSnapshot(Fold(h)) <==> h != []
  {
    if Clean(h) {
      CleanHistoryIsValid(h);
    }
  }

  // ---------------------------------------------------------------------------
  // States met along a history
  // ---------------------------------------------------------------------------

  /** The state just before event i, or at the end when i is the length. */
  function At(h: History, i: nat): State
    requires i <= |h|
  {
    Fold(h[..i])
  }

  lemma AtStep(h: History, i: nat)
    requires Clean(h) && i < |h|
    ensures At(h, i + 1) == Apply(At(h, i), h[i])
    ensures Valid(At(h, i)) && CleanStep(At(h, i), h[i]) && Valid(At(h, i + 1))
  {
    assert h[..i + 1] == h[..i] + [h[i]];
    FoldExtend(NEW_STATE, h[..i], h[i]);
    EveryCleanPrefixIsValid(h, i);
    EveryCleanPrefixIsValid(h, i + 1);
  }

  // ---------------------------------------------------------------------------
  // Version numbers
  // ---------------------------------------------------------------------------

  /** The versions a history allocates, in order. */
  function Targets(h: History): (r: seq<int>) {
    if h == [] then []
    else
      var rest := Targets(h[..|h| - 1]);
      if h[|h| - 1].RebuildInitiated? then rest + [h[|h| - 1].target.version as int] else rest
  }

  /** An attempt takes the next number, and nothing else allocates one. */
  lemma StepAllocates(s: State, e: Event)
    requires Valid(s) && CleanStep(s, e)
    ensures Apply(s, e).highWater == s.highWater + if e.RebuildInitiated? then 1 else 0
    ensures e.RebuildInitiated? ==> e.target.version == s.highWater + 1
  {
    hide RestAccepts, ValidName, CanonicalWitnesses, RetirementPolicy.Valid, ReceiptsAttest;
  }

  /** Attempts target exactly 1, 2, 3, ..., and the high-water mark counts them. */
  lemma {:induction false} TargetsAreTheNaturals(h: History)
    requires Clean(h)
    ensures |Targets(h)| == Fold(h).highWater
    ensures forall k :: 0 <= k < |Targets(h)| ==> Targets(h)[k] == k + 1
  {
    hide Apply, Valid;
    if h == [] {
      assert Fold(h) == NEW_STATE;
    } else {
      CleanPrefix(h, |h| - 1);
      TargetsAreTheNaturals(h[..|h| - 1]);
      CleanHistoryIsValid(h[..|h| - 1]);
      assert h == h[..|h| - 1] + [h[|h| - 1]];
      StepAllocates(Fold(h[..|h| - 1]), h[|h| - 1]);
    }
  }

  /** A version number that nothing will ever serve or build again: allocated,
      not live, and neither the target nor the rollback target of the attempt. */
  predicate Dead(s: State, v: int) {
    && 1 <= v <= s.highWater
    && s.live.version != v
    && s.attempt.target.version != v
    && s.attempt.previous.version != v
  }

  /** A version whose retirement is reserved: only the irrevocable completion
      can follow, so it will never be live again either. */
  predicate Condemned(s: State, v: int) {
    || Dead(s, v)
    || (&& s.attempt.phase.PhaseRetiring?
        && s.attempt.previous.version == v
        && 1 <= v < s.attempt.target.version
        && s.live == s.attempt.target)
  }

  lemma StepKeepsDead(s: State, e: Event, v: int)
    requires Valid(s) && CleanStep(s, e)
    requires Dead(s, v)
    ensures Dead(Apply(s, e), v)
  {
    hide RestAccepts, ValidName, CanonicalWitnesses, RetirementPolicy.Valid, ReceiptsAttest;
  }

  lemma StepKeepsCondemned(s: State, e: Event, v: int)
    requires Valid(s) && CleanStep(s, e)
    requires Condemned(s, v)
    ensures Condemned(Apply(s, e), v)
    ensures e.RebuildInitiated? ==> e.target.version != v
  {
    if Dead(s, v) {
      StepKeepsDead(s, e, v);
    }
  }

  lemma {:induction false} CondemnedStays(h: History, i: nat, j: nat, v: int)
    requires Clean(h) && i <= j <= |h|
    requires Condemned(At(h, i), v)
    ensures Condemned(At(h, j), v)
    decreases j
  {
    hide Apply, FoldFrom, Condemned;
    if i == j {
    } else {
      CondemnedStays(h, i, j - 1, v);
      AtStep(h, j - 1);
      StepKeepsCondemned(At(h, j - 1), h[j - 1], v);
    }
  }

  /** Condemned versions are never live and never targeted again. */
  lemma CondemnedNeverServes(h: History, i: nat, j: nat, v: int)
    requires Clean(h) && i <= j <= |h|
    requires Condemned(At(h, i), v)
    ensures At(h, j).live.version != v
    ensures j < |h| && h[j].RebuildInitiated? ==> h[j].target.version != v
  {
    hide Apply, FoldFrom;
    CondemnedStays(h, i, j, v);
    if j < |h| {
      AtStep(h, j);
      StepKeepsCondemned(At(h, j), h[j], v);
    }
  }

  /** The target of an abandoned or rolled-back attempt is dead from then on: it
      is never live and never targeted again. */
  lemma DiscardedTargetsStayDead(h: History, i: nat, j: nat)
    requires Clean(h) && i < j <= |h|
    requires h[i].Abandoned? || h[i].RolledBack?
    ensures var v := At(h, i).attempt.target.version;
            && v >= 1
            && At(h, j).live.version != v
            && (j < |h| && h[j].RebuildInitiated? ==> h[j].target.version != v)
  {
    hide FoldFrom, RestAccepts, ValidName, CanonicalWitnesses, RetirementPolicy.Valid;
    AtStep(h, i);
    CondemnedNeverServes(h, i + 1, j, At(h, i).attempt.target.version);
  }

  /** Two promotions record increasing versions, so each is promoted at most once. */
  lemma PromotionsIncrease(h: History, i: nat, j: nat)
    requires Clean(h) && i < j < |h|
    requires h[i].Promoted? && h[j].Promoted?
    ensures h[i].next.version < h[j].next.version
    ensures h[i].revision < h[j].revision
  {
    hide FoldFrom, RestAccepts, ValidName, CanonicalWitnesses, RetirementPolicy.Valid;
    AtStep(h, i);
    AtStep(h, j);
    AllocationGrows(h, i + 1, j);
    PromotedSlotStays(h, i + 1, j);
  }

  lemma StepGrows(s: State, e: Event)
    requires Valid(s) && CleanStep(s, e)
    ensures s.highWater <= Apply(s, e).highWater && s.revision <= Apply(s, e).revision
  {
    hide RestAccepts, ValidName, CanonicalWitnesses, RetirementPolicy.Valid, ReceiptsAttest;
  }

  /** Neither the high-water mark nor the cutover revision ever decreases. */
  lemma {:induction false} AllocationGrows(h: History, i: nat, j: nat)
    requires Clean(h) && i <= j <= |h|
    ensures At(h, i).highWater <= At(h, j).highWater
    ensures At(h, i).revision <= At(h, j).revision
    decreases j
  {
    hide FoldFrom, Apply, Valid;
    if i == j {
    } else {
      AllocationGrows(h, i, j - 1);
      AtStep(h, j - 1);
      StepGrows(At(h, j - 1), h[j - 1]);
    }
  }

  /** Whatever is being built is past this version. */
  predicate BuildsPast(s: State, v: int) {
    s.attempt.phase.BeforePromotion() ==> s.highWater > v
  }

  lemma StepBuildsPast(s: State, e: Event, v: int)
    requires Valid(s) && CleanStep(s, e) && v <= s.highWater && BuildsPast(s, v)
    ensures BuildsPast(Apply(s, e), v)
  {
    hide RestAccepts, ValidName, CanonicalWitnesses, RetirementPolicy.Valid, ReceiptsAttest;
  }

  /** From a live attempt on, a later attempt before promotion targets a later
      version. */
  lemma {:induction false} PromotedSlotStays(h: History, i: nat, j: nat)
    requires Clean(h) && i <= j <= |h|
    requires At(h, i).attempt.phase.Live()
    ensures BuildsPast(At(h, j), At(h, i).highWater)
    decreases j
  {
    hide FoldFrom, Apply, Valid;
    if i == j {
    } else {
      PromotedSlotStays(h, i, j - 1);
      AtStep(h, j - 1);
      AllocationGrows(h, i, j - 1);
      StepBuildsPast(At(h, j - 1), h[j - 1], At(h, i).highWater);
    }
  }

  // ---------------------------------------------------------------------------
  // Retirement
  // ---------------------------------------------------------------------------

  /** Retirement is irrevocable: once reserved, the version is not live and is
      never live or targeted in any later state. */
  lemma RetirementIsIrrevocable(h: History, i: nat, j: nat)
    requires Clean(h) && i < j <= |h|
    requires h[i].RetireStarted?
    ensures At(h, i + 1).live.version != h[i].retiring.version
    ensures At(h, j).live.version != h[i].retiring.version
    ensures j < |h| && h[j].RebuildInitiated? ==> h[j].target.version != h[i].retiring.version
  {
    hide FoldFrom;
    AtStep(h, i);
    CondemnedNeverServes(h, i + 1, j, h[i].retiring.version);
  }

  /** Either side of the contention between rollback and retirement. */
  predicate Settles(e: Event) {
    e.RolledBack? || e.RetireStarted?
  }

  predicate Settled(s: State, v: int) {
    || s.highWater > v
    || s.attempt.phase.PhaseNone?
    || s.attempt.phase.PhaseRetiring?
  }

  lemma StepKeepsSettled(s: State, e: Event, v: int)
    requires Valid(s) && CleanStep(s, e) && Settled(s, v) && v <= s.highWater
    ensures Settled(Apply(s, e), v)
  {
    hide RestAccepts, ValidName, CanonicalWitnesses, RetirementPolicy.Valid, ReceiptsAttest;
  }

  lemma {:induction false} SettledStays(h: History, i: nat, j: nat, v: int)
    requires Clean(h) && i <= j <= |h|
    requires Settled(At(h, i), v) && v <= At(h, i).highWater
    ensures Settled(At(h, j), v)
    decreases j
  {
    hide FoldFrom, Apply, Valid, Settled;
    if i == j {
    } else {
      SettledStays(h, i, j - 1, v);
      AtStep(h, j - 1);
      AllocationGrows(h, i, j - 1);
      StepKeepsSettled(At(h, j - 1), h[j - 1], v);
    }
  }

  lemma SettlingStep(s: State, e: Event)
    requires Valid(s) && CleanStep(s, e) && Settles(e)
    ensures s.attempt.phase.PhasePromoted? && s.attempt.target.version == s.highWater
    ensures Settled(Apply(s, e), s.highWater) && Apply(s, e).highWater == s.highWater
  {
  }

  /** Per attempt at most one of a rollback and a retirement reservation is
      recorded: any two such events belong to attempts on different versions. */
  lemma RollbackAndRetirementExclude(h: History, i: nat, j: nat)
    requires Clean(h) && i < j < |h|
    requires Settles(h[i]) && Settles(h[j])
    ensures At(h, i).attempt.target.version < At(h, j).attempt.target.version
  {
    hide FoldFrom, Apply, Valid;
    AtStep(h, i);
    AtStep(h, j);
    SettlingStep(At(h, i), h[i]);
    SettlingStep(At(h, j), h[j]);
    AllocationGrows(h, i, j);
    SettledStays(h, i + 1, j, At(h, i).highWater);
  }
}
