/** Guarded commands keep the stream clean up to one exception, and it is exact: in
    every run the stream is clean if and only if every catch-up it records follows
    a build or an earlier catch-up, which holds whenever each catch-up is sent on a
    view that shows one. */
module CleanStreams {
  import opened Base
  import opened LifecycleState
  import opened LifecycleEvents
  import opened CleanHistories
  import opened Protocol
  import opened PromotionSafety
  import opened RetirementSafety

  // ---------------------------------------------------------------------------
  // The invariant
  // ---------------------------------------------------------------------------

  predicate HandleSound(name: string, history: History, h: Handle) {
    && h.view <= |history|
    && HoldsReservation(name, history, h)
    && (h.Active() || h.stage.Exited? ==> h.runner != NIL_UUID)
  }

  predicate ExtendsClean(history: History, base: nat, events: History) {
    base <= |history| && Clean(history[..base] + events)
  }

  /** A catch-up, the one event sent without looking at the phase. */
  predicate IsCatchUp(events: History) {
    |events| == 1 && events[0].CaughtUp?
  }

  predicate Fits(history: History, i: nat)
    requires i < |history|
  {
    history[i].CaughtUp? ==> At(history, i).attempt.phase in {PhaseBuilding, PhaseCaughtUp}
  }

  /** Every catch-up in the stream was recorded while building or caught up. */
  predicate CatchUpsFit(history: History) {
    forall i :: 0 <= i < |history| ==> Fits(history, i)
  }

  ghost predicate GuardedInv(w: World) {
    && (CatchUpsFit(w.history) ==> Clean(w.history))
    && (forall hid :: hid in w.handles ==> HandleSound(w.name, w.history, w.handles[hid]))
    && forall m :: m in w.inFlight ==> IsCatchUp(m.events) || ExtendsClean(w.history, m.expected, m.events)
  }

  /** The phase a catch-up is recorded in, as the handle's own state shows it. */
  predicate Drainable(history: History, h: Handle) {
    h.view <= |history| && At(history, h.view).attempt.phase in {PhaseBuilding, PhaseCaughtUp}
  }

  /** A step that sends a catch-up does so on a view that is building or caught up. */
  predicate Disciplined(w: World, a: Action) {
    a.Do? && a.command.RecordCatchUp? && a.hid in w.handles ==>
      (SendsCatchUp(w.handles[a.hid], a.command) ==> Drainable(w.history, w.handles[a.hid]))
  }

  predicate SendsCatchUp(h: Handle, c: Command)
    requires c.RecordCatchUp?
  {
    PlanRecordCatchUp(h, c.position, c.duration, c.at).events != []
  }

  predicate DisciplinedRun(w: World, actions: seq<Action>)
    requires Runs(w, actions)
    decreases |actions|
  {
    actions != [] ==> Disciplined(w, actions[0]) && DisciplinedRun(Step(w, actions[0]), actions[1..])
  }

  // ---------------------------------------------------------------------------
  // Each guarded append is consistent with the state it was decided on
  // ---------------------------------------------------------------------------

  lemma OneEvent(history: History, v: nat, e: Event)
    requires v <= |history| && CleanStep(At(history, v), e)
    ensures ExtendsClean(history, v, [e])
  {
    FoldExtend(NEW_STATE, history[..v], e);
  }

  lemma TwoEvents(history: History, v: nat, e: Event, f: Event)
    requires v <= |history| && CleanStep(Apply(At(history, v), e), f)
    ensures ExtendsClean(history, v, [e, f])
  {
    hide Apply;
    FoldExtend(NEW_STATE, history[..v], e);
    FoldExtend(NEW_STATE, history[..v] + [e], f);
    assert history[..v] + [e] + [f] == history[..v] + [e, f];
  }

  predicate PlanClean(history: History, plan: Plan) {
    plan.events != [] ==> ExtendsClean(history, plan.base, plan.events)
  }

  lemma BeginClean(name: string, history: History, v: nat, attempt: UUID, why: string, at: Time)
    requires v <= |history| && attempt != NIL_UUID
    ensures PlanClean(history, PlanBegin(name, history, v, attempt, why, at))
  {
    hide FoldFrom, RestReachable, ValidName, ExtendsClean;
    var plan := PlanBegin(name, history, v, attempt, why, at);
    if plan.events != [] {
      OneEvent(history, v, plan.events[0]);
    }
  }

  lemma SetPolicyClean(name: string, history: History, c: Command)
    requires c.SetPolicy? && c.v <= |history|
    ensures PlanClean(history, PlanSetPolicy(name, history, c))
  {
    hide FoldFrom, RestReachable, ValidName, ExtendsClean, CanonicalWitnesses;
    var plan := PlanSetPolicy(name, history, c);
    if plan.events != [] {
      OneEvent(history, c.v, plan.events[0]);
    }
  }

  /** A claim the gate admits, and the build start that may ride along, are clean. */
  lemma ClaimStep(s: State, c: Command, takeover: Attestation, position: Int64)
    requires c.Claim? && c.runner != NIL_UUID && Valid(s)
    requires !s.attempt.phase.PhaseNone? && s.attempt.phase.Known()
    requires takeover == UNATTESTED <==> !s.attempt.Standing()
    requires takeover == UNATTESTED || takeover.Signed()
    ensures var claim := RunnerClaimed(s.attempt.id, c.runner, position, takeover, c.at);
            CleanStep(s, claim) && (s.attempt.phase.PhaseCreated? ==> CleanStep(Apply(s, claim), BuildStarted))
  {
    hide RestAccepts, ValidName, CanonicalWitnesses, RetirementPolicy.Valid;
  }

  lemma ClaimClean(name: string, history: History, h: Handle, c: Command)
    requires c.Claim? && c.v <= |history| && c.runner != NIL_UUID
    requires c.takeover == UNATTESTED || c.takeover.Signed()
    ensures PlanClean(history, PlanClaim(name, history, h, c))
  {
    hide FoldFrom, Apply, Valid, ExtendsClean, ClaimDefeat, Attempt.Standing, Phase.Known, Attestation.Signed, At, CleanStep;
    var s := At(history, c.v);
    var plan := PlanClaim(name, history, h, c);
    if plan.events != [] {
      var takeover := if s.attempt.Standing() then c.takeover else UNATTESTED;
      ClaimStep(s, c, takeover, plan.events[0].fromPosition);
      if |plan.events| == 1 {
        OneEvent(history, c.v, plan.events[0]);
      } else {
        TwoEvents(history, c.v, plan.events[0], BuildStarted);
      }
    }
  }

  lemma PromoteClean(name: string, history: History, h: Handle, at: Time)
    requires h.view <= |history|
    ensures PlanClean(history, PlanPromote(name, history, h, at))
  {
    hide FoldFrom, RestReachable, ValidName, ExtendsClean;
    var plan := PlanPromote(name, history, h, at);
    if plan.events != [] {
      OneEvent(history, h.view, plan.events[0]);
    }
  }

  lemma RollbackStep(s: State, at: Time)
    requires Valid(s) && s.attempt.phase.PhasePromoted? && s.attempt.previous.version != 0 && s.revision != MAX_INT64
    ensures CleanStep(s, RolledBack(s.live, s.attempt.previous, s.revision + 1, at))
  {
  }

  lemma RollbackClean(name: string, history: History, h: Handle, v: nat, at: Time)
    requires v <= |history|
    ensures PlanClean(history, PlanRollback(name, history, h, v, at))
  {
    hide FoldFrom, Valid, ExtendsClean, Apply, Ended;
    var s := At(history, v);
    if CheckOk(name, history, v) && s.attempt.phase.PhasePromoted? && s.attempt.previous.version != 0 && s.revision != MAX_INT64 {
      RollbackStep(s, at);
      OneEvent(history, v, RolledBack(s.live, s.attempt.previous, s.revision + 1, at));
    }
  }

  lemma AbandonStep(s: State, cause: string)
    requires Valid(s) && s.attempt.phase.BeforePromotion()
    ensures CleanStep(s, Abandoned(cause))
  {
  }

  lemma AbandonClean(name: string, history: History, h: Handle, v: nat, cause: string)
    requires v <= |history|
    ensures PlanClean(history, PlanAbandon(name, history, h, v, cause))
  {
    hide FoldFrom, Valid, ExtendsClean, Apply, Ended;
    if CheckOk(name, history, v) && At(history, v).attempt.phase.BeforePromotion() {
      AbandonStep(At(history, v), cause);
      OneEvent(history, v, Abandoned(cause));
    }
  }

  lemma ReleaseClean(name: string, history: History, h: Handle, at: Time)
    requires HandleSound(name, history, h)
    ensures PlanClean(history, PlanRelease(name, history, h, at))
  {
    hide FoldFrom, RestReachable, ValidName, ExtendsClean, HoldsReservation;
    var plan := PlanRelease(name, history, h, at);
    if plan.events != [] {
      OneEvent(history, h.view, plan.events[0]);
    }
  }

  /** A reservation the policy, or an override, admits is clean. */
  lemma ReserveStep(s: State, c: Command, required: seq<string>, receipts: seq<Receipt>)
    requires c.Retire? && Valid(s) && s.attempt.phase.PhasePromoted? && s.attempt.previous != NO_ID
    requires c.authorization == UNATTESTED || c.authorization.Signed()
    requires c.authorization == UNATTESTED ==> !s.policy.Zero()
    requires required == if c.authorization != UNATTESTED || s.policy.unwitnessed then [] else s.policy.witnesses
    requires ReceiptsAttest(receipts, required, LiveCutover(s))
    ensures CleanStep(s, RetireStarted(s.attempt.previous, s.policy.generation, required, receipts, c.authorization, c.at))
  {
    hide RestAccepts, ValidName, CanonicalWitnesses, RetirementPolicy.Valid;
  }

  lemma ReserveClean(name: string, history: History, h: Handle, c: Command)
    requires c.Retire? && h.view <= |history| && CheckOk(name, history, h.view)
    requires At(history, h.view).attempt.phase.PhasePromoted? && At(history, h.view).attempt.previous != NO_ID
    requires c.authorization == UNATTESTED || c.authorization.Signed()
    ensures PlanClean(history, PlanReserve(h, At(history, h.view), c))
  {
    var s := At(history, h.view);
    assert Valid(s) by { hide At; }
    hide FoldFrom, Valid, Apply, CleanStep, ExtendsClean, Attest, ReceiptsAttest, At, RetirementPolicy.Zero, CheckOk;
    var plan := PlanReserve(h, s, c);
    var required := if c.authorization != UNATTESTED || s.policy.unwitnessed then [] else s.policy.witnesses;
    AttestIsUnanimous(c.answers, required, LiveCutover(s));
    if plan.events != [] {
      ReserveStep(s, c, required, plan.events[0].receipts);
      OneEvent(history, h.view, plan.events[0]);
    }
  }

  lemma NothingToRetireStep(s: State)
    requires Valid(s) && s.attempt.phase.Live() && s.attempt.previous.version == 0
    ensures CleanStep(s, PreviousRetired(s.attempt.previous, []))
  {
    hide RestAccepts, ValidName, CanonicalWitnesses, RetirementPolicy.Valid;
  }

  lemma RetireClean(name: string, history: History, h: Handle, c: Command)
    requires c.Retire? && c.v <= |history|
    requires c.authorization == UNATTESTED || c.authorization.Signed()
    ensures PlanClean(history, PlanRetire(name, history, h, c))
  {
    hide FoldFrom, Valid, Apply, CleanStep, ExtendsClean, Attest, PlanReserve, ReceiptsAttest, At;
    var s := At(history, c.v);
    if CheckOk(name, history, c.v) && s.attempt.phase.Live() {
      if s.attempt.previous.version == 0 {
        NothingToRetireStep(s);
        OneEvent(history, c.v, PreviousRetired(s.attempt.previous, []));
      } else if s.attempt.phase.PhasePromoted? {
        ReserveClean(name, history, h.(view := c.v), c);
      }
    }
  }

  lemma CompleteClean(name: string, history: History, h: Handle)
    requires HandleSound(name, history, h) && h.retire.TornDown?
    ensures PlanClean(history, Sends(h.(retire := NoRetire), [PreviousRetired(h.retire.previous, h.retire.receipts)]))
  {
    hide FoldFrom, RestReachable, ValidName, ExtendsClean;
    OneEvent(history, h.view, PreviousRetired(h.retire.previous, h.retire.receipts));
  }

  lemma CatchUpClean(history: History, h: Handle, position: Int64, duration: Int64, at: Time)
    requires Clean(history)
    requires PlanRecordCatchUp(h, position, duration, at).events != [] ==> Drainable(history, h)
    ensures PlanClean(history, PlanRecordCatchUp(h, position, duration, at))
  {
    hide FoldFrom, ExtendsClean;
    if PlanRecordCatchUp(h, position, duration, at).events != [] {
      CleanPrefix(history, h.view);
      OneEvent(history, h.view, CaughtUp(position, duration, at));
    }
  }

  /** Every append but a catch-up extends the prefix it was decided on cleanly; a
      catch-up does so on a clean stream when its view is drainable. */
  lemma GuardedPlanIsClean(w: World, hid: nat, h: Handle, c: Command)
    requires HandleFor(w, hid, c) == Some(h) && Allowed(w.history, h, c) && GuardedInv(w)
    requires c.RecordCatchUp? && SendsCatchUp(h, c) ==> Clean(w.history) && Drainable(w.history, h)
    ensures PlanClean(w.history, PlanOf(w.name, w.history, h, c))
  {
    hide HoldsReservation, PlanClean, Clean, HandleSound, GuardedInv, ExtendsClean, Drainable,
      PlanRollback, PlanAbandon, PlanRelease, PlanRetire, PlanReattest, PlanTeardown, PlanRecover,
      PlanReconcile, PlanJudgePromotion, PlanJudgeCatchUp, PlanBegin, PlanSetPolicy, PlanClaim, PlanRecordCatchUp,
      PlanPromote;
    var name, history := w.name, w.history;
    if !c.Opens() {
      SoundHandle(w, hid);
    }
    match c
    case Begin(v, attempt, why, at) => BeginClean(name, history, v, attempt, why, at);
    case SetPolicy(_, _, _, _, _, _) => SetPolicyClean(name, history, c);
    case Claim(_, _, _, _, _) => ClaimClean(name, history, h, c);
    case RecordCatchUp(position, duration, at) =>
      if SendsCatchUp(h, c) {
        CatchUpClean(history, h, position, duration, at);
      } else {
        NothingSentIsClean(history, PlanRecordCatchUp(h, position, duration, at));
      }
    case Promote(at) => PromoteClean(name, history, h, at);
    case Rollback(v, at) => RollbackClean(name, history, h, v, at);
    case Abandon(v, cause) => AbandonClean(name, history, h, v, cause);
    case Retire(_, _, _, _, _) => RetireClean(name, history, h, c);
    case CompleteRetire => CompleteClean(name, history, h);
    case Release(at) => ReleaseClean(name, history, h, at);
    case _ => SilentIsClean(name, history, h, c);
  }

  lemma NothingSentIsClean(history: History, plan: Plan)
    requires plan.events == []
    ensures PlanClean(history, plan)
  {
  }

  lemma SoundHandle(w: World, hid: nat)
    requires GuardedInv(w) && hid in w.handles
    ensures HandleSound(w.name, w.history, w.handles[hid])
  {
  }

  lemma SilentIsClean(name: string, history: History, h: Handle, c: Command)
    requires Allowed(history, h, c)
    requires c.Resume? || c.Recover? || c.StartProcessor? || c.FailStart? || c.Reattest? || c.Teardown?
             || c.AbortRetire? || c.Reconcile? || c.JudgePromotion? || c.JudgeCatchUp? || c.PublishExit?
    ensures PlanClean(history, PlanOf(name, history, h, c))
  {
    hide At, CheckOk, Superseded, TerminalStop, SlotDefeat, SlotPromoted, Attest, ExtendsClean,
      PlanRollback, PlanAbandon, PlanRelease, PlanRetire, PlanBegin, PlanSetPolicy, PlanClaim, PlanRecordCatchUp,
      PlanPromote;
  }

  // ---------------------------------------------------------------------------
  // Runners of the handles that will release
  // ---------------------------------------------------------------------------

  predicate HasRunner(h: Handle) {
    h.Active() || h.stage.Exited? ==> h.runner != NIL_UUID
  }

  predicate PlanRunners(plan: Plan) {
    && HasRunner(plan.acked)
    && (plan.events != [] ==> HasRunner(plan.unobserved) && HasRunner(plan.unknown) && HasRunner(plan.refused))
  }

  lemma MildRunners(h: Handle, plan: Plan, n: nat, locks: bool)
    requires MildPlan(plan, h, n, locks) && HasRunner(h)
    ensures PlanRunners(plan)
  {
  }

  lemma CatchUpRunners(h: Handle, position: Int64, duration: Int64, at: Time)
    requires HasRunner(h)
    ensures PlanRunners(PlanRecordCatchUp(h, position, duration, at))
  {
  }

  lemma PromoteRunners(name: string, history: History, h: Handle, at: Time)
    requires h.view <= |history| && HasRunner(h)
    ensures PlanRunners(PlanPromote(name, history, h, at))
  {
    hide At, CheckOk;
  }

  lemma PlanKeepsRunners(name: string, history: History, h: Handle, c: Command)
    requires Allowed(history, h, c) && (c.Opens() ==> h == Fresh(c.Reads())) && HasRunner(h)
    ensures PlanRunners(PlanOf(name, history, h, c))
  {
    hide MildPlan, At, CheckOk, PlanRunners, HasRunner,
      PlanRollback, PlanAbandon, PlanRelease, PlanRetire, PlanReattest, PlanTeardown, PlanRecover,
      PlanReconcile, PlanJudgePromotion, PlanJudgeCatchUp, PlanBegin, PlanSetPolicy, PlanClaim, PlanRecordCatchUp,
      PlanPromote;
    match c
    case Claim(_, _, _, _, _) => ClaimDefeatKeeps(name, history, h, c);
    case RecordCatchUp(position, duration, at) => CatchUpRunners(h, position, duration, at);
    case Promote(at) => PromoteRunners(name, history, h, at);
    case _ =>
      OtherPlansMild(name, history, h, c);
      MildRunners(h, PlanOf(name, history, h, c), |history|, Locks(c));
  }

  lemma ClaimDefeatKeeps(name: string, history: History, h: Handle, c: Command)
    requires c.Claim? && c.v <= |history| && c.runner != NIL_UUID && HasRunner(h)
    ensures PlanRunners(PlanClaim(name, history, h, c))
  {
    hide At, CheckOk, Attempt.Standing;
  }

  // ---------------------------------------------------------------------------
  // Runs
  // ---------------------------------------------------------------------------

  lemma ExtendsCleanStays(history: History, more: History, base: nat, events: History)
    requires ExtendsClean(history, base, events)
    ensures ExtendsClean(history + more, base, events)
  {
    assert (history + more)[..base] == history[..base];
  }

  lemma HandleViews(w: World, a: Action)
    requires Inv(w) && Enabled(w, a)
    ensures forall k :: k in Step(w, a).handles ==> Step(w, a).handles[k].view <= |Step(w, a).history|
  {
    hide Step, Enabled, EntryOk, MessageOk;
    StepKeepsInv(w, a);
    var v := Step(w, a);
    forall k | k in v.handles ensures v.handles[k].view <= |v.history| {
      assert HandleOk(v.history, v.marks, k, v.handles[k]);
    }
  }

  /** The catch-ups of a stream fit wherever those of an extension do. */
  lemma FitsBelow(history: History, more: History)
    requires CatchUpsFit(history + more)
    ensures CatchUpsFit(history)
  {
    hide FoldFrom;
    forall i | 0 <= i < |history| ensures Fits(history, i) {
      assert Fits(history + more, i);
      assert (history + more)[..i] == history[..i];
    }
  }

  /** Recording one event: a catch-up that fits is clean, as is what extends cleanly. */
  lemma FittingExtends(history: History, events: History)
    requires CatchUpsFit(history) ==> Clean(history)
    requires IsCatchUp(events) || ExtendsClean(history, |history|, events)
    ensures CatchUpsFit(history + events) ==> Clean(history + events)
  {
    hide FoldFrom;
    assert history[..|history|] == history;
    if CatchUpsFit(history + events) && IsCatchUp(events) {
      FitsBelow(history, events);
      assert Fits(history + events, |history|);
      assert (history + events)[..|history|] == history;
      FoldExtend(NEW_STATE, history, events[0]);
      assert history + [events[0]] == history + events;
    }
  }

  lemma DoKeepsGuarded(w: World, a: Action)
    requires Inv(w) && GuardedInv(w) && Enabled(w, a) && a.Do?
    ensures CatchUpsFit(Step(w, a).history) ==> Clean(Step(w, a).history)
    ensures HasRunner(Step(w, a).handles[a.hid])
    ensures forall m :: m in Step(w, a).inFlight ==>
              m in w.inFlight || IsCatchUp(m.events) || ExtendsClean(Step(w, a).history, m.expected, m.events)
  {
    hide HoldsReservation, PlanOf, Allowed, Clean, Inv, CatchUpsFit, ExtendsClean;
    var h := HandleFor(w, a.hid, a.command).value;
    var plan := PlanOf(w.name, w.history, h, a.command);
    PlanKeepsRunners(w.name, w.history, h, a.command);
    if a.command.RecordCatchUp? {
      CatchUpIsOwn(w.name, w.history, h, a.command);
    } else {
      GuardedPlanIsClean(w, a.hid, h, a.command);
    }
    if a.outcome.Commits() && plan.events != [] {
      FittingExtends(w.history, plan.events);
    } else {
      assert w.history + [] == w.history;
    }
  }

  lemma LandKeepsGuarded(w: World, a: Action)
    requires GuardedInv(w) && Enabled(w, a) && a.Land?
    ensures CatchUpsFit(Step(w, a).history) ==> Clean(Step(w, a).history)
  {
    hide HoldsReservation, Clean, CatchUpsFit, ExtendsClean;
    FittingExtends(w.history, w.inFlight[a.index].events);
  }

  lemma StepKeepsGuarded(w: World, a: Action)
    requires Inv(w) && GuardedInv(w) && TeardownInv(w) && Enabled(w, a)
    ensures GuardedInv(Step(w, a))
  {
    hide HoldsReservation, PlanOf, Allowed, Clean, Inv, ExtendsClean, CatchUpsFit, IsCatchUp;
    var v := Step(w, a);
    HandleViews(w, a);
    StepKeepsTeardownInv(w, a);
    if a.Do? {
      DoKeepsGuarded(w, a);
    } else {
      LandKeepsGuarded(w, a);
    }
    var more := v.history[|w.history|..];
    assert v.history == w.history + more;
    forall m | m in v.inFlight ensures IsCatchUp(m.events) || ExtendsClean(v.history, m.expected, m.events) {
      if m in w.inFlight && !IsCatchUp(m.events) {
        ExtendsCleanStays(w.history, more, m.expected, m.events);
      }
    }
    forall k | k in v.handles ensures HandleSound(v.name, v.history, v.handles[k]) {
      if !(a.Do? && k == a.hid) {
        assert HandleSound(w.name, w.history, w.handles[k]);
      }
    }
  }

  lemma {:induction false} RunsStayGuarded(w: World, actions: seq<Action>)
    requires Inv(w) && GuardedInv(w) && TeardownInv(w) && Runs(w, actions)
    ensures GuardedInv(Final(w, actions))
    decreases |actions|
  {
    hide Inv, TeardownInv, GuardedInv, Step, Enabled;
    if actions == [] {
    } else {
      StepKeepsInv(w, actions[0]);
      StepKeepsTeardownInv(w, actions[0]);
      StepKeepsGuarded(w, actions[0]);
      RunsStayGuarded(Step(w, actions[0]), actions[1..]);
    }
  }

  lemma CleanCatchUpsFit(history: History)
    requires Clean(history)
    ensures CatchUpsFit(history)
  {
    hide FoldFrom;
    forall i | 0 <= i < |history| ensures Fits(history, i) {
      AtStep(history, i);
    }
  }

  /** In every run, with any number of handles and appends that may be lost, delayed
      or refused, the stream is clean if and only if every catch-up it records was
      recorded while building or caught up. */
  lemma RunsAreCleanExactly(name: string, actions: seq<Action>)
    requires Runs(Init(name), actions)
    ensures Clean(Final(Init(name), actions).history) <==> CatchUpsFit(Final(Init(name), actions).history)
  {
    InitOk(name);
    RunsStayGuarded(Init(name), actions);
    if Clean(Final(Init(name), actions).history) {
      CleanCatchUpsFit(Final(Init(name), actions).history);
    }
  }

  // ---------------------------------------------------------------------------
  // Disciplined runs
  // ---------------------------------------------------------------------------

  /** Every catch-up recorded or still in flight fits where it is or would be. */
  ghost predicate FitInv(w: World) {
    && CatchUpsFit(w.history)
    && forall m :: m in w.inFlight ==> FitsAt(w.history, m.expected, m.events)
  }

  /** Every event of an append but a lone catch-up is no catch-up. */
  predicate FitsAt(history: History, base: nat, events: History) {
    && base <= |history|
    && (forall e :: e in events && e.CaughtUp? ==> IsCatchUp(events))
    && (IsCatchUp(events) ==> At(history, base).attempt.phase in {PhaseBuilding, PhaseCaughtUp})
  }

  lemma FitsAtStays(history: History, more: History, base: nat, events: History)
    requires FitsAt(history, base, events)
    ensures FitsAt(history + more, base, events)
  {
    assert (history + more)[..base] == history[..base];
  }

  lemma FittingStays(history: History, events: History)
    requires CatchUpsFit(history) && FitsAt(history, |history|, events)
    ensures CatchUpsFit(history + events)
  {
    hide FoldFrom;
    assert history[..|history|] == history;
    forall i | 0 <= i < |history + events| ensures Fits(history + events, i) {
      if i < |history| {
        assert Fits(history, i);
        assert (history + events)[..i] == history[..i];
      } else if (history + events)[i].CaughtUp? {
        assert events[i - |history|] in events && (history + events)[..i] == history;
      }
    }
  }

  lemma DisciplinedPlanFits(w: World, a: Action)
    requires Inv(w) && Enabled(w, a) && a.Do? && Disciplined(w, a)
    ensures var plan := PlanOf(w.name, w.history, HandleFor(w, a.hid, a.command).value, a.command);
            plan.events != [] ==> FitsAt(w.history, plan.base, plan.events)
  {
    hide PlanOf, HandleOk, EntryOk, MessageOk, Allowed, At, EventOk, AckedOk, CertifiedAt;
    var h := HandleFor(w, a.hid, a.command).value;
    PlanOk(w, a.hid, h, a.command);
    if a.command.RecordCatchUp? {
      CatchUpIsOwn(w.name, w.history, h, a.command);
    } else {
      PromotionsAreSentByPromote(w, a.hid, h, a.command);
    }
  }

  lemma StepKeepsFit(w: World, a: Action)
    requires Inv(w) && FitInv(w) && Enabled(w, a) && Disciplined(w, a)
    ensures FitInv(Step(w, a))
  {
    hide PlanOf, Allowed, Inv, CatchUpsFit, FitsAt, Disciplined;
    var v := Step(w, a);
    if a.Do? {
      var plan := PlanOf(w.name, w.history, HandleFor(w, a.hid, a.command).value, a.command);
      DisciplinedPlanFits(w, a);
      if a.outcome.Commits() && plan.events != [] {
        FittingStays(w.history, plan.events);
      } else {
        assert w.history + [] == w.history;
      }
    } else {
      FittingStays(w.history, w.inFlight[a.index].events);
    }
    var more := v.history[|w.history|..];
    assert v.history == w.history + more;
    forall m | m in v.inFlight ensures FitsAt(v.history, m.expected, m.events) {
      FitsAtStays(w.history, more, m.expected, m.events);
    }
  }

  lemma {:induction false} DisciplinedRunsFit(w: World, actions: seq<Action>)
    requires Inv(w) && FitInv(w) && Runs(w, actions) && DisciplinedRun(w, actions)
    ensures CatchUpsFit(Final(w, actions).history)
    decreases |actions|
  {
    hide Inv, CatchUpsFit, FitsAt, Step, Enabled, Disciplined;
    if actions == [] {
    } else {
      StepKeepsInv(w, actions[0]);
      StepKeepsFit(w, actions[0]);
      DisciplinedRunsFit(Step(w, actions[0]), actions[1..]);
    }
  }

  /** In every run in which each catch-up that is sent is sent on a view that is
      building or caught up, the stream is clean throughout. */
  lemma GuardedCommandsKeepTheStreamClean(name: string, actions: seq<Action>)
    requires Runs(Init(name), actions) && DisciplinedRun(Init(name), actions)
    ensures Clean(Final(Init(name), actions).history)
  {
    InitOk(name);
    DisciplinedRunsFit(Init(name), actions);
    RunsAreCleanExactly(name, actions);
  }

  /** The condition is exact. On a clean stream, an admitted catch-up leaves the
      stream clean if and only if the view it is recorded on is building or
      caught up; nothing else the step checks makes up for it. */
  lemma CatchUpIsCleanExactly(w: World, hid: nat, c: Command, outcome: Outcome)
    requires Clean(w.history) && c.RecordCatchUp? && outcome.Commits()
    requires Enabled(w, Do(hid, c, outcome)) && PlanOf(w.name, w.history, w.handles[hid], c).events != []
    ensures Clean(Step(w, Do(hid, c, outcome)).history) <==> Drainable(w.history, w.handles[hid])
  {
    hide FoldFrom;
    var h := w.handles[hid];
    var e := CaughtUp(c.position, c.duration, c.at);
    assert w.history[..|w.history|] == w.history;
    FoldExtend(NEW_STATE, w.history, e);
  }
}
