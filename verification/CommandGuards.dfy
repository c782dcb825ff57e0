/** Each command sends its event exactly when the fold would accept it: the guards
    of the handle (projection/lifecycle/handle.go,
    projection/lifecycle/orchestrator.go) refuse nothing the fold accepts on the
    view they read, and send nothing it would refuse. */
module CommandGuards {
  import opened Base
  import opened LifecycleState
  import opened LifecycleEvents
  import opened CleanHistories
  import opened Protocol
  import opened CleanStreams

  /** The view validates and the fold accepts the event on it. */
  predicate Accepts(name: string, history: History, v: nat, e: Event)
    requires v <= |history|
  {
    CheckOk(name, history, v) && CleanStep(At(history, v), e)
  }

  /** Sends this event alone, at the view it was decided on, exactly when this holds. */
  predicate SendsExactly(plan: Plan, v: nat, e: Event, when: bool) {
    plan.base == v && plan.events == if when then [e] else []
  }

  /** A view that validates is not poisoned. */
  lemma CheckedIsClean(name: string, history: History, v: nat)
    requires v <= |history|
    ensures CheckOk(name, history, v) ==> At(history, v).fault.NoFault? && Valid(At(history, v))
  {
    hide At;
  }

  lemma BeginIsExact(name: string, history: History, v: nat, attempt: UUID, why: string, at: Time)
    requires v <= |history| && attempt != NIL_UUID
    ensures var s := At(history, v);
            var e := RebuildInitiated(attempt, ID(name, Increment(s.highWater)), s.live, why, at);
            SendsExactly(PlanBegin(name, history, v, attempt, why, at), v, e, Accepts(name, history, v, e))
  {
    hide At, Valid, ValidName;
    CheckedIsClean(name, history, v);
  }

  lemma SetPolicyIsExact(name: string, history: History, c: Command)
    requires c.SetPolicy? && c.v <= |history|
    ensures var s := At(history, c.v);
            var e := RetirementPolicySet(Increment(s.policy.generation), c.witnesses, c.unwitnessed, c.why, c.actor, c.at);
            SendsExactly(PlanSetPolicy(name, history, c), c.v, e, Accepts(name, history, c.v, e))
  {
    CheckedIsClean(name, history, c.v);
    NothingFolded(history);
    hide Valid, At, CanonicalWitnesses;
  }

  lemma NothingFolded(history: History)
    ensures At(history, 0) == NEW_STATE
  {
    assert history[..0] == [];
  }

  /** A takeover is only recorded over a standing claim. */
  function TakeoverOf(a: Attempt, c: Command): Attestation
    requires c.Claim?
  {
    if a.Standing() then c.takeover else UNATTESTED
  }

  lemma ClaimIsExact(name: string, history: History, h: Handle, c: Command)
    requires c.Claim? && c.v <= |history| && c.runner != NIL_UUID && h.stage.NotRun?
    requires c.takeover == UNATTESTED || c.takeover.Signed()
    ensures var a := At(history, c.v).attempt;
            var created := a.phase.PhaseCreated?;
            var claim := RunnerClaimed(a.id, c.runner, if created then 0 else c.position, TakeoverOf(a, c), c.at);
            var plan := PlanClaim(name, history, h, c);
            && (plan.events != [] ==> plan.base == c.v)
            && plan.events == if !Accepts(name, history, c.v, claim) then []
                              else if created then [claim, BuildStarted] else [claim]
  {
    CheckedIsClean(name, history, c.v);
    hide At, Valid, CleanStep, ClaimDefeat, Attempt.Standing;
    if CheckOk(name, history, c.v) {
      ClaimAccepted(At(history, c.v), c);
    }
  }

  /** The fold takes a claim of the attempt in flight, if any, unless it stands and the
      claimant signs for nothing. */
  lemma ClaimAccepted(s: State, c: Command)
    requires c.Claim? && c.runner != NIL_UUID && Valid(s) && (c.takeover == UNATTESTED || c.takeover.Signed())
    ensures var a := s.attempt;
            var claim := RunnerClaimed(a.id, c.runner, if a.phase.PhaseCreated? then 0 else c.position,
                                       TakeoverOf(a, c), c.at);
            CleanStep(s, claim) <==>
              !a.phase.PhaseNone? && a.phase.Known() && !(a.Standing() && c.takeover == UNATTESTED)
  {
    hide RestAccepts, ValidName, CanonicalWitnesses, RetirementPolicy.Valid;
  }

  /** The run may promote from this view: it runs, nothing stopped it, and its
      certificate is of exactly the catch-up the view shows, at exactly this version. */
  predicate Licensed(h: Handle, a: Attempt) {
    && h.stage.Running? && !h.stopped && !h.revoked
    && h.certificate == Some(Certificate(a.id, a.runner, a.caughtUpPos, h.view))
  }

  lemma PromoteIsExact(name: string, history: History, h: Handle, at: Time)
    requires h.view <= |history|
    ensures var s := At(history, h.view);
            var e := Promoted(s.live, s.attempt.target, Increment(s.revision), s.policy.generation, at);
            SendsExactly(PlanPromote(name, history, h, at), h.view, e,
                         Licensed(h, s.attempt) && Accepts(name, history, h.view, e))
  {
    CheckedIsClean(name, history, h.view);
    hide At, Valid;
  }

  lemma RollbackIsExact(name: string, history: History, h: Handle, v: nat, at: Time)
    requires v <= |history|
    ensures var s := At(history, v);
            var e := RolledBack(s.live, s.attempt.previous, Increment(s.revision), at);
            SendsExactly(PlanRollback(name, history, h, v, at), v, e, Accepts(name, history, v, e))
  {
    hide At, RestAccepts, ValidName, CanonicalWitnesses, RetirementPolicy.Valid;
  }

  lemma AbandonIsExact(name: string, history: History, h: Handle, v: nat, cause: string)
    requires v <= |history|
    ensures SendsExactly(PlanAbandon(name, history, h, v, cause), v, Abandoned(cause),
                         Accepts(name, history, v, Abandoned(cause)))
  {
    CheckedIsClean(name, history, v);
    hide At, Valid;
  }

  lemma ReleaseIsExact(name: string, history: History, h: Handle, at: Time)
    requires h.view <= |history| && h.runner != NIL_UUID
    ensures var e := RunnerReleased(At(history, h.view).attempt.id, h.runner, at);
            SendsExactly(PlanRelease(name, history, h, at), h.view, e,
                         h.stage.Exited? && Accepts(name, history, h.view, e))
  {
    hide At, RestAccepts, ValidName, CanonicalWitnesses, RetirementPolicy.Valid;
  }

  /** A run whose claim may or may not be durable is claimed exactly when what it reads
      back shows its own attempt under its own claim; otherwise it is over. */
  lemma RecoverIsExact(name: string, history: History, h: Handle, v: nat, readable: bool)
    requires v <= |history| && h.stage.Recovering?
    ensures var plan := PlanRecover(name, history, h, v, readable);
            var a := At(history, v).attempt;
            var own := readable && CheckOk(name, history, v) && a.id == h.runAttempt && a.runner == h.runner;
            && plan.events == []
            && (plan.acked.stage.Claimed? <==> own) && (plan.acked.stage.Over? <==> !own)
            && (own ==> plan.acked == h.(stage := Claimed, view := v))
  {
    hide At, CheckOk;
  }

  // ---------------------------------------------------------------------------
  // Retirement
  // ---------------------------------------------------------------------------

  /** Whom a reservation asks. */
  function Asked(s: State, authorization: Attestation): seq<string> {
    if authorization != UNATTESTED || s.policy.unwitnessed then [] else s.policy.witnesses
  }

  /** Everyone asked serves exactly the live cutover, and the fold accepts their receipts. */
  ghost predicate Reservable(s: State, c: Command)
    requires c.Retire?
  {
    exists receipts :: Reserves(s, c, receipts)
  }

  predicate Reserves(s: State, c: Command, receipts: seq<Receipt>)
    requires c.Retire?
  {
    var asked := Asked(s, c.authorization);
    && Vouched(c.answers, asked, LiveCutover(s))
    && CleanStep(s, RetireStarted(s.attempt.previous, s.policy.generation, asked, receipts, c.authorization, c.at))
  }

  lemma ReservationNeeds(s: State, c: Command, receipts: seq<Receipt>)
    requires c.Retire? && Reserves(s, c, receipts)
    ensures s.attempt.phase.PhasePromoted? && s.attempt.previous != NO_ID
    ensures c.authorization == UNATTESTED ==> !s.policy.Zero()
  {
    hide ReceiptsAttest, Vouched;
  }

  lemma ReserveIsExact(h: Handle, s: State, c: Command)
    requires c.Retire? && Valid(s) && s.attempt.phase.PhasePromoted? && s.attempt.previous != NO_ID
    requires c.authorization == UNATTESTED || c.authorization.Signed()
    ensures var plan := PlanReserve(h, s, c);
            && plan.base == h.view
            && (plan.events == [] <==> !Reservable(s, c))
            && (plan.events != [] ==>
                  && plan.acked == h.(view := h.view + 1, retire := Reserved(s.attempt.previous))
                  && (exists receipts :: Reserves(s, c, receipts)
                        && plan.events == [RetireStarted(s.attempt.previous, s.policy.generation, Asked(s, c.authorization),
                                                         receipts, c.authorization, c.at)]))
  {
    hide Valid, CleanStep, Attest, ReceiptsAttest, RetirementPolicy.Zero;
    var asked := Asked(s, c.authorization);
    AttestIsUnanimous(c.answers, asked, LiveCutover(s));
    var plan := PlanReserve(h, s, c);
    if plan.events != [] {
      var receipts := Attest(c.answers, asked, LiveCutover(s)).value;
      ReserveStep(s, c, asked, receipts);
      assert Reserves(s, c, receipts);
    } else if Reservable(s, c) {
      var receipts :| Reserves(s, c, receipts);
      ReservationNeeds(s, c, receipts);
    }
  }

  /** Retiring behind a first version completes at once, when nothing is overridden. */
  lemma FirstRetireIsExact(name: string, history: History, h: Handle, c: Command)
    requires c.Retire? && c.v <= |history| && At(history, c.v).attempt.previous.version == 0
    ensures var done := PreviousRetired(At(history, c.v).attempt.previous, []);
            SendsExactly(PlanRetire(name, history, h, c), c.v, done,
                         c.authorization == UNATTESTED && Accepts(name, history, c.v, done))
  {
    CheckedIsClean(name, history, c.v);
    hide At, Valid, CleanStep, Rechecks, PlanReserve;
    if CheckOk(name, history, c.v) {
      FirstRetireAccepted(At(history, c.v));
    }
  }

  lemma FirstRetireAccepted(s: State)
    requires Valid(s) && s.attempt.previous.version == 0
    ensures CleanStep(s, PreviousRetired(s.attempt.previous, [])) <==> s.attempt.phase.Live()
  {
    hide ReceiptsAttest, CanonicalWitnesses, ValidName, RestAccepts, RetirementPolicy.Valid;
  }

  /** Any other retirement reserves exactly when the fold would take its reservation
      and the caller can tear down. */
  lemma RetireIsExact(name: string, history: History, h: Handle, c: Command)
    requires c.Retire? && c.v <= |history| && At(history, c.v).attempt.previous.version != 0
    requires c.authorization == UNATTESTED || c.authorization.Signed()
    ensures PlanRetire(name, history, h, c).events != [] <==>
            c.able && CheckOk(name, history, c.v) && Reservable(At(history, c.v), c)
  {
    var s := At(history, c.v);
    CheckedIsClean(name, history, c.v);
    hide At, CheckOk, Attest, Reservable, PlanReserve;
    if CheckOk(name, history, c.v) && s.attempt.phase.PhasePromoted? {
      hide Valid;
      ReserveIsExact(h.(view := c.v), s, c);
    } else if CheckOk(name, history, c.v) {
      hide Valid;
      Unreservable(s, c);
    }
  }

  /** A reservation that stands is taken up exactly when every witness it captured
      serves the live cutover, whoever made it. */
  lemma ResumedRetireIsExact(name: string, history: History, h: Handle, c: Command)
    requires c.Retire? && c.v <= |history| && h.retire.NoRetire?
    requires At(history, c.v).attempt.previous.version != 0
    ensures var s := At(history, c.v);
            PlanRetire(name, history, h, c).acked.retire.Ready? <==>
              && c.able && CheckOk(name, history, c.v) && s.attempt.phase.PhaseRetiring?
              && c.authorization == UNATTESTED && Vouched(c.answers, s.attempt.retiringWitnesses, LiveCutover(s))
  {
    hide At, CheckOk, Vouched, Rechecks, PlanReserve;
    var s := At(history, c.v);
    RecheckIsUnanimous(h.(view := c.v), s.attempt.previous, s, c.answers);
    ReserveIsNotReady(h.(view := c.v), s, c);
  }

  lemma RecheckIsUnanimous(h: Handle, previous: ID, s: State, answers: Answers)
    requires h.retire.NoRetire?
    ensures Rechecks(h, previous, s, answers).acked.retire.Ready? <==>
            Vouched(answers, s.attempt.retiringWitnesses, LiveCutover(s))
  {
    hide Attest, Vouched;
    AttestIsUnanimous(answers, s.attempt.retiringWitnesses, LiveCutover(s));
  }

  lemma ReserveIsNotReady(h: Handle, s: State, c: Command)
    requires c.Retire? && h.retire.NoRetire?
    ensures !PlanReserve(h, s, c).acked.retire.Ready?
  {
    hide Attest, RetirementPolicy.Zero;
  }

  lemma Unreservable(s: State, c: Command)
    requires c.Retire? && !(s.attempt.phase.PhasePromoted? && s.attempt.previous != NO_ID)
    ensures !Reservable(s, c)
  {
    hide Reserves;
    forall receipts ensures !Reserves(s, c, receipts) {
      if Reserves(s, c, receipts) {
        ReservationNeeds(s, c, receipts);
      }
    }
  }
}
