/** What every run of the protocol keeps about the processors of its handles, with
    takeovers and lost appends included: a processor starts only behind a durable
    claim of its own, and a run that was stopped certifies and promotes nothing
    more. */
module RunDiscipline {
  import opened Base
  import opened LifecycleState
  import opened LifecycleEvents
  import opened CleanHistories
  import opened Protocol
  import opened PromotionSafety

  // ---------------------------------------------------------------------------
  // Starts follow a durable claim
  // ---------------------------------------------------------------------------

  predicate Claims(e: Event, h: Handle) {
    e.RunnerClaimed? && e.runner == h.runner && e.attempt == h.runAttempt
  }

  /** The stream records the handle's own claim of the attempt it runs for. */
  ghost predicate ClaimRecorded(history: History, h: Handle) {
    exists i :: 0 <= i < |history| && Claims(history[i], h)
  }

  ghost predicate StartsClaimed(w: World) {
    forall hid :: hid in w.handles && (w.handles[hid].Active() || w.handles[hid].stage.Exited?) ==>
      ClaimRecorded(w.history, w.handles[hid])
  }

  predicate SameClaim(h: Handle, k: Handle) {
    && k.runner == h.runner && k.runAttempt == h.runAttempt
    && (k.Active() || k.stage.Exited? ==> h.Active() || h.stage.Exited?)
  }

  /** The handle a step leaves. */
  function LeftBy(plan: Plan, outcome: Outcome): Handle {
    if plan.events == [] then plan.acked else Left(plan, outcome)
  }

  /** Whatever becomes of the append, the handle keeps its claim. */
  ghost predicate PlanKeepsClaim(h: Handle, plan: Plan) {
    forall outcome :: SameClaim(h, LeftBy(plan, outcome))
  }

  /** Or the append is the claim, and only its commitment starts the run. */
  ghost predicate PlanClaims(h: Handle, plan: Plan) {
    && plan.events != []
    && forall outcome :: StartsBy(h, plan, outcome, LeftBy(plan, outcome))
  }

  predicate StartsBy(h: Handle, plan: Plan, outcome: Outcome, k: Handle)
    requires plan.events != []
  {
    (k.Active() || k.stage.Exited?) && !SameClaim(h, k) ==>
      (outcome.Acked? || outcome.Unobserved?) && Claims(plan.events[0], k)
  }

  lemma MildKeepsClaim(h: Handle, plan: Plan, n: nat, locks: bool)
    requires MildPlan(plan, h, n, locks)
    ensures PlanKeepsClaim(h, plan)
  {
  }

  lemma CatchUpKeepsClaim(h: Handle, position: Int64, duration: Int64, at: Time)
    ensures PlanKeepsClaim(h, PlanRecordCatchUp(h, position, duration, at))
  {
  }

  lemma PromoteKeepsClaim(name: string, history: History, h: Handle, at: Time)
    requires h.view <= |history|
    ensures PlanKeepsClaim(h, PlanPromote(name, history, h, at))
  {
    hide At, CheckOk;
  }

  lemma ClaimPlans(name: string, history: History, h: Handle, c: Command)
    requires c.Claim? && c.v <= |history|
    ensures PlanKeepsClaim(h, PlanClaim(name, history, h, c)) || PlanClaims(h, PlanClaim(name, history, h, c))
  {
    hide At, CheckOk;
  }

  lemma PlansKeepClaim(name: string, history: History, h: Handle, c: Command)
    requires Allowed(history, h, c) && (c.Opens() ==> h == Fresh(c.Reads()))
    ensures PlanKeepsClaim(h, PlanOf(name, history, h, c)) || PlanClaims(h, PlanOf(name, history, h, c))
  {
    hide MildPlan, At, CheckOk, PlanKeepsClaim, PlanClaims,
      PlanRollback, PlanAbandon, PlanRelease, PlanRetire, PlanReattest, PlanTeardown, PlanRecover,
      PlanReconcile, PlanJudgePromotion, PlanJudgeCatchUp, PlanBegin, PlanSetPolicy, PlanClaim, PlanRecordCatchUp, PlanPromote;
    if c.RecordCatchUp? {
      CatchUpKeepsClaim(h, c.position, c.duration, c.at);
    } else if c.Promote? {
      PromoteKeepsClaim(name, history, h, c.at);
    } else if c.Claim? {
      ClaimPlans(name, history, h, c);
    } else {
      OtherPlansMild(name, history, h, c);
      MildKeepsClaim(h, PlanOf(name, history, h, c), |history|, Locks(c));
    }
  }

  lemma ClaimStaysRecorded(history: History, more: History, h: Handle, k: Handle)
    requires ClaimRecorded(history, h) && k.runner == h.runner && k.runAttempt == h.runAttempt
    ensures ClaimRecorded(history + more, k)
  {
    var i :| 0 <= i < |history| && Claims(history[i], h);
    assert Claims((history + more)[i], k);
  }

  lemma DoKeepsStarts(w: World, hid: nat, h: Handle, c: Command, outcome: Outcome, plan: Plan)
    requires StartsClaimed(w) && HandleFor(w, hid, c) == Some(h)
    requires PlanKeepsClaim(h, plan) || PlanClaims(h, plan)
    ensures StartsClaimed(Execute(w, hid, c, outcome, plan))
  {
    hide ClaimRecorded;
    var v := Execute(w, hid, c, outcome, plan);
    var events := if outcome.Commits() then plan.events else [];
    assert v.handles[hid] == LeftBy(plan, outcome);
    forall other | other in v.handles && (v.handles[other].Active() || v.handles[other].stage.Exited?)
      ensures ClaimRecorded(v.history, v.handles[other])
    {
      if other != hid {
        ClaimStaysRecorded(w.history, events, w.handles[other], w.handles[other]);
      } else if SameClaim(h, v.handles[hid]) {
        ClaimStaysRecorded(w.history, events, h, v.handles[hid]);
      } else {
        OwnClaimIsRecorded(w.history, plan.events, v.handles[hid]);
      }
    }
  }

  lemma OwnClaimIsRecorded(history: History, events: History, k: Handle)
    requires events != [] && Claims(events[0], k)
    ensures ClaimRecorded(history + events, k)
  {
    assert Claims((history + events)[|history|], k);
  }

  lemma StepKeepsStarts(w: World, a: Action)
    requires StartsClaimed(w) && Enabled(w, a)
    ensures StartsClaimed(Step(w, a))
  {
    hide PlanOf, ClaimRecorded, PlanKeepsClaim, PlanClaims;
    match a
    case Land(index) =>
      forall hid | hid in w.handles && (w.handles[hid].Active() || w.handles[hid].stage.Exited?)
        ensures ClaimRecorded(Step(w, a).history, w.handles[hid])
      {
        ClaimStaysRecorded(w.history, w.inFlight[index].events, w.handles[hid], w.handles[hid]);
      }
    case Do(hid, c, outcome) =>
      var h := HandleFor(w, hid, c).value;
      PlansKeepClaim(w.name, w.history, h, c);
      DoKeepsStarts(w, hid, h, c, outcome, PlanOf(w.name, w.history, h, c));
  }

  lemma {:induction false} RunsKeepStarts(w: World, actions: seq<Action>)
    requires StartsClaimed(w) && Runs(w, actions)
    ensures StartsClaimed(Final(w, actions))
    decreases |actions|
  {
    hide StartsClaimed, Step, Enabled;
    if actions == [] {
    } else {
      StepKeepsStarts(w, actions[0]);
      RunsKeepStarts(Step(w, actions[0]), actions[1..]);
    }
  }

  /** In every run, takeovers and lost responses included, a handle whose processor
      may run, runs or has exited has its own claim durably recorded. */
  lemma StartsFollowADurableClaim(name: string, actions: seq<Action>, hid: nat)
    requires Runs(Init(name), actions) && hid in Final(Init(name), actions).handles
    requires var h := Final(Init(name), actions).handles[hid]; h.Active() || h.stage.Exited?
    ensures ClaimRecorded(Final(Init(name), actions).history, Final(Init(name), actions).handles[hid])
  {
    hide Runs, Final, Enabled, Step, ClaimRecorded;
    RunsKeepStarts(Init(name), actions);
  }

  // ---------------------------------------------------------------------------
  // A stopped run falls silent
  // ---------------------------------------------------------------------------

  predicate IsStopped(w: World, hid: nat) {
    hid in w.handles && w.handles[hid].stopped
  }

  /** A command that judges recorded history. */
  predicate Judges(c: Command) {
    c.Reconcile? || c.JudgePromotion? || c.JudgeCatchUp?
  }

  predicate KeepsMarks(h: Handle, k: Handle) {
    && k.revoked == h.revoked
    && (h.commandEnded ==> k.commandEnded)
    && (k.commandEnded && !h.commandEnded ==> k.stopped)
  }

  /** No other command revokes a run, and one that ends the attempt stops it. */
  ghost predicate PlanKeepsMarks(h: Handle, plan: Plan) {
    forall outcome :: KeepsMarks(h, LeftBy(plan, outcome))
  }

  /** Once stopped, always stopped, and neither certifying nor promoting. */
  ghost predicate PlanStaysSilent(h: Handle, plan: Plan) {
    h.stopped ==>
      && (forall outcome :: LeftBy(plan, outcome).stopped)
      && (forall e :: e in plan.events ==> Bare(e))
  }

  lemma RollbackSilent(name: string, history: History, h: Handle, v: nat, at: Time)
    requires v <= |history|
    ensures PlanStaysSilent(h, PlanRollback(name, history, h, v, at)) && PlanKeepsMarks(h, PlanRollback(name, history, h, v, at))
  {
    hide At, CheckOk;
  }

  lemma AbandonSilent(name: string, history: History, h: Handle, v: nat, cause: string)
    requires v <= |history|
    ensures PlanStaysSilent(h, PlanAbandon(name, history, h, v, cause)) && PlanKeepsMarks(h, PlanAbandon(name, history, h, v, cause))
  {
    hide At, CheckOk;
  }

  lemma ReleaseSilent(name: string, history: History, h: Handle, at: Time)
    requires h.view <= |history|
    ensures PlanStaysSilent(h, PlanRelease(name, history, h, at)) && PlanKeepsMarks(h, PlanRelease(name, history, h, at))
  {
    hide At, CheckOk;
  }

  lemma ProcessorSilent(name: string, history: History, h: Handle, c: Command)
    requires h.view <= |history|
    ensures c.RecordCatchUp? ==>
              PlanStaysSilent(h, PlanRecordCatchUp(h, c.position, c.duration, c.at)) && PlanKeepsMarks(h, PlanRecordCatchUp(h, c.position, c.duration, c.at))
    ensures c.Promote? ==>
              PlanStaysSilent(h, PlanPromote(name, history, h, c.at)) && PlanKeepsMarks(h, PlanPromote(name, history, h, c.at))
    ensures c.Recover? && c.v <= |history| ==>
              PlanStaysSilent(h, PlanRecover(name, history, h, c.v, c.readable)) && PlanKeepsMarks(h, PlanRecover(name, history, h, c.v, c.readable))
  {
    hide At, CheckOk;
  }

  lemma SimplePlansSilent(name: string, history: History, h: Handle, c: Command)
    requires Allowed(history, h, c) && !c.Opens()
    requires c.Reattest? || c.Teardown? || c.CompleteRetire? || c.AbortRetire?
             || c.StartProcessor? || c.FailStart? || c.PublishExit?
    ensures PlanStaysSilent(h, PlanOf(name, history, h, c)) && PlanKeepsMarks(h, PlanOf(name, history, h, c))
  {
    hide At, CheckOk, Attest;
  }

  lemma ReserveSilent(h: Handle, s: State, c: Command)
    requires c.Retire?
    ensures PlanStaysSilent(h, PlanReserve(h, s, c)) && PlanKeepsMarks(h, PlanReserve(h, s, c))
  {
    hide Attest, RetirementPolicy.Zero;
  }

  lemma RetireSilent(name: string, history: History, h: Handle, c: Command)
    requires c.Retire? && c.v <= |history|
    ensures PlanStaysSilent(h, PlanRetire(name, history, h, c)) && PlanKeepsMarks(h, PlanRetire(name, history, h, c))
  {
    hide At, CheckOk, Attest, PlanReserve;
    ReserveSilent(h.(view := c.v), At(history, c.v), c);
  }

  lemma ClaimSilent(name: string, history: History, h: Handle, c: Command)
    requires c.Claim? && c.v <= |history|
    ensures PlanStaysSilent(h, PlanClaim(name, history, h, c)) && PlanKeepsMarks(h, PlanClaim(name, history, h, c))
  {
    hide At, CheckOk;
  }

  lemma JudgingSilent(name: string, history: History, h: Handle, v: nat, readable: bool)
    requires v <= |history|
    ensures PlanStaysSilent(h, PlanReconcile(name, history, h, v, readable))
    ensures PlanStaysSilent(h, PlanJudgePromotion(name, history, h))
    ensures PlanStaysSilent(h, PlanJudgeCatchUp(name, history, h))
  {
    hide At, CheckOk, SlotPromoted;
  }

  lemma PlansStaySilent(name: string, history: History, h: Handle, c: Command)
    requires Allowed(history, h, c) && (c.Opens() ==> h == Fresh(c.Reads()))
    ensures PlanStaysSilent(h, PlanOf(name, history, h, c))
    ensures !Judges(c) ==> PlanKeepsMarks(h, PlanOf(name, history, h, c))
  {
    hide At, CheckOk, PlanStaysSilent, PlanKeepsMarks,
      PlanRollback, PlanAbandon, PlanRelease, PlanRetire, PlanReattest, PlanTeardown, PlanRecover,
      PlanReconcile, PlanJudgePromotion, PlanJudgeCatchUp, PlanBegin, PlanSetPolicy, PlanClaim, PlanRecordCatchUp, PlanPromote;
    if c.Opens() {
      OpeningSilent(name, history, c);
    } else if c.Retire? {
      RetireSilent(name, history, h, c);
    } else if c.Claim? {
      ClaimSilent(name, history, h, c);
    } else if c.Reconcile? {
      JudgingSilent(name, history, h, c.v, c.readable);
    } else if c.JudgePromotion? || c.JudgeCatchUp? {
      JudgingSilent(name, history, h, 0, true);
    } else if c.Rollback? {
      RollbackSilent(name, history, h, c.v, c.at);
    } else if c.Abandon? {
      AbandonSilent(name, history, h, c.v, c.cause);
    } else if c.Release? {
      ReleaseSilent(name, history, h, c.at);
    } else if c.RecordCatchUp? || c.Promote? || c.Recover? {
      ProcessorSilent(name, history, h, c);
    } else {
      SimplePlansSilent(name, history, h, c);
    }
  }

  lemma OpeningSilent(name: string, history: History, c: Command)
    requires c.Opens() && Allowed(history, Fresh(c.Reads()), c)
    ensures PlanStaysSilent(Fresh(c.Reads()), PlanOf(name, history, Fresh(c.Reads()), c))
    ensures PlanKeepsMarks(Fresh(c.Reads()), PlanOf(name, history, Fresh(c.Reads()), c))
  {
    hide At, CheckOk, CanonicalWitnesses, ID.Valid;
  }

  /** What hid itself appended past a point, landings of earlier calls apart. */
  ghost predicate SilentSince(w: World, length: nat, hid: nat) {
    |w.history| == |w.marks| && length <= |w.history|
    && forall i :: length <= i < |w.history| && w.marks[i].author == hid && !w.marks[i].late ==> Bare(w.history[i])
  }

  lemma StepStaysSilent(w: World, a: Action, length: nat, hid: nat)
    requires IsStopped(w, hid) && Enabled(w, a) && SilentSince(w, length, hid)
    ensures IsStopped(Step(w, a), hid) && SilentSince(Step(w, a), length, hid)
  {
    hide PlanOf, Allowed, Bare;
    if a.Do? {
      var h := HandleFor(w, a.hid, a.command).value;
      var plan := PlanOf(w.name, w.history, h, a.command);
      PlansStaySilent(w.name, w.history, h, a.command);
      assert Step(w, a).handles[a.hid] == LeftBy(plan, a.outcome);
      forall i | |w.history| <= i < |Step(w, a).history| && a.hid == hid ensures Bare(Step(w, a).history[i]) {
        assert Step(w, a).history[i] == plan.events[i - |w.history|];
      }
    }
  }

  lemma {:induction false} RunsStaySilent(w: World, actions: seq<Action>, length: nat, hid: nat)
    requires IsStopped(w, hid) && Runs(w, actions) && SilentSince(w, length, hid)
    ensures IsStopped(Final(w, actions), hid) && SilentSince(Final(w, actions), length, hid)
    decreases |actions|
  {
    hide Step, Enabled, SilentSince, IsStopped;
    if actions == [] {
    } else {
      StepStaysSilent(w, actions[0], length, hid);
      RunsStaySilent(Step(w, actions[0]), actions[1..], length, hid);
    }
  }

  /** Once a handle was stopped, by its own command, a lost slot or a claim taken
      over, no continuation of the run has it record a catch-up or a promotion:
      only an append issued before can still land. */
  lemma StoppedRunsFallSilent(name: string, actions: seq<Action>, more: seq<Action>, hid: nat)
    requires Runs(Init(name), actions) && Runs(Final(Init(name), actions), more)
    requires IsStopped(Final(Init(name), actions), hid)
    ensures var w := Final(Init(name), actions);
            IsStopped(Final(w, more), hid) && SilentSince(Final(w, more), |w.history|, hid)
  {
    hide Inv, IsStopped;
    InitOk(name);
    RunsKeepInv(Init(name), actions);
    InvSizes(Final(Init(name), actions));
    RunsStaySilent(Final(Init(name), actions), more, |Final(Init(name), actions).history|, hid);
  }

  // ---------------------------------------------------------------------------
  // Who is revoked
  // ---------------------------------------------------------------------------

  /** The stream shows another runner on the run's attempt. */
  predicate TakenAt(history: History, v: nat, h: Handle)
    requires v <= |history|
  {
    At(history, v).attempt.id == h.runAttempt && At(history, v).attempt.runner != h.runner
  }

  ghost predicate ShownTaken(history: History, h: Handle) {
    exists v: nat :: v <= |history| && TakenAt(history, v, h)
  }

  /** Some fold of the stream cannot be validated. */
  ghost predicate ShownInvalid(name: string, history: History) {
    exists v: nat :: v <= |history| && !CheckOk(name, history, v)
  }

  /** The run once could not read the stream it judged by. */
  predicate Unreadable(hid: nat, past: seq<Action>) {
    exists i :: 0 <= i < |past| && FailsToRead(hid, past[i])
  }

  predicate FailsToRead(hid: nat, a: Action) {
    a.Do? && a.hid == hid && a.command.Reconcile? && !a.command.readable
  }

  /** Exactly how the fold at a lost slot marks a run, whatever marks it carries:
      displacement revokes even a run that was stopped cleanly, an unreadable fold
      only one that still ran, a revoked run stays revoked, and one that its own
      command ended takes no verdict at all. */
  lemma SlotVerdictPrecedence(name: string, history: History, h: Handle, slot: nat)
    requires slot <= |history|
    ensures var k := SlotDefeat(name, history, h, slot);
            && (k.revoked <==>
                  || h.revoked
                  || (!CheckOk(name, history, slot) && !h.stopped)
                  || (CheckOk(name, history, slot) && !h.commandEnded && TakenAt(history, slot, h)))
            && (h.commandEnded && h.stopped ==> k == h)
            && (k.stopped <==>
                  || h.stopped
                  || !CheckOk(name, history, slot)
                  || (!h.commandEnded
                      && (At(history, slot).attempt.id != h.runAttempt || At(history, slot).attempt.runner != h.runner)))
  {
    hide At, CheckOk;
  }

  lemma ReconcileMarks(name: string, history: History, h: Handle, v: nat, readable: bool)
    requires v <= |history|
    ensures var k := PlanReconcile(name, history, h, v, readable).acked;
            && k.commandEnded == h.commandEnded && (h.stopped ==> k == h) && (h.revoked ==> k.revoked)
            && (k.revoked && !h.revoked ==> !readable || !CheckOk(name, history, v) || TakenAt(history, v, h))
            && PlanReconcile(name, history, h, v, readable).events == []
  {
    hide At, CheckOk;
  }

  lemma SlotMarks(name: string, history: History, h: Handle, slot: nat)
    requires slot <= |history|
    ensures var k := SlotDefeat(name, history, h, slot);
            k.commandEnded == h.commandEnded
  {
    hide At, CheckOk;
  }

  /** What a judgement may do to a run's marks. */
  ghost predicate JudgedFairly(name: string, history: History, h: Handle, k: Handle, blind: bool) {
    && k.commandEnded == h.commandEnded
    && (h.revoked ==> k.revoked)
    && (h.commandEnded && h.stopped ==> k.revoked == h.revoked)
    && (k.revoked && !h.revoked ==> blind || ShownInvalid(name, history) || ShownTaken(history, h))
  }

  lemma SlotIsFair(name: string, history: History, h: Handle, slot: nat)
    requires slot <= |history|
    ensures JudgedFairly(name, history, h, SlotDefeat(name, history, h, slot), false)
  {
    hide At, CheckOk, SlotDefeat;
    SlotVerdictPrecedence(name, history, h, slot);
    SlotMarks(name, history, h, slot);
  }

  lemma JudgementsAreFair(name: string, history: History, h: Handle, c: Command, outcome: Outcome)
    requires Allowed(history, h, c) && Judges(c)
    ensures JudgedFairly(name, history, h, LeftBy(PlanOf(name, history, h, c), outcome), c.Reconcile? && !c.readable)
  {
    hide At, CheckOk, SlotDefeat, PlanReconcile, ShownInvalid, ShownTaken, JudgedPromoted;
    if c.Reconcile? {
      ReconcileMarks(name, history, h, c.v, c.readable);
      Shows(name, history, h, c.v);
    } else if c.JudgePromotion? && 0 < h.promoteSlot <= |history| {
      SlotIsFair(name, history, h, h.promoteSlot);
    } else if c.JudgeCatchUp? && h.drainSlot + 1 <= |history| {
      SlotIsFair(name, history, h, h.drainSlot + 1);
    }
  }

  lemma Shows(name: string, history: History, h: Handle, v: nat)
    requires v <= |history|
    ensures !CheckOk(name, history, v) ==> ShownInvalid(name, history)
    ensures TakenAt(history, v, h) ==> ShownTaken(history, h)
  {
  }

  /** Every mark of revocation has its evidence, and a command's end its stop. */
  ghost predicate Justified(w: World, past: seq<Action>) {
    forall hid :: hid in w.handles ==> JustifiedAt(w.name, w.history, hid, w.handles[hid], past)
  }

  ghost predicate JustifiedAt(name: string, history: History, hid: nat, h: Handle, past: seq<Action>) {
    && (h.commandEnded ==> h.stopped)
    && (h.revoked ==>
          !h.stage.NotRun? && (ShownTaken(history, h) || ShownInvalid(name, history) || Unreadable(hid, past)))
  }

  lemma EvidenceStays(name: string, history: History, more: History, hid: nat, h: Handle, k: Handle, past: seq<Action>,
                      a: Action)
    requires ShownTaken(history, h) || ShownInvalid(name, history) || Unreadable(hid, past)
    requires k.runner == h.runner && k.runAttempt == h.runAttempt
    ensures ShownTaken(history + more, k) || ShownInvalid(name, history + more) || Unreadable(hid, past + [a])
  {
    hide FoldFrom, Valid;
    if ShownTaken(history, h) {
      var v: nat :| v <= |history| && TakenAt(history, v, h);
      assert (history + more)[..v] == history[..v];
      assert TakenAt(history + more, v, k);
    } else if ShownInvalid(name, history) {
      var v: nat :| v <= |history| && !CheckOk(name, history, v);
      assert (history + more)[..v] == history[..v];
      assert !CheckOk(name, history + more, v);
    } else {
      var i :| 0 <= i < |past| && FailsToRead(hid, past[i]);
      assert FailsToRead(hid, (past + [a])[i]);
    }
  }

  lemma BlindnessIsPast(hid: nat, past: seq<Action>, a: Action)
    requires FailsToRead(hid, a)
    ensures Unreadable(hid, past + [a])
  {
    assert FailsToRead(hid, (past + [a])[|past|]);
  }

  /** A run that judged something recorded is past its claim. */
  lemma JudgesOnlyRuns(w: World, hid: nat, c: Command, outcome: Outcome)
    requires Inv(w) && hid in w.handles && Judges(c) && Allowed(w.history, w.handles[hid], c)
    ensures w.handles[hid].stage.NotRun? ==> LeftBy(PlanOf(w.name, w.history, w.handles[hid], c), outcome) == w.handles[hid]
  {
    hide At, CheckOk, EntryOk, MessageOk, SlotDefeat, CaughtUpBy, CertifiedAt;
    assert HandleOk(w.history, w.marks, hid, w.handles[hid]);
  }

  /** The acting handle. */
  lemma ActorStaysJustified(w: World, a: Action, past: seq<Action>)
    requires Inv(w) && Justified(w, past) && Enabled(w, a) && a.Do?
    ensures JustifiedAt(w.name, Step(w, a).history, a.hid, Step(w, a).handles[a.hid], past + [a])
  {
    hide PlanOf, Allowed, Inv, ShownTaken, ShownInvalid, Unreadable;
    var v := Step(w, a);
    var h := HandleFor(w, a.hid, a.command).value;
    var k := v.handles[a.hid];
    assert k == LeftBy(PlanOf(w.name, w.history, h, a.command), a.outcome);
    StepKeepsInv(w, a);
    PlansStaySilent(w.name, w.history, h, a.command);
    var more := v.history[|w.history|..];
    assert v.history == w.history + more;
    if !a.command.Opens() {
      assert JustifiedAt(w.name, w.history, a.hid, h, past);
      if Judges(a.command) {
        JudgementsAreFair(w.name, w.history, h, a.command, a.outcome);
        JudgesOnlyRuns(w, a.hid, a.command, a.outcome);
      }
      if k.revoked {
        if h.revoked || !(a.command.Reconcile? && !a.command.readable) {
          EvidenceStays(w.name, w.history, more, a.hid, h, k, past, a);
        } else {
          BlindnessIsPast(a.hid, past, a);
        }
      }
    }
  }

  lemma StepStaysJustified(w: World, a: Action, past: seq<Action>)
    requires Inv(w) && Justified(w, past) && Enabled(w, a)
    ensures Justified(Step(w, a), past + [a])
  {
    hide PlanOf, Allowed, Inv, ShownTaken, ShownInvalid, Unreadable;
    var v := Step(w, a);
    var more := v.history[|w.history|..];
    assert v.history == w.history + more;
    if a.Do? {
      ActorStaysJustified(w, a, past);
    }
    forall hid | hid in v.handles ensures JustifiedAt(v.name, v.history, hid, v.handles[hid], past + [a]) {
      if !(a.Do? && hid == a.hid) {
        assert JustifiedAt(w.name, w.history, hid, w.handles[hid], past);
        if w.handles[hid].revoked {
          EvidenceStays(w.name, w.history, more, hid, w.handles[hid], v.handles[hid], past, a);
        }
      }
    }
  }

  lemma {:induction false} RunsStayJustified(w: World, actions: seq<Action>, past: seq<Action>)
    requires Inv(w) && Justified(w, past) && Runs(w, actions)
    ensures Justified(Final(w, actions), past + actions)
    decreases |actions|
  {
    hide Inv, Justified, Step, Enabled;
    if actions == [] {
      assert past + actions == past;
    } else {
      StepKeepsInv(w, actions[0]);
      StepStaysJustified(w, actions[0], past);
      RunsStayJustified(Step(w, actions[0]), actions[1..], past + [actions[0]]);
      assert past + [actions[0]] + actions[1..] == past + actions;
    }
  }

  /** In every run a handle is marked revoked only if the stream shows another runner
      on its attempt, some fold of the stream cannot be validated, or the handle
      itself once could not read the stream. */
  lemma RevocationHasEvidence(name: string, actions: seq<Action>, hid: nat)
    requires Runs(Init(name), actions) && hid in Final(Init(name), actions).handles
    requires Final(Init(name), actions).handles[hid].revoked
    ensures var w := Final(Init(name), actions);
            || ShownTaken(w.history, w.handles[hid])
            || ShownInvalid(w.name, w.history)
            || Unreadable(hid, actions)
  {
    hide Inv, Final, Runs, ShownTaken, ShownInvalid, Unreadable;
    InitOk(name);
    StartsJustified(name);
    RunsStayJustified(Init(name), actions, []);
    assert [] + actions == actions;
    assert JustifiedAt(Final(Init(name), actions).name, Final(Init(name), actions).history, hid,
                       Final(Init(name), actions).handles[hid], actions);
  }

  lemma StartsJustified(name: string)
    ensures Justified(Init(name), [])
  {
  }

  // ---------------------------------------------------------------------------
  // Marks that last
  // ---------------------------------------------------------------------------

  /** A run its own command ended, whose stop no other verdict explains. */
  predicate EndedByCommand(w: World, hid: nat) {
    hid in w.handles && w.handles[hid].commandEnded && w.handles[hid].stopped
  }

  lemma StepKeepsMarks(w: World, a: Action, hid: nat)
    requires Enabled(w, a) && hid in w.handles
    ensures hid in Step(w, a).handles
    ensures w.handles[hid].revoked ==> Step(w, a).handles[hid].revoked
    ensures EndedByCommand(w, hid) ==>
              EndedByCommand(Step(w, a), hid) && Step(w, a).handles[hid].revoked == w.handles[hid].revoked
  {
    hide PlanOf, Allowed, ShownTaken, ShownInvalid;
    if a.Do? && a.hid == hid {
      var h := HandleFor(w, a.hid, a.command).value;
      var k := Step(w, a).handles[hid];
      assert k == LeftBy(PlanOf(w.name, w.history, h, a.command), a.outcome);
      PlansStaySilent(w.name, w.history, h, a.command);
      if Judges(a.command) {
        JudgementsAreFair(w.name, w.history, h, a.command, a.outcome);
      } else {
        assert KeepsMarks(h, k);
      }
    }
  }

  lemma {:induction false} RunsKeepMarks(w: World, actions: seq<Action>, hid: nat)
    requires Runs(w, actions) && hid in w.handles
    ensures hid in Final(w, actions).handles
    ensures w.handles[hid].revoked ==> Final(w, actions).handles[hid].revoked
    ensures EndedByCommand(w, hid) ==>
              EndedByCommand(Final(w, actions), hid) && Final(w, actions).handles[hid].revoked == w.handles[hid].revoked
    decreases |actions|
  {
    hide Step, Enabled;
    if actions == [] {
    } else {
      StepKeepsMarks(w, actions[0], hid);
      RunsKeepMarks(Step(w, actions[0]), actions[1..], hid);
    }
  }

  /** A revoked run stays revoked, and a run that its own command ended is the
      command's story for good: no later judgement revokes it. */
  lemma VerdictsLast(name: string, actions: seq<Action>, more: seq<Action>, hid: nat)
    requires Runs(Init(name), actions) && Runs(Final(Init(name), actions), more)
    requires hid in Final(Init(name), actions).handles
    ensures var h := Final(Init(name), actions).handles[hid];
            var v := Final(Final(Init(name), actions), more);
            && hid in v.handles
            && (h.revoked ==> v.handles[hid].revoked)
            && (h.commandEnded ==> v.handles[hid].commandEnded && v.handles[hid].stopped
                                   && v.handles[hid].revoked == h.revoked)
  {
    hide Inv, Final, Runs, ShownTaken, ShownInvalid, Unreadable;
    InitOk(name);
    StartsJustified(name);
    RunsStayJustified(Init(name), actions, []);
    var w := Final(Init(name), actions);
    assert JustifiedAt(w.name, w.history, hid, w.handles[hid], [] + actions);
    RunsKeepMarks(w, more, hid);
  }
}
