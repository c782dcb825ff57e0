/** In every run of the protocol each recorded promotion is certified: it
    directly follows the same run's catch-up, is recorded at most once by that
    run, and commits before the run's processor exit is published unless it was
    still in flight when its call returned. */
module PromotionSafety {
  import opened Base
  import opened LifecycleState
  import opened LifecycleEvents
  import opened CleanHistories
  import opened Protocol

  // ---------------------------------------------------------------------------
  // The invariant
  // ---------------------------------------------------------------------------

  predicate CaughtUpBy(history: History, marks: seq<Mark>, i: int, hid: nat) {
    0 <= i < |history| && i < |marks| && history[i].CaughtUp? && marks[i].author == hid
  }

  /** The state in which this run's promotion was issued at index i. */
  predicate CertifiedAt(history: History, i: nat, h: Handle)
    requires i <= |history|
  {
    var a := At(history, i).attempt;
    a.phase.PhaseCaughtUp? && a.id == h.runAttempt && a.runner == h.runner
  }

  predicate HandleOk(history: History, marks: seq<Mark>, hid: nat, h: Handle) {
    && h.view <= |history|
    && (h.stage.NotRun? ==> !h.drained && !h.catchingUp)
    && (h.catchingUp ==> !h.drained)
    && (h.certificate.Some? ==>
          var c := h.certificate.value;
          && h.stage.Running? && h.drained
          && c.version == h.drainSlot + 1 && CaughtUpBy(history, marks, h.drainSlot, hid)
          && c.runner == h.runner && c.attempt == h.runAttempt)
    && (h.promoteSlot != 0 ==>
          && h.drained && h.promoteSlot == h.drainSlot + 2 && CaughtUpBy(history, marks, h.drainSlot, hid)
          && CertifiedAt(history, h.drainSlot + 1, h))
  }

  /** What a run's bindings promise to everything it has appended: they never change. */
  predicate SameRun(h: Handle, k: Handle) {
    && (!h.stage.NotRun? ==> !k.stage.NotRun? && k.runner == h.runner && k.runAttempt == h.runAttempt)
    && (h.drained ==> k.drained && k.drainSlot == h.drainSlot)
    && (h.Finished() ==> k.Finished())
    && (h.promoteSlot != 0 ==> k.promoteSlot == h.promoteSlot)
  }

  predicate Drained(handles: map<nat, Handle>, hid: nat, slot: int) {
    hid in handles && handles[hid].drained && handles[hid].drainSlot == slot && !handles[hid].stage.NotRun?
  }

  /** An event of this kind is where its author's own drain says. */
  predicate EventOk(history: History, marks: seq<Mark>, handles: map<nat, Handle>, i: nat, e: Event, author: nat)
    requires i <= |history|
  {
    && (e.CaughtUp? ==> Drained(handles, author, i))
    && (e.Promoted? ==>
          && Drained(handles, author, i - 1) && CaughtUpBy(history, marks, i - 1, author)
          && CertifiedAt(history, i, handles[author]))
  }

  predicate EntryOk(w: World, i: nat)
    requires i < |w.history| == |w.marks|
  {
    && EventOk(w.history, w.marks, w.handles, i, w.history[i], w.marks[i].author)
    && (w.history[i].Promoted? && !w.marks[i].late ==> !w.marks[i].exited)
  }

  predicate Bare(e: Event) {
    !e.CaughtUp? && !e.Promoted?
  }

  predicate MessageOk(w: World, m: Message)
    requires |w.history| == |w.marks|
  {
    && m.expected <= |w.history|
    && m.events != []
    && (|m.events| == 1 || forall e :: e in m.events ==> Bare(e))
    && EventOk(w.history, w.marks, w.handles, m.expected, m.events[0], m.author)
  }

  ghost predicate Inv(w: World) {
    && |w.history| == |w.marks|
    && (forall hid :: hid in w.handles ==> HandleOk(w.history, w.marks, hid, w.handles[hid]))
    && (forall i :: 0 <= i < |w.history| ==> EntryOk(w, i))
    && forall m :: m in w.inFlight ==> MessageOk(w, m)
  }

  // ---------------------------------------------------------------------------
  // What a plan keeps
  // ---------------------------------------------------------------------------

  ghost predicate PlanShape(plan: Plan, history: History, marks: seq<Mark>, hid: nat, h: Handle) {
    && plan.base <= |history|
    && (|plan.events| <= 1 || forall e :: e in plan.events ==> Bare(e))
    && (plan.events == [] ==> HandleOk(history, marks, hid, plan.acked) && SameRun(h, plan.acked))
    && (plan.events != [] ==>
          && HandleOk(history, marks, hid, plan.unobserved) && SameRun(h, plan.unobserved)
          && HandleOk(history, marks, hid, plan.unknown) && SameRun(h, plan.unknown)
          && HandleOk(history, marks, hid, plan.refused) && SameRun(h, plan.refused)
          && SameRun(h, plan.acked) && AckedOk(plan, history, marks, hid)
          && (plan.events[0].CaughtUp? ==>
                && |plan.events| == 1 && plan.base == h.view && !h.drained && h.stage.Running?
                && (forall outcome :: Left(plan, outcome).drained && Left(plan, outcome).drainSlot == h.view
                                      && !Left(plan, outcome).stage.NotRun?))
          && (plan.events[0].Promoted? ==>
                && |plan.events| == 1 && plan.base == h.drainSlot + 1 && h.drained && h.stage.Running?
                && CaughtUpBy(history, marks, h.drainSlot, hid) && CertifiedAt(history, plan.base, h)))
  }

  /** The acknowledged handle is well-formed on the extended stream. */
  ghost predicate AckedOk(plan: Plan, history: History, marks: seq<Mark>, hid: nat) {
    plan.base == |history| == |marks| && plan.events != [] ==>
      forall mark: Mark | mark.author == hid ::
        HandleOk(history + plan.events, marks + MarksFor(|plan.events|, mark), hid, plan.acked)
  }

  /** Facts about a prefix survive an extension. */
  lemma HandleOkExtends(history: History, marks: seq<Mark>, more: History, moreMarks: seq<Mark>, hid: nat, h: Handle)
    requires HandleOk(history, marks, hid, h) && |history| == |marks|
    ensures HandleOk(history + more, marks + moreMarks, hid, h)
  {
    hide FoldFrom, Apply;
    if h.promoteSlot != 0 {
      assert (history + more)[..h.drainSlot + 1] == history[..h.drainSlot + 1];
    }
  }

  /** Appending events and moving the view does not disturb a handle without a
      pending certificate slot. */
  lemma SendsOk(history: History, marks: seq<Mark>, hid: nat, h: Handle, g: Handle, plan: Plan)
    requires |history| == |marks| && HandleOk(history, marks, hid, h) && SameRun(h, g)
    requires HandleOk(history, marks, hid, g.(view := h.view))
    requires plan.acked == g && g.view == plan.base + |plan.events|
    ensures AckedOk(plan, history, marks, hid)
  {
    hide FoldFrom, Apply;
    if plan.base == |history| {
      forall mark: Mark | mark.author == hid
        ensures HandleOk(history + plan.events, marks + MarksFor(|plan.events|, mark), hid, plan.acked)
      {
        HandleOkExtends(history, marks, plan.events, MarksFor(|plan.events|, mark), hid, g.(view := h.view));
      }
    }
  }

  lemma CatchUpPlanOk(w: World, hid: nat, h: Handle, c: Command)
    requires c.RecordCatchUp? && Allowed(w.history, h, c)
    requires |w.history| == |w.marks| && HandleOk(w.history, w.marks, hid, h)
    ensures PlanShape(PlanOf(w.name, w.history, h, c), w.history, w.marks, hid, h)
  {
    hide FoldFrom, Apply, Valid;
    var plan := PlanOf(w.name, w.history, h, c);
    if plan.events != [] && plan.base == |w.history| {
      forall mark: Mark | mark.author == hid
        ensures HandleOk(w.history + plan.events, w.marks + MarksFor(1, mark), hid, plan.acked)
      {
        assert CaughtUpBy(w.history + plan.events, w.marks + MarksFor(1, mark), h.view, hid);
      }
    }
  }

  lemma PromotePlanOk(w: World, hid: nat, h: Handle, c: Command)
    requires c.Promote? && Allowed(w.history, h, c)
    requires |w.history| == |w.marks| && HandleOk(w.history, w.marks, hid, h)
    ensures PlanShape(PlanOf(w.name, w.history, h, c), w.history, w.marks, hid, h)
  {
    hide FoldFrom, Apply, Valid;
    var plan := PlanOf(w.name, w.history, h, c);
    if plan.events != [] {
      SendsOk(w.history, w.marks, hid, h, plan.acked, plan);
    }
  }

  lemma ClaimPlanOk(w: World, hid: nat, h: Handle, c: Command)
    requires c.Claim? && Allowed(w.history, h, c)
    requires |w.history| == |w.marks| && HandleOk(w.history, w.marks, hid, h)
    ensures PlanShape(PlanOf(w.name, w.history, h, c), w.history, w.marks, hid, h)
  {
    hide FoldFrom, Apply, Valid;
    var plan := PlanOf(w.name, w.history, h, c);
    if plan.events != [] {
      SendsOk(w.history, w.marks, hid, h, plan.acked, plan);
    }
  }

  /** The handle keeps its run's bindings, and at most loses its certificate.
      Only the commands of a retirement take its lock further. */
  predicate Milder(h: Handle, k: Handle, n: nat, locks: bool) {
    && (!locks ==> k.retire == h.retire || k.retire.NoRetire?)
    && k.target == h.target
    && (k.Active() ==> h.Active())
    && (k.stage.Exited? ==> h.Active() || h.stage.Exited?)
    && k.view <= n
    && k.runner == h.runner && k.runAttempt == h.runAttempt
    && k.drained == h.drained && k.drainSlot == h.drainSlot && k.promoteSlot == h.promoteSlot
    && (k.catchingUp ==> h.catchingUp)
    && (k.certificate.Some? ==> k.certificate == h.certificate && (h.stage.Running? ==> k.stage.Running?))
    && (k.stage.NotRun? <==> h.stage.NotRun?)
    && (h.Finished() ==> k.Finished())
  }

  lemma MilderOk(history: History, marks: seq<Mark>, hid: nat, h: Handle, k: Handle, locks: bool)
    requires HandleOk(history, marks, hid, h) && Milder(h, k, |history|, locks)
    ensures HandleOk(history, marks, hid, k) && SameRun(h, k)
  {
    hide FoldFrom, Apply;
  }

  /** A release is of the run's own claim, and ends it whatever becomes of the append. */
  predicate ReleasesOwn(plan: Plan, h: Handle, e: Event)
    requires e.RunnerReleased?
  {
    && h.stage.Exited? && e.runner == h.runner && |plan.events| == 1
    && plan.acked.stage.Over? && plan.unobserved.stage.Over? && plan.unknown.stage.Over? && plan.refused.stage.Over?
  }

  /** A plan that neither claims, certifies nor promotes. */
  predicate MildPlan(plan: Plan, h: Handle, n: nat, locks: bool) {
    && plan.base <= n
    && (forall e :: e in plan.events ==> !e.RunnerClaimed?)
    && (forall e :: e in plan.events && e.RunnerReleased? ==> ReleasesOwn(plan, h, e))
    && (forall e :: e in plan.events ==> Bare(e))
    && Milder(h, plan.acked.(view := plan.base), n, locks)
    && plan.acked.view == plan.base + |plan.events|
    && Milder(h, plan.unobserved, n, locks) && Milder(h, plan.unknown, n, locks) && Milder(h, plan.refused, n, locks)
  }

  lemma MildPlanOk(history: History, marks: seq<Mark>, hid: nat, h: Handle, plan: Plan, locks: bool)
    requires |history| == |marks| && HandleOk(history, marks, hid, h) && MildPlan(plan, h, |history|, locks)
    ensures PlanShape(plan, history, marks, hid, h)
  {
    hide HandleOk, Milder;
    var bare := plan.acked.(view := plan.base);
    MilderOk(history, marks, hid, h, bare, locks);
    MilderOk(history, marks, hid, h, plan.unobserved, locks);
    MilderOk(history, marks, hid, h, plan.unknown, locks);
    MilderOk(history, marks, hid, h, plan.refused, locks);
    if plan.events != [] {
      assert Bare(plan.events[0]);
      AckedExtends(history, marks, hid, plan);
    } else {
      assert bare == plan.acked;
    }
  }

  lemma AckedExtends(history: History, marks: seq<Mark>, hid: nat, plan: Plan)
    requires |history| == |marks| && HandleOk(history, marks, hid, plan.acked.(view := plan.base))
    requires plan.acked.view == plan.base + |plan.events|
    ensures AckedOk(plan, history, marks, hid)
  {
    if plan.base == |history| {
      forall mark: Mark | mark.author == hid
        ensures HandleOk(history + plan.events, marks + MarksFor(|plan.events|, mark), hid, plan.acked)
      {
        HandleOkExtends(history, marks, plan.events, MarksFor(|plan.events|, mark), hid, plan.acked.(view := plan.base));
      }
    }
  }

  lemma QuietMild(h: Handle, k: Handle, n: nat, locks: bool)
    requires Milder(h, k, n, locks)
    ensures MildPlan(Quiet(k), h, n, locks)
  {
  }

  lemma StopsMild(h: Handle, g: Handle, s: State, n: nat)
    requires Milder(h, g, n, false)
    ensures Milder(h, Superseded(g, s), n, false)
    ensures Milder(h, TerminalStop(g), n, false)
  {
  }

  /** Ending the attempt on a freshly read view. */
  lemma EndingMild(h: Handle, v: nat, a: Attempt, e: Event, n: nat)
    requires h.view <= n && v <= n && Bare(e) && !e.RunnerClaimed? && !e.RunnerReleased?
    ensures MildPlan(Ending(h.(view := v), a, e), h, n, false) && MildPlan(Quiet(h.(view := v)), h, n, false)
  {
  }

  lemma RollbackMild(name: string, history: History, h: Handle, v: nat, at: Time)
    requires v <= |history| && h.view <= |history|
    ensures MildPlan(PlanRollback(name, history, h, v, at), h, |history|, false)
  {
    hide CheckOk, At, Ending, Quiet, MildPlan;
    var s := At(history, v);
    EndingMild(h, v, s.attempt, Abandoned(""), |history|);
    if s.revision != MAX_INT64 {
      EndingMild(h, v, s.attempt, RolledBack(s.live, s.attempt.previous, s.revision + 1, at), |history|);
    }
  }

  lemma AbandonMild(name: string, history: History, h: Handle, v: nat, cause: string)
    requires v <= |history| && h.view <= |history|
    ensures MildPlan(PlanAbandon(name, history, h, v, cause), h, |history|, false)
  {
    hide CheckOk, At, Ending, Quiet, MildPlan;
    EndingMild(h, v, At(history, v).attempt, Abandoned(cause), |history|);
  }

  lemma ReleaseMild(name: string, history: History, h: Handle, at: Time)
    requires h.view <= |history|
    ensures MildPlan(PlanRelease(name, history, h, at), h, |history|, false)
  {
    hide CheckOk, At, MildPlan, Quiet, Sends, Milder;
    QuietMild(h, h, |history|, false) by { MilderRefl(h, |history|); }
    if h.stage.Exited? {
      OverMild(h, |history|);
      QuietMild(h, h.(stage := Over), |history|, false);
      OwnReleaseMild(h, At(history, h.view).attempt.id, |history|, at);
    }
  }

  lemma OverMild(h: Handle, n: nat)
    requires h.view <= n && h.stage.Exited?
    ensures Milder(h, h.(stage := Over), n, false)
  {
  }

  lemma OwnReleaseMild(h: Handle, attempt: UUID, n: nat, at: Time)
    requires h.view <= n && h.stage.Exited?
    ensures MildPlan(Sends(h.(stage := Over), [RunnerReleased(attempt, h.runner, at)]), h, n, false)
  {
  }

  lemma ReservedMild(h: Handle, e: Event, previous: ID, n: nat)
    requires h.view <= n && Bare(e) && !e.RunnerClaimed? && !e.RunnerReleased?
    ensures var plan := Sends(h, [e]);
            MildPlan(plan.(acked := plan.acked.(retire := Reserved(previous))), h, n, true) && MildPlan(Quiet(h), h, n, true)
  {
  }

  lemma ReserveMild(history: History, h: Handle, s: State, c: Command)
    requires c.Retire? && h.view <= |history|
    ensures MildPlan(PlanReserve(h, s, c), h, |history|, true)
  {
    hide Attest, RetirementPolicy.Zero, MildPlan, Sends, Quiet;
    var required := if c.authorization != UNATTESTED || s.policy.unwitnessed then [] else s.policy.witnesses;
    var receipts := Attest(c.answers, required, LiveCutover(s));
    ReservedMild(h, Abandoned(""), s.attempt.previous, |history|);
    if receipts.Some? {
      var e := RetireStarted(s.attempt.previous, s.policy.generation, required, receipts.value, c.authorization, c.at);
      ReservedMild(h, e, s.attempt.previous, |history|);
    }
  }

  lemma MildFrom(h: Handle, g: Handle, k: Plan, n: nat)
    requires Milder(h, g, n, true) && g.stage == h.stage && MildPlan(k, g, n, true)
    ensures MildPlan(k, h, n, true)
  {
  }

  lemma SendsMild(h: Handle, k: Handle, e: Event, n: nat)
    requires Milder(h, k, n, true) && Bare(e) && !e.RunnerClaimed? && !e.RunnerReleased?
    ensures MildPlan(Sends(k, [e]), h, n, true)
  {
  }

  lemma RechecksMild(h: Handle, g: Handle, previous: ID, s: State, answers: Answers, n: nat)
    requires Milder(h, g, n, true)
    ensures MildPlan(Rechecks(g, previous, s, answers), h, n, true)
  {
    hide Attest;
  }

  lemma RetireMild(name: string, history: History, h: Handle, c: Command)
    requires c.Retire? && c.v <= |history| && h.view <= |history|
    ensures MildPlan(PlanRetire(name, history, h, c), h, |history|, true)
  {
    hide CheckOk, At, Attest, PlanReserve, Rechecks, MildPlan, Quiet, Sends;
    var n := |history|;
    var g := h.(view := c.v);
    var s := At(history, c.v);
    QuietMild(h, g, n, true);
    RechecksMild(h, g, s.attempt.previous, s, c.answers, n);
    SendsMild(h, g, PreviousRetired(s.attempt.previous, []), n);
    ReserveMild(history, g, s, c);
    MildFrom(h, g, PlanReserve(g, s, c), n);
  }

  lemma ReattestMild(name: string, history: History, h: Handle, v: nat, answers: Answers)
    requires v <= |history| && h.view <= |history| && h.retire.Reserved?
    ensures MildPlan(PlanReattest(name, history, h, v, answers), h, |history|, true)
  {
    hide CheckOk, At, Rechecks, MildPlan, Quiet;
    var g := h.(view := v, retire := NoRetire);
    QuietMild(h, g, |history|, true);
    RechecksMild(h, g, h.retire.previous, At(history, v), answers, |history|);
  }

  lemma TeardownMild(history: History, h: Handle, succeeds: bool)
    requires h.view <= |history| && h.retire.Ready?
    ensures MildPlan(PlanTeardown(h, succeeds), h, |history|, true)
  {
    hide CheckOk, At, SlotPromoted;
  }

  lemma RecoverMild(name: string, history: History, h: Handle, v: nat, readable: bool)
    requires v <= |history| && h.view <= |history|
    ensures MildPlan(PlanRecover(name, history, h, v, readable), h, |history|, false)
  {
    hide CheckOk, At, SlotPromoted;
  }

  lemma ReconcileMild(name: string, history: History, h: Handle, v: nat, readable: bool)
    requires v <= |history| && h.view <= |history|
    ensures MildPlan(PlanReconcile(name, history, h, v, readable), h, |history|, false)
  {
    hide CheckOk, At, Superseded, TerminalStop, MildPlan, Quiet;
    var n := |history|;
    var g := h.(view := v);
    StopsMild(h, h, At(history, v), n);
    StopsMild(h, g, At(history, v), n);
    QuietMild(h, h, n, false);
    QuietMild(h, TerminalStop(h), n, false);
    QuietMild(h, Superseded(g, At(history, v)), n, false);
  }

  lemma SlotDefeatMild(name: string, history: History, h: Handle, slot: nat)
    requires h.view <= |history| && slot <= |history|
    ensures Milder(h, SlotDefeat(name, history, h, slot), |history|, false)
  {
    hide CheckOk, At;
  }

  lemma JudgePromotionMild(name: string, history: History, h: Handle)
    requires h.view <= |history|
    ensures MildPlan(PlanJudgePromotion(name, history, h), h, |history|, false)
  {
    hide CheckOk, At, JudgedPromoted, SlotDefeat, MildPlan, Quiet, Milder;
    QuietMild(h, h, |history|, false) by { MilderRefl(h, |history|); }
    QuietMild(h, h.(certificate := None), |history|, false) by { MilderRefl(h, |history|); }
    if 0 < h.promoteSlot <= |history| {
      SlotDefeatMild(name, history, h, h.promoteSlot);
      QuietMild(h, SlotDefeat(name, history, h, h.promoteSlot), |history|, false);
    }
  }

  lemma JudgeCatchUpMild(name: string, history: History, h: Handle)
    requires h.view <= |history|
    ensures MildPlan(PlanJudgeCatchUp(name, history, h), h, |history|, false)
  {
    hide CheckOk, At, SlotDefeat, MildPlan, Quiet, Milder;
    QuietMild(h, h, |history|, false) by { MilderRefl(h, |history|); }
    if h.drainSlot + 1 <= |history| {
      SlotDefeatMild(name, history, h, h.drainSlot + 1);
      QuietMild(h, SlotDefeat(name, history, h, h.drainSlot + 1), |history|, false);
    }
  }

  lemma MilderRefl(h: Handle, n: nat)
    requires h.view <= n
    ensures Milder(h, h, n, false) && Milder(h, h.(certificate := None), n, false)
  {
  }

  lemma OpeningPlansMild(name: string, history: History, c: Command)
    requires c.Opens() && Allowed(history, Fresh(c.Reads()), c)
    ensures MildPlan(PlanOf(name, history, Fresh(c.Reads()), c), Fresh(c.Reads()), |history|, false)
  {
    hide CheckOk, At, CanonicalWitnesses, ID.Valid;
  }

  /** The commands that move a retirement's lock from one stage to the next. */
  predicate Locks(c: Command) {
    c.Retire? || c.Reattest? || c.Teardown?
  }

  /** Every command but a claim, a catch-up and a promotion. */
  lemma OtherPlansMild(name: string, history: History, h: Handle, c: Command)
    requires Allowed(history, h, c) && (c.Opens() ==> h == Fresh(c.Reads()))
    requires !c.Claim? && !c.RecordCatchUp? && !c.Promote?
    ensures MildPlan(PlanOf(name, history, h, c), h, |history|, Locks(c))
  {
    hide MildPlan, PlanRollback, PlanAbandon, PlanRelease, PlanRetire, PlanReattest, PlanTeardown, PlanRecover,
      PlanReconcile, PlanJudgePromotion, PlanJudgeCatchUp;
    if c.Opens() {
      OpeningPlansMild(name, history, c);
    } else {
      match c
      case Rollback(v, at) => RollbackMild(name, history, h, v, at);
      case Abandon(v, cause) => AbandonMild(name, history, h, v, cause);
      case Release(at) => ReleaseMild(name, history, h, at);
      case Recover(v, readable) => RecoverMild(name, history, h, v, readable);
      case Reconcile(v, readable) => ReconcileMild(name, history, h, v, readable);
      case JudgePromotion => JudgePromotionMild(name, history, h);
      case JudgeCatchUp => JudgeCatchUpMild(name, history, h);
      case Retire(_, _, _, _, _) => RetireMild(name, history, h, c);
      case Reattest(v, answers) => ReattestMild(name, history, h, v, answers);
      case Teardown(succeeds) => TeardownMild(history, h, succeeds);
      case _ => PlainPlansMild(name, history, h, c);
    }
  }

  lemma PlainPlansMild(name: string, history: History, h: Handle, c: Command)
    requires Allowed(history, h, c)
    requires h.view <= |history|
    requires c.StartProcessor? || c.FailStart? || c.CompleteRetire? || c.AbortRetire? || c.PublishExit?
    ensures MildPlan(PlanOf(name, history, h, c), h, |history|, false)
  {
    hide MildPlan, Milder, Quiet, Sends;
    var n := |history|;
    PlainMild(h, n);
    QuietMild(h, h, n, false);
    QuietMild(h, h.(stage := if h.stage.Claimed? then Running else h.stage), n, false);
    QuietMild(h, h.(retire := NoRetire), n, false);
    if h.stage.Claimed? {
      QuietMild(h, h.(stage := Exited, catchingUp := false), n, false);
    }
    if h.stage.Running? {
      QuietMild(h, h.(stage := Exited, certificate := None), n, false);
    }
    if h.retire.TornDown? {
      CompletionMild(h, n);
    }
  }

  lemma PlainMild(h: Handle, n: nat)
    requires h.view <= n
    ensures Milder(h, h, n, false) && Milder(h, h.(stage := if h.stage.Claimed? then Running else h.stage), n, false)
    ensures Milder(h, h.(retire := NoRetire), n, false)
    ensures h.stage.Claimed? ==> Milder(h, h.(stage := Exited, catchingUp := false), n, false)
    ensures h.stage.Running? ==> Milder(h, h.(stage := Exited, certificate := None), n, false)
  {
  }

  lemma CompletionMild(h: Handle, n: nat)
    requires h.view <= n && h.retire.TornDown?
    ensures MildPlan(Sends(h.(retire := NoRetire), [PreviousRetired(h.retire.previous, h.retire.receipts)]), h, n, false)
  {
  }

  lemma FreshOk(history: History, marks: seq<Mark>, hid: nat, c: Command)
    requires c.Reads() <= |history|
    ensures HandleOk(history, marks, hid, Fresh(c.Reads()))
  {
  }

  lemma PlanOk(w: World, hid: nat, h: Handle, c: Command)
    requires HandleFor(w, hid, c) == Some(h) && Allowed(w.history, h, c) && Inv(w)
    ensures PlanShape(PlanOf(w.name, w.history, h, c), w.history, w.marks, hid, h)
  {
    hide PlanOf, PlanShape, HandleOk, EntryOk, MessageOk, MildPlan;
    FreshOk(w.history, w.marks, hid, c);
    if c.RecordCatchUp? {
      CatchUpPlanOk(w, hid, h, c);
    } else if c.Promote? {
      PromotePlanOk(w, hid, h, c);
    } else if c.Claim? {
      ClaimPlanOk(w, hid, h, c);
    } else {
      OtherPlansMild(w.name, w.history, h, c);
      MildPlanOk(w.history, w.marks, hid, h, PlanOf(w.name, w.history, h, c), Locks(c));
    }
  }

  // ---------------------------------------------------------------------------
  // What a step keeps
  // ---------------------------------------------------------------------------

  /** Handles are never lost, and each keeps its run's bindings. */
  ghost predicate Carries(handles: map<nat, Handle>, after: map<nat, Handle>) {
    forall hid :: hid in handles ==> hid in after && SameRun(handles[hid], after[hid])
  }

  lemma EventOkStays(w: World, v: World, i: nat, e: Event, author: nat)
    requires |w.history| == |w.marks| && w.history <= v.history && w.marks <= v.marks && |v.history| == |v.marks|
    requires Carries(w.handles, v.handles)
    requires i <= |w.history| && EventOk(w.history, w.marks, w.handles, i, e, author)
    ensures EventOk(v.history, v.marks, v.handles, i, e, author)
  {
    hide FoldFrom, Apply;
    assert v.history[..i] == w.history[..i];
  }

  lemma OldEntriesStay(w: World, v: World)
    requires Inv(w)
    requires w.history <= v.history && w.marks <= v.marks && |v.history| == |v.marks|
    requires Carries(w.handles, v.handles)
    ensures forall i :: 0 <= i < |w.history| ==> EntryOk(v, i)
    ensures forall m :: m in w.inFlight ==> MessageOk(v, m)
  {
    hide EventOk, SameRun, HandleOk;
    forall i | 0 <= i < |w.history| ensures EntryOk(v, i) {
      assert EntryOk(w, i);
      EventOkStays(w, v, i, w.history[i], w.marks[i].author);
    }
    forall m | m in w.inFlight ensures MessageOk(v, m) {
      assert MessageOk(w, m);
      EventOkStays(w, v, m.expected, m.events[0], m.author);
    }
  }

  /** What the step leaves of the acting handle. */
  lemma ActorOk(w: World, hid: nat, h: Handle, c: Command, outcome: Outcome, plan: Plan)
    requires Inv(w) && PlanShape(plan, w.history, w.marks, hid, h)
    requires outcome.Commits() ==> plan.base == |w.history|
    ensures var v := Execute(w, hid, c, outcome, plan);
            HandleOk(v.history, v.marks, hid, v.handles[hid]) && SameRun(h, v.handles[hid])
  {
    hide HandleOk, SameRun, EntryOk, MessageOk, CaughtUpBy, CertifiedAt;
    var v := Execute(w, hid, c, outcome, plan);
    var mark := Mark(hid, false, ExitedBy(w, hid));
    if plan.events == [] || !outcome.Commits() {
      assert v.history == w.history && v.marks == w.marks;
    } else if outcome.Acked? {
      assert AckedOk(plan, w.history, w.marks, hid);
    } else {
      HandleOkExtends(w.history, w.marks, plan.events, MarksFor(|plan.events|, mark), hid, Left(plan, outcome));
    }
  }

  lemma OthersOk(w: World, v: World, hid: nat)
    requires Inv(w) && w.history <= v.history && w.marks <= v.marks && |v.history| == |v.marks|
    requires forall k :: k in v.handles && k != hid ==> k in w.handles && v.handles[k] == w.handles[k]
    requires hid in v.handles ==> HandleOk(v.history, v.marks, hid, v.handles[hid])
    ensures forall k :: k in v.handles ==> HandleOk(v.history, v.marks, k, v.handles[k])
  {
    hide HandleOk, EntryOk, MessageOk;
    forall k | k in v.handles ensures HandleOk(v.history, v.marks, k, v.handles[k]) {
      if k != hid {
        assert HandleOk(w.history, w.marks, k, w.handles[k]);
        HandleOkExtends(w.history, w.marks, v.history[|w.history|..], v.marks[|w.marks|..], k, w.handles[k]);
        assert w.history + v.history[|w.history|..] == v.history;
        assert w.marks + v.marks[|w.marks|..] == v.marks;
      }
    }
  }

  /** The events a plan sends are where their author's drain says, once sent. */
  lemma SentEventOk(w: World, hid: nat, h: Handle, c: Command, outcome: Outcome, plan: Plan)
    requires Inv(w) && PlanShape(plan, w.history, w.marks, hid, h) && plan.events != []
    requires outcome.Commits() ==> plan.base == |w.history|
    ensures var v := Execute(w, hid, c, outcome, plan);
            && plan.base <= |v.history| == |v.marks|
            && EventOk(v.history, v.marks, v.handles, plan.base, plan.events[0], hid)
  {
    hide FoldFrom, Apply, HandleOk, EntryOk, MessageOk, AckedOk;
    var v := Execute(w, hid, c, outcome, plan);
    assert w.history <= v.history && w.marks <= v.marks;
    assert v.history[..plan.base] == w.history[..plan.base];
    assert v.handles[hid] == Left(plan, outcome);
    if plan.events[0].Promoted? {
      assert CaughtUpBy(w.history, w.marks, h.drainSlot, hid);
      assert CaughtUpBy(v.history, v.marks, h.drainSlot, hid);
    }
  }

  lemma NewEntriesOk(w: World, hid: nat, h: Handle, c: Command, outcome: Outcome, plan: Plan)
    requires Inv(w) && PlanShape(plan, w.history, w.marks, hid, h)
    requires HandleFor(w, hid, c) == Some(h)
    requires outcome.Commits() ==> plan.base == |w.history|
    ensures var v := Execute(w, hid, c, outcome, plan);
            |v.history| == |v.marks| && forall i :: |w.history| <= i < |v.history| ==> EntryOk(v, i)
  {
    hide FoldFrom, Apply, HandleOk, MessageOk, AckedOk, CertifiedAt, CaughtUpBy;
    var v := Execute(w, hid, c, outcome, plan);
    if outcome.Commits() && plan.events != [] {
      SentEventOk(w, hid, h, c, outcome, plan);
      forall i | |w.history| <= i < |v.history| ensures EntryOk(v, i) {
        assert v.history[i] == plan.events[i - |w.history|];
        assert v.marks[i] == Mark(hid, false, ExitedBy(w, hid));
        if |plan.events| > 1 {
          assert Bare(plan.events[i - |w.history|]);
        }
      }
    }
  }

  lemma DoKeepsInv(w: World, a: Action)
    requires Inv(w) && Enabled(w, a) && a.Do?
    ensures Inv(Step(w, a)) && Carries(w.handles, Step(w, a).handles)
  {
    hide HandleOk, EventOk, PlanOf, Allowed, CaughtUpBy, CertifiedAt;
    var Do(hid, c, outcome) := a;
    var h := HandleFor(w, hid, c).value;
    var plan := PlanOf(w.name, w.history, h, c);
    var v := Step(w, a);
    PlanOk(w, hid, h, c);
    ActorOk(w, hid, h, c, outcome, plan);
    assert Carries(w.handles, v.handles) by {
      hide PlanShape, Inv;
      CarriesOthers(w, hid, h, c, outcome, plan);
    }
    InvFrom(w, hid, h, c, outcome, plan);
  }

  lemma SameRunRefl(h: Handle)
    ensures SameRun(h, h)
  {
  }

  lemma CarriesOthers(w: World, hid: nat, h: Handle, c: Command, outcome: Outcome, plan: Plan)
    requires HandleFor(w, hid, c) == Some(h)
    requires SameRun(h, Execute(w, hid, c, outcome, plan).handles[hid])
    ensures Carries(w.handles, Execute(w, hid, c, outcome, plan).handles)
  {
    hide SameRun;
    var v := Execute(w, hid, c, outcome, plan);
    forall k | k in w.handles ensures k in v.handles && SameRun(w.handles[k], v.handles[k]) {
      SameRunRefl(w.handles[k]);
    }
  }

  lemma InvFrom(w: World, hid: nat, h: Handle, c: Command, outcome: Outcome, plan: Plan)
    requires Inv(w) && PlanShape(plan, w.history, w.marks, hid, h) && HandleFor(w, hid, c) == Some(h)
    requires outcome.Commits() ==> plan.base == |w.history|
    requires var v := Execute(w, hid, c, outcome, plan);
             HandleOk(v.history, v.marks, hid, v.handles[hid]) && Carries(w.handles, v.handles)
    ensures Inv(Execute(w, hid, c, outcome, plan))
  {
    hide HandleOk, EventOk, EntryOk, CaughtUpBy, CertifiedAt, SameRun, AckedOk, Carries;
    var v := Execute(w, hid, c, outcome, plan);
    assert w.history <= v.history && w.marks <= v.marks && |v.history| == |v.marks|;
    OldEntriesStay(w, v);
    NewEntriesOk(w, hid, h, c, outcome, plan);
    OthersOk(w, v, hid);
    if outcome.InFlight? && plan.events != [] {
      SentEventOk(w, hid, h, c, outcome, plan);
      assert MessageOk(v, Message(plan.base, plan.events, hid));
    }
  }

  lemma LandKeepsInv(w: World, a: Action)
    requires Inv(w) && Enabled(w, a) && a.Land?
    ensures Inv(Step(w, a)) && Carries(w.handles, Step(w, a).handles)
  {
    hide HandleOk, EventOk, CaughtUpBy, CertifiedAt, SameRun;
    var v := Step(w, a);
    var m := w.inFlight[a.index];
    assert MessageOk(w, m);
    forall k | k in w.handles ensures SameRun(w.handles[k], v.handles[k]) {
      SameRunRefl(w.handles[k]);
    }
    OldEntriesStay(w, v);
    OthersOk(w, v, 0) by {
      if 0 in w.handles {
        assert HandleOk(w.history, w.marks, 0, w.handles[0]);
        HandleOkExtends(w.history, w.marks, m.events, MarksFor(|m.events|, Mark(m.author, true, ExitedBy(w, m.author))), 0, w.handles[0]);
      }
    }
    EventOkStays(w, v, m.expected, m.events[0], m.author);
    forall i | |w.history| <= i < |v.history| ensures EntryOk(v, i) {
      assert v.history[i] == m.events[i - |w.history|];
      assert v.marks[i].author == m.author && v.marks[i].late;
      if |m.events| > 1 {
        BareIsOk(v, i, m.events[i - |w.history|], m.author);
      }
    }
  }

  lemma BareIsOk(w: World, i: nat, e: Event, author: nat)
    requires Bare(e) && i <= |w.history|
    ensures EventOk(w.history, w.marks, w.handles, i, e, author)
  {
  }

  lemma StepKeepsInv(w: World, a: Action)
    requires Inv(w) && Enabled(w, a)
    ensures Inv(Step(w, a)) && Carries(w.handles, Step(w, a).handles)
  {
    hide Inv, Step, Enabled, Carries;
    if a.Do? {
      DoKeepsInv(w, a);
    } else {
      LandKeepsInv(w, a);
    }
  }

  lemma {:induction false} RunsKeepInv(w: World, actions: seq<Action>)
    requires Inv(w) && Runs(w, actions)
    ensures Inv(Final(w, actions))
    decreases |actions|
  {
    hide Inv, Step, Enabled;
    if actions == [] {
    } else {
      StepKeepsInv(w, actions[0]);
      RunsKeepInv(Step(w, actions[0]), actions[1..]);
    }
  }

  // ---------------------------------------------------------------------------
  // The results
  // ---------------------------------------------------------------------------

  /** A recorded promotion, as it should be: right after its own run's catch-up,
      with that run's attempt caught up and claimed by that run's runner, and not
      after the run's exit unless it landed late. */
  predicate Certified(w: World, i: nat)
    requires i < |w.history| == |w.marks|
  {
    var author := w.marks[i].author;
    && i >= 1
    && CaughtUpBy(w.history, w.marks, i - 1, author)
    && author in w.handles
    && CertifiedAt(w.history, i, w.handles[author])
    && (!w.marks[i].late ==> !w.marks[i].exited)
  }

  predicate PromotionBy(w: World, i: int, author: nat) {
    0 <= i < |w.history| && i < |w.marks| && w.history[i].Promoted? && w.marks[i].author == author
  }

  ghost predicate OnePromotionPerRun(w: World) {
    forall i, j, author :: PromotionBy(w, i, author) && PromotionBy(w, j, author) ==> i == j
  }

  /** Every promotion recorded in any run of any number of handles is certified,
      and no run records two. */
  lemma PromotionsAreCertifiedOnce(name: string, actions: seq<Action>)
    requires Runs(Init(name), actions)
    ensures var w := Final(Init(name), actions);
            && |w.history| == |w.marks|
            && (forall i :: 0 <= i < |w.history| && w.history[i].Promoted? ==> Certified(w, i))
            && OnePromotionPerRun(w)
  {
    RunsKeepInv(Init(name), actions);
    InvIsCertified(Final(Init(name), actions));
  }

  lemma InvIsCertified(w: World)
    requires Inv(w)
    ensures forall i :: 0 <= i < |w.history| && w.history[i].Promoted? ==> Certified(w, i)
    ensures OnePromotionPerRun(w)
  {
    hide FoldFrom, Apply, HandleOk, MessageOk;
    forall i | 0 <= i < |w.history| && w.history[i].Promoted? ensures Certified(w, i) {
      assert EntryOk(w, i);
    }
    forall i, j, author | PromotionBy(w, i, author) && PromotionBy(w, j, author) ensures i == j {
      assert EntryOk(w, i) && EntryOk(w, j);
    }
  }

  lemma InitOk(name: string)
    ensures Inv(Init(name))
  {
  }

  lemma InvSizes(w: World)
    requires Inv(w)
    ensures |w.history| == |w.marks|
  {
  }

  // ---------------------------------------------------------------------------
  // Which command sends what
  // ---------------------------------------------------------------------------

  /** Only a catch-up command sends a catch-up, and nothing else. */
  lemma CatchUpIsOwn(name: string, history: History, h: Handle, c: Command)
    requires Allowed(history, h, c) && c.RecordCatchUp?
    ensures PlanOf(name, history, h, c) == PlanRecordCatchUp(h, c.position, c.duration, c.at)
    ensures PlanOf(name, history, h, c).base == h.view
    ensures var events := PlanOf(name, history, h, c).events;
            events == [] || (|events| == 1 && events[0].CaughtUp?)
  {
  }

  lemma MildIsBare(h: Handle, plan: Plan, n: nat, locks: bool)
    requires MildPlan(plan, h, n, locks)
    ensures forall e :: e in plan.events ==> Bare(e)
  {
  }

  lemma OthersSendBare(w: World, hid: nat, h: Handle, c: Command)
    requires HandleFor(w, hid, c) == Some(h) && Allowed(w.history, h, c) && !c.RecordCatchUp? && !c.Promote?
    ensures forall e :: e in PlanOf(w.name, w.history, h, c).events ==> Bare(e)
  {
    hide At, CheckOk, MildPlan, ClaimDefeat,
      PlanRollback, PlanAbandon, PlanRelease, PlanRetire, PlanReattest, PlanTeardown, PlanRecover,
      PlanReconcile, PlanJudgePromotion, PlanJudgeCatchUp, PlanBegin, PlanSetPolicy, PlanRecordCatchUp, PlanPromote;
    if !c.Claim? {
      OtherPlansMild(w.name, w.history, h, c);
      MildIsBare(h, PlanOf(w.name, w.history, h, c), |w.history|, Locks(c));
    }
  }

  /** Only a promote command sends a promotion. */
  lemma PromotionsAreSentByPromote(w: World, hid: nat, h: Handle, c: Command)
    requires HandleFor(w, hid, c) == Some(h) && Allowed(w.history, h, c)
    ensures c.Promote? ==> PlanOf(w.name, w.history, h, c) == PlanPromote(w.name, w.history, h, c.at)
    ensures !c.Promote? ==> forall e :: e in PlanOf(w.name, w.history, h, c).events ==> !e.Promoted?
    ensures !c.RecordCatchUp? ==> forall e :: e in PlanOf(w.name, w.history, h, c).events ==> !e.CaughtUp?
  {
    hide At, CheckOk, PlanPromote,
      PlanRollback, PlanAbandon, PlanRelease, PlanRetire, PlanReattest, PlanTeardown, PlanRecover,
      PlanReconcile, PlanJudgePromotion, PlanJudgeCatchUp, PlanBegin, PlanSetPolicy, PlanClaim, PlanRecordCatchUp;
    if c.RecordCatchUp? {
      CatchUpIsOwn(w.name, w.history, h, c);
    } else if c.Promote? {
      PromoteSendsPromotion(w.name, w.history, h, c.at);
    } else {
      OthersSendBare(w, hid, h, c);
    }
  }

  lemma PromoteSendsPromotion(name: string, history: History, h: Handle, at: Time)
    requires h.view <= |history|
    ensures forall e :: e in PlanPromote(name, history, h, at).events ==> e.Promoted?
  {
    hide At, CheckOk;
  }
}
