/** Teardown is safe: a handle destroys a version's storage only after its
    retirement is durably reserved, and in no clean continuation does that
    version serve reads then or ever again. */
module RetirementSafety {
  import opened Base
  import opened LifecycleState
  import opened LifecycleEvents
  import opened CleanHistories
  import opened Protocol
  import opened PromotionSafety

  // ---------------------------------------------------------------------------
  // The invariant
  // ---------------------------------------------------------------------------

  /** Between its check and its completion a Retire call holds a view that shows
      its reservation, and receipts that attest the live cutover. */
  predicate HoldsReservation(name: string, history: History, h: Handle) {
    h.retire.Ready? || h.retire.TornDown? ==>
      && h.view <= |history| && CheckOk(name, history, h.view)
      && (var s := At(history, h.view);
          && s.attempt.phase.PhaseRetiring? && s.attempt.previous == h.retire.previous
          && ReceiptsAttest(h.retire.receipts, s.attempt.retiringWitnesses, Cutover(s.live, s.revision)))
  }

  predicate Reserves(history: History, i: int, version: ID) {
    0 <= i < |history| && history[i].RetireStarted? && history[i].retiring == version
  }

  ghost predicate ReservedBefore(history: History, length: nat, version: ID) {
    exists i :: i < length && Reserves(history, i, version)
  }

  ghost predicate TeardownInv(w: World) {
    && (forall hid :: hid in w.handles ==> HoldsReservation(w.name, w.history, w.handles[hid]))
    && forall t :: t in w.torn ==> t.length <= |w.history| && ReservedBefore(w.history, t.length, t.version)
  }

  /** A retiring attempt was put there by the reservation of its previous version. */
  lemma {:induction false} RetiringWasReserved(h: History)
    requires Clean(h) && Fold(h).attempt.phase.PhaseRetiring?
    ensures ReservedBefore(h, |h|, Fold(h).attempt.previous)
  {
    if h == [] {
    } else {
      var last := |h| - 1;
      AtStep(h, last);
      assert h[..|h|] == h;
      if h[last].RetireStarted? {
        assert Reserves(h, last, h[last].retiring);
      } else {
        CleanPrefix(h, last);
        StaysRetiring(At(h, last), h[last]);
        RetiringWasReserved(h[..last]);
        var i :| i < last && Reserves(h[..last], i, Fold(h).attempt.previous);
        assert Reserves(h, i, Fold(h).attempt.previous);
      }
    }
  }

  lemma StaysRetiring(s: State, e: Event)
    requires Apply(s, e).attempt.phase.PhaseRetiring? && !e.RetireStarted?
    ensures s.attempt.phase.PhaseRetiring? && Apply(s, e).attempt.previous == s.attempt.previous
  {
  }

  // ---------------------------------------------------------------------------
  // What a plan keeps
  // ---------------------------------------------------------------------------

  predicate Loose(h: Handle) {
    h.retire.NoRetire? || h.retire.Reserved?
  }

  predicate PlanHolds(name: string, history: History, plan: Plan) {
    && (plan.events == [] ==> HoldsReservation(name, history, plan.acked))
    && (plan.events != [] ==> Loose(plan.acked) && Loose(plan.unobserved) && Loose(plan.unknown) && Loose(plan.refused))
  }

  lemma RechecksHold(name: string, history: History, h: Handle, previous: ID, answers: Answers)
    requires h.view <= |history| && CheckOk(name, history, h.view) && Loose(h)
    requires At(history, h.view).attempt.phase.PhaseRetiring? && At(history, h.view).attempt.previous == previous
    ensures var plan := Rechecks(h, previous, At(history, h.view), answers);
            PlanHolds(name, history, plan) && plan.tears.None?
  {
    hide At, CheckOk, Attest;
    var s := At(history, h.view);
    AttestIsUnanimous(answers, s.attempt.retiringWitnesses, LiveCutover(s));
  }

  lemma RetirePlanHolds(name: string, history: History, h: Handle, c: Command)
    requires c.Retire? && c.v <= |history| && h.retire.NoRetire?
    ensures PlanHolds(name, history, PlanRetire(name, history, h, c)) && PlanRetire(name, history, h, c).tears.None?
  {
    hide At, CheckOk, Attest, Rechecks;
    var s := At(history, c.v);
    if CheckOk(name, history, c.v) && s.attempt.phase.PhaseRetiring? {
      RechecksHold(name, history, h.(view := c.v), s.attempt.previous, c.answers);
    }
  }

  lemma ReattestPlanHolds(name: string, history: History, h: Handle, v: nat, answers: Answers)
    requires v <= |history| && h.retire.Reserved?
    ensures PlanHolds(name, history, PlanReattest(name, history, h, v, answers))
    ensures PlanReattest(name, history, h, v, answers).tears.None?
  {
    hide At, CheckOk, Attest, Rechecks;
    var s := At(history, v);
    if CheckOk(name, history, v) && s.attempt.phase.PhaseRetiring? && s.attempt.previous == h.retire.previous {
      RechecksHold(name, history, h.(view := v, retire := NoRetire), h.retire.previous, answers);
    }
  }

  lemma TeardownPlanHolds(name: string, history: History, h: Handle, succeeds: bool)
    requires h.retire.Ready? && HoldsReservation(name, history, h)
    ensures PlanHolds(name, history, PlanTeardown(h, succeeds))
    ensures PlanTeardown(h, succeeds).tears == Some(h.retire.previous)
  {
    hide At, CheckOk;
  }

  /** A claim, a catch-up and a promotion leave the lock alone. */
  lemma RunPlansLoose(name: string, history: History, h: Handle, c: Command)
    requires Allowed(history, h, c) && h.retire.NoRetire?
    requires c.Claim? || c.RecordCatchUp? || c.Promote?
    ensures PlanHolds(name, history, PlanOf(name, history, h, c)) && PlanOf(name, history, h, c).tears.None?
  {
    hide At, CheckOk;
    match c
    case Claim(_, _, _, _, _) => ClaimPlanLoose(name, history, h, c);
    case RecordCatchUp(position, duration, at) =>
    case Promote(at) =>
  }

  lemma ClaimPlanLoose(name: string, history: History, h: Handle, c: Command)
    requires c.Claim? && c.v <= |history| && h.retire.NoRetire?
    ensures PlanHolds(name, history, PlanClaim(name, history, h, c)) && PlanClaim(name, history, h, c).tears.None?
  {
    hide At, CheckOk, Attempt.Standing;
  }

  lemma MildPlanLoose(name: string, history: History, h: Handle, plan: Plan)
    requires MildPlan(plan, h, |history|, false) && Loose(h)
    ensures PlanHolds(name, history, plan)
  {
  }

  lemma OnlyTeardownTears(name: string, history: History, h: Handle, c: Command)
    requires Allowed(history, h, c) && !c.Teardown? && !c.Claim? && !c.RecordCatchUp? && !c.Promote? && !Locks(c)
    ensures PlanOf(name, history, h, c).tears.None?
  {
    hide At, CheckOk, Ended, Superseded, TerminalStop, SlotDefeat, SlotPromoted, CanonicalWitnesses;
  }

  lemma ReleasingPlans(name: string, history: History, h: Handle, c: Command)
    requires Allowed(history, h, c) && (c.CompleteRetire? || c.AbortRetire?)
    ensures PlanHolds(name, history, PlanOf(name, history, h, c)) && PlanOf(name, history, h, c).tears.None?
  {
    hide PlanRollback, PlanAbandon, PlanRelease, PlanRetire, PlanReattest, PlanTeardown, PlanRecover,
      PlanReconcile, PlanJudgePromotion, PlanJudgeCatchUp, PlanBegin, PlanSetPolicy, PlanClaim, PlanRecordCatchUp,
      PlanPromote;
  }

  lemma PlanKeepsReservation(w: World, hid: nat, h: Handle, c: Command)
    requires HandleFor(w, hid, c) == Some(h) && Allowed(w.history, h, c) && TeardownInv(w)
    ensures PlanHolds(w.name, w.history, PlanOf(w.name, w.history, h, c))
    ensures var tears := PlanOf(w.name, w.history, h, c).tears;
            tears.Some? ==> ReservedBefore(w.history, |w.history|, tears.value)
  {
    hide HoldsReservation, MildPlan, PlanHolds, ReservedBefore,
      PlanRollback, PlanAbandon, PlanRelease, PlanRetire, PlanReattest, PlanTeardown, PlanRecover,
      PlanReconcile, PlanJudgePromotion, PlanJudgeCatchUp, PlanBegin, PlanSetPolicy, PlanClaim, PlanRecordCatchUp,
      PlanPromote;
    var name, history := w.name, w.history;
    match c
    case Retire(_, _, _, _, _) => RetirePlanHolds(name, history, h, c);
    case Reattest(v, answers) => ReattestPlanHolds(name, history, h, v, answers);
    case Teardown(succeeds) =>
      TeardownPlanHolds(name, history, h, succeeds);
      HeldWasReserved(name, history, h);
    case CompleteRetire => ReleasingPlans(name, history, h, c);
    case AbortRetire => ReleasingPlans(name, history, h, c);
    case Claim(_, _, _, _, _) => RunPlansLoose(name, history, h, c);
    case RecordCatchUp(_, _, _) => RunPlansLoose(name, history, h, c);
    case Promote(_) => RunPlansLoose(name, history, h, c);
    case _ =>
      OtherPlansMild(name, history, h, c);
      MildPlanLoose(name, history, h, PlanOf(name, history, h, c));
      OnlyTeardownTears(name, history, h, c);
  }

  lemma HeldWasReserved(name: string, history: History, h: Handle)
    requires h.retire.Ready? && HoldsReservation(name, history, h)
    ensures ReservedBefore(history, |history|, h.retire.previous)
  {
    hide FoldFrom, Apply;
    RetiringWasReserved(history[..h.view]);
    var i :| i < h.view && Reserves(history[..h.view], i, h.retire.previous);
    assert Reserves(history, i, h.retire.previous);
  }

  // ---------------------------------------------------------------------------
  // What a step keeps
  // ---------------------------------------------------------------------------

  lemma HoldsExtends(name: string, history: History, more: History, h: Handle)
    requires HoldsReservation(name, history, h)
    ensures HoldsReservation(name, history + more, h)
  {
    hide FoldFrom, Apply, Valid;
    if h.retire.Ready? || h.retire.TornDown? {
      assert (history + more)[..h.view] == history[..h.view];
    }
  }

  lemma ReservedExtends(history: History, more: History, length: nat, version: ID)
    requires ReservedBefore(history, length, version)
    ensures ReservedBefore(history + more, length, version)
  {
    var i :| i < length && Reserves(history, i, version);
    assert Reserves(history + more, i, version);
  }

  lemma LooseHolds(name: string, history: History, h: Handle)
    requires Loose(h)
    ensures HoldsReservation(name, history, h)
  {
  }

  lemma StepKeepsTeardownInv(w: World, a: Action)
    requires TeardownInv(w) && Enabled(w, a)
    ensures TeardownInv(Step(w, a))
  {
    hide HoldsReservation, PlanOf, Allowed, ReservedBefore, Loose;
    var v := Step(w, a);
    if a.Do? {
      var h := HandleFor(w, a.hid, a.command).value;
      var plan := PlanOf(w.name, w.history, h, a.command);
      PlanKeepsReservation(w, a.hid, h, a.command);
    }
    assert v.history[..|w.history|] == w.history;
    var more := v.history[|w.history|..];
    assert v.history == w.history + more;
    forall k | k in v.handles ensures HoldsReservation(v.name, v.history, v.handles[k]) {
      if a.Do? && k == a.hid {
        var plan := PlanOf(w.name, w.history, HandleFor(w, a.hid, a.command).value, a.command);
        if plan.events == [] {
          HoldsExtends(w.name, w.history, more, plan.acked);
        } else {
          LooseHolds(v.name, v.history, v.handles[k]);
        }
      } else {
        HoldsExtends(w.name, w.history, more, w.handles[k]);
      }
    }
    forall t | t in v.torn ensures t.length <= |v.history| && ReservedBefore(v.history, t.length, t.version) {
      ReservedExtends(w.history, more, t.length, t.version);
    }
  }

  lemma {:induction false} RunsKeepTeardownInv(w: World, actions: seq<Action>)
    requires TeardownInv(w) && Runs(w, actions)
    ensures TeardownInv(Final(w, actions))
    decreases |actions|
  {
    hide TeardownInv, Step, Enabled;
    if actions == [] {
    } else {
      StepKeepsTeardownInv(w, actions[0]);
      RunsKeepTeardownInv(Step(w, actions[0]), actions[1..]);
    }
  }

  // ---------------------------------------------------------------------------
  // The result
  // ---------------------------------------------------------------------------

  /** The version does not serve reads at any clean point from `length` on. */
  ghost predicate NeverServes(history: History, length: nat, version: ID) {
    forall j :: length <= j <= |history| && Clean(history[..j]) ==> At(history, j).live.version != version.version
  }

  /** Every teardown of every run was preceded by the durable reservation of
      exactly that version, and the version is not live then nor at any clean
      point of any continuation. */
  lemma TeardownIsSafe(name: string, actions: seq<Action>, more: seq<Action>, t: Destruction)
    requires Runs(Init(name), actions) && Runs(Final(Init(name), actions), more)
    requires t in Final(Init(name), actions).torn
    ensures var w := Final(Init(name), actions);
            && ReservedBefore(w.history, t.length, t.version)
            && NeverServes(Final(w, more).history, t.length, t.version)
  {
    hide HoldsReservation, Step, Enabled, Runs, Final;
    RunsKeepTeardownInv(Init(name), actions);
    var w := Final(Init(name), actions);
    StreamGrows(w, more);
    ReservedNeverServes(w.history, Final(w, more).history, t.length, t.version);
  }

  lemma ReservedNeverServes(history: History, later: History, length: nat, version: ID)
    requires history <= later && length <= |history| && ReservedBefore(history, length, version)
    ensures NeverServes(later, length, version)
  {
    hide FoldFrom, Apply;
    var i :| i < length && Reserves(history, i, version);
    forall j | length <= j <= |later| && Clean(later[..j]) ensures At(later, j).live.version != version.version {
      assert later[..j][i] == history[i];
      RetirementIsIrrevocable(later[..j], i, j);
      assert later[..j][..j] == later[..j];
    }
  }
}
