/** What ending an attempt does to the run of the handle that ended it: a recorded
    rollback or abandonment of the run's own attempt stops the run for good, and one
    of any other attempt leaves the run alone. */
module EndedRuns {
  import opened Base
  import opened LifecycleEvents
  import opened CleanHistories
  import opened Protocol
  import opened PromotionSafety
  import opened RunDiscipline

  predicate Ends(a: Action) {
    a.Do? && (a.command.Rollback? || a.command.Abandon?)
  }

  /** The handle learned that its append is durable, and it was one. */
  predicate KnownRecorded(w: World, a: Action)
    requires Enabled(w, a)
  {
    a.Do? && (a.outcome.Acked? || a.outcome.Unobserved?) && Step(w, a).history != w.history
  }

  /** The attempt at the head of the stream is the one the handle's run works on. */
  predicate OwnAttempt(w: World, hid: nat)
    requires hid in w.handles
  {
    Fold(w.history).attempt.id == w.handles[hid].runAttempt
  }

  lemma RollbackMarks(name: string, history: History, h: Handle, v: nat, at: Time, outcome: Outcome)
    requires v <= |history|
    ensures var plan := PlanRollback(name, history, h, v, at);
            MarksAfter(h, LeftBy(plan, outcome), At(history, v).attempt.id,
                       plan.events != [] && (outcome.Acked? || outcome.Unobserved?))
            && plan.base == v
  {
    hide At, CheckOk;
  }

  lemma AbandonMarks(name: string, history: History, h: Handle, v: nat, cause: string, outcome: Outcome)
    requires v <= |history|
    ensures var plan := PlanAbandon(name, history, h, v, cause);
            MarksAfter(h, LeftBy(plan, outcome), At(history, v).attempt.id,
                       plan.events != [] && (outcome.Acked? || outcome.Unobserved?))
            && plan.base == v
  {
    hide At, CheckOk;
  }

  /** A known end of the run's own attempt sets both marks; nothing else touches one. */
  predicate MarksAfter(h: Handle, k: Handle, ended: UUID, known: bool) {
    var own := known && ended == h.runAttempt;
    && (k.stopped <==> h.stopped || own)
    && (k.commandEnded <==> h.commandEnded || own)
    && k.revoked == h.revoked && k.runAttempt == h.runAttempt && k.runner == h.runner && k.stage == h.stage
  }

  /** Exactly when a rollback or an abandonment marks the run of the handle that
      issues it: when its record is known to be durable and the attempt it ended is
      the run's own. Ending another attempt changes none of the run's marks. */
  lemma EndingMarksExactly(w: World, a: Action)
    requires Enabled(w, a) && Ends(a)
    ensures a.hid in w.handles && a.hid in Step(w, a).handles
    ensures MarksAfter(w.handles[a.hid], Step(w, a).handles[a.hid], Fold(w.history).attempt.id, KnownRecorded(w, a))
  {
    hide At, CheckOk, PlanRollback, PlanAbandon, FoldFrom;
    var c := a.command;
    var h := w.handles[a.hid];
    var plan := PlanOf(w.name, w.history, h, c);
    if c.Rollback? {
      RollbackMarks(w.name, w.history, h, c.v, c.at, a.outcome);
    } else {
      AbandonMarks(w.name, w.history, h, c.v, c.cause, a.outcome);
    }
    assert Step(w, a).handles[a.hid] == LeftBy(plan, a.outcome);
    assert a.outcome.Commits() ==> |Step(w, a).history| == |w.history| + |plan.events|;
    if KnownRecorded(w, a) {
      assert plan.base == |w.history|;
      HeadIsFold(w.history);
    }
  }

  lemma HeadIsFold(history: History)
    ensures At(history, |history|) == Fold(history)
  {
    hide FoldFrom;
    assert history[..|history|] == history;
  }

  /** In every run a handle whose own command ended the attempt it runs for is stopped,
      with the command as the reason, from that step on; and no continuation has it
      record a catch-up or a promotion, except one already in flight that lands late. */
  lemma OwnEndingSilencesTheRun(name: string, actions: seq<Action>, a: Action, more: seq<Action>)
    requires Runs(Init(name), actions) && Enabled(Final(Init(name), actions), a) && Ends(a)
    requires KnownRecorded(Final(Init(name), actions), a)
    requires a.hid in Final(Init(name), actions).handles && OwnAttempt(Final(Init(name), actions), a.hid)
    requires Runs(Step(Final(Init(name), actions), a), more)
    ensures var v := Step(Final(Init(name), actions), a);
            && EndedByCommand(v, a.hid)
            && EndedByCommand(Final(v, more), a.hid)
            && Final(v, more).handles[a.hid].revoked == Final(Init(name), actions).handles[a.hid].revoked
            && SilentSince(Final(v, more), |v.history|, a.hid)
  {
    hide Inv, Step, Enabled, Final, Runs, KnownRecorded, SilentSince, Fold;
    var w := Final(Init(name), actions);
    InitOk(name);
    RunsKeepInv(Init(name), actions);
    EndingMarksExactly(w, a);
    StepKeepsInv(w, a);
    var v := Step(w, a);
    assert IsStopped(v, a.hid);
    RunsKeepMarks(v, more, a.hid);
    SilentAtOnce(v, a.hid);
    RunsStaySilent(v, more, |v.history|, a.hid);
  }

  lemma SilentAtOnce(w: World, hid: nat)
    requires Inv(w)
    ensures SilentSince(w, |w.history|, hid)
  {
    InvSizes(w);
  }

  // ---------------------------------------------------------------------------
  // A revoked run is a stopped run
  // ---------------------------------------------------------------------------

  predicate RevokedStops(h: Handle) {
    h.revoked ==> h.stopped
  }

  ghost predicate RevokedAreStopped(w: World) {
    forall hid :: hid in w.handles ==> RevokedStops(w.handles[hid])
  }

  lemma SlotDefeatStops(name: string, history: History, h: Handle, slot: nat)
    requires slot <= |history| && RevokedStops(h)
    ensures RevokedStops(SlotDefeat(name, history, h, slot))
  {
    hide At, CheckOk;
  }

  lemma ReconcileStops(name: string, history: History, h: Handle, v: nat, readable: bool)
    requires v <= |history| && RevokedStops(h)
    ensures RevokedStops(PlanReconcile(name, history, h, v, readable).acked)
    ensures PlanReconcile(name, history, h, v, readable).events == []
  {
    hide At, CheckOk;
  }

  lemma JudgingStops(name: string, history: History, h: Handle, c: Command, outcome: Outcome)
    requires Allowed(history, h, c) && Judges(c) && RevokedStops(h)
    ensures RevokedStops(LeftBy(PlanOf(name, history, h, c), outcome))
  {
    hide At, CheckOk, SlotDefeat, PlanReconcile, JudgedPromoted;
    if c.Reconcile? {
      ReconcileStops(name, history, h, c.v, c.readable);
    } else if c.JudgePromotion? && 0 < h.promoteSlot <= |history| {
      SlotDefeatStops(name, history, h, h.promoteSlot);
    } else if c.JudgeCatchUp? && h.drainSlot + 1 <= |history| {
      SlotDefeatStops(name, history, h, h.drainSlot + 1);
    }
  }

  lemma StepKeepsRevoked(w: World, a: Action)
    requires RevokedAreStopped(w) && Enabled(w, a)
    ensures RevokedAreStopped(Step(w, a))
  {
    hide PlanOf, Allowed, Bare;
    if a.Do? {
      var h := HandleFor(w, a.hid, a.command).value;
      var k := Step(w, a).handles[a.hid];
      assert k == LeftBy(PlanOf(w.name, w.history, h, a.command), a.outcome);
      assert RevokedStops(h);
      PlansStaySilent(w.name, w.history, h, a.command);
      if Judges(a.command) {
        JudgingStops(w.name, w.history, h, a.command, a.outcome);
      } else {
        assert KeepsMarks(h, k);
      }
    }
  }

  lemma {:induction false} RunsKeepRevoked(w: World, actions: seq<Action>)
    requires RevokedAreStopped(w) && Runs(w, actions)
    ensures RevokedAreStopped(Final(w, actions))
    decreases |actions|
  {
    hide RevokedAreStopped, Step, Enabled;
    if actions == [] {
    } else {
      StepKeepsRevoked(w, actions[0]);
      RunsKeepRevoked(Step(w, actions[0]), actions[1..]);
    }
  }

  /** In every run, whoever revoked a run also stopped it. */
  lemma RevokedRunsAreStopped(name: string, actions: seq<Action>, hid: nat)
    requires Runs(Init(name), actions) && hid in Final(Init(name), actions).handles
    ensures Final(Init(name), actions).handles[hid].revoked ==> Final(Init(name), actions).handles[hid].stopped
  {
    hide Final, Runs, Step, Enabled;
    StartsUnrevoked(name);
    RunsKeepRevoked(Init(name), actions);
    assert RevokedStops(Final(Init(name), actions).handles[hid]);
  }

  lemma StartsUnrevoked(name: string)
    ensures RevokedAreStopped(Init(name))
  {
  }
}
