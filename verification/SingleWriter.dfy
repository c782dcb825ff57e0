/** Nothing fences writes within one attempt, so at most one processor may run
    for any target version. In every run that has recorded no attested takeover,
    however its appends are lost, delayed or refused, no two handles are active for
    the same target. */
module SingleWriter {
  import opened Base
  import opened LifecycleState
  import opened LifecycleEvents
  import opened CleanHistories
  import opened Protocol
  import opened PromotionSafety

  // ---------------------------------------------------------------------------
  // What an active handle holds
  // ---------------------------------------------------------------------------

  /** The stream shows the handle's claim standing over its target. */
  predicate ClaimStands(s: State, h: Handle) {
    && !s.attempt.phase.PhaseNone?
    && s.attempt.target.version == h.target.version
    && s.attempt.runner == h.runner
    && !s.attempt.released
    && s.highWater >= h.target.version
  }

  /** The target's attempt is over, so it will never be in flight again. */
  predicate Passed(s: State, version: int) {
    && s.highWater >= version
    && (s.attempt.phase.PhaseNone? || s.attempt.target.version > version)
  }

  predicate Held(s: State, h: Handle) {
    s.fault.NoFault? ==> ClaimStands(s, h) || Passed(s, h.target.version)
  }

  /** No event but a takeover or the runner's own release disturbs it. */
  predicate Undisturbing(e: Event, h: Handle) {
    && (e.RunnerClaimed? ==> e.takeover == UNATTESTED)
    && (e.RunnerReleased? ==> e.runner != h.runner)
  }

  lemma HeldStep(s: State, e: Event, h: Handle)
    requires Held(s, h) && h.runner != NIL_UUID && Undisturbing(e, h)
    ensures Held(Apply(s, e), h)
  {
    if s.fault.NoFault? {
      if Apply(s, e).fault.NoFault? {
        if ClaimStands(s, h) {
          StandingStep(s, e, h);
        } else {
          PassedStep(s, e, h.target.version);
        }
      }
    } else {
      ApplyKeepsFault(s, e);
    }
  }

  lemma StandingStep(s: State, e: Event, h: Handle)
    requires ClaimStands(s, h) && CleanStep(s, e) && s.fault.NoFault? && h.runner != NIL_UUID && Undisturbing(e, h)
    ensures ClaimStands(Apply(s, e), h) || Passed(Apply(s, e), h.target.version)
  {
  }

  lemma PassedStep(s: State, e: Event, version: int)
    requires Passed(s, version) && CleanStep(s, e) && s.fault.NoFault?
    ensures Passed(Apply(s, e), version)
  {
  }

  lemma {:induction false} HeldSteps(history: History, events: History, h: Handle)
    requires Held(Fold(history), h) && h.runner != NIL_UUID
    requires forall e :: e in events ==> Undisturbing(e, h)
    ensures Held(Fold(history + events), h)
  {
    hide FoldFrom, Apply, Held;
    if events == [] {
      assert history + events == history;
    } else {
      var front := events[..|events| - 1];
      HeldSteps(history, front, h);
      assert history + events == history + front + [events[|events| - 1]];
      FoldExtend(NEW_STATE, history + front, events[|events| - 1]);
      HeldStep(Fold(history + front), events[|events| - 1], h);
    }
  }

  // ---------------------------------------------------------------------------
  // The invariant
  // ---------------------------------------------------------------------------

  /** No claim here was taken over by attestation. */
  predicate Untaken(history: History) {
    forall e :: e in history && e.RunnerClaimed? ==> e.takeover == UNATTESTED
  }

  predicate ActiveAt(w: World, hid: nat) {
    hid in w.handles && w.handles[hid].Active()
  }

  /** An event in flight releases only a finished run's claim. */
  predicate MessageTame(w: World, author: nat, e: Event) {
    e.RunnerReleased? ==>
      author in w.handles && w.handles[author].stage.Over? && w.handles[author].runner == e.runner
  }

  /** Runner IDs, and the targets of active handles, are not shared. */
  ghost predicate Distinct(w: World) {
    && (forall hid :: hid in w.handles && w.handles[hid].runner != NIL_UUID ==> w.handles[hid].runner in w.runners)
    && (forall a: nat, b: nat :: a in w.handles && b in w.handles && a != b && w.handles[a].runner != NIL_UUID ==>
          w.handles[a].runner != w.handles[b].runner)
    && (forall a: nat, b: nat :: ActiveAt(w, a) && ActiveAt(w, b) && a != b ==>
          w.handles[a].target.version != w.handles[b].target.version)
  }

  ghost predicate WriterInv(w: World) {
    && (forall hid :: ActiveAt(w, hid) ==> w.handles[hid].runner != NIL_UUID && Held(Fold(w.history), w.handles[hid]))
    && Distinct(w)
    && forall m, e :: m in w.inFlight && e in m.events ==> MessageTame(w, m.author, e)
  }

  // ---------------------------------------------------------------------------
  // What a plan keeps
  // ---------------------------------------------------------------------------

  predicate KeepsRun(h: Handle, k: Handle) {
    && k.runner == h.runner && k.target == h.target
    && (k.Active() ==> h.Active())
    && (h.stage.Over? ==> k.stage.Over?)
  }

  predicate PlanKeepsRun(h: Handle, plan: Plan) {
    && KeepsRun(h, plan.acked)
    && (plan.events != [] ==> KeepsRun(h, plan.unobserved) && KeepsRun(h, plan.unknown) && KeepsRun(h, plan.refused))
    && (forall e :: e in plan.events ==> !e.RunnerClaimed?)
    && (forall e :: e in plan.events && e.RunnerReleased? ==> ReleasesOwn(plan, h, e))
  }

  lemma MildKeepsRun(h: Handle, plan: Plan, n: nat, locks: bool)
    requires MildPlan(plan, h, n, locks)
    ensures PlanKeepsRun(h, plan)
  {
  }

  lemma OtherPlanKeepsRun(name: string, history: History, h: Handle, c: Command)
    requires Allowed(history, h, c) && (c.Opens() ==> h == Fresh(c.Reads())) && !c.Claim?
    ensures PlanKeepsRun(h, PlanOf(name, history, h, c))
  {
    hide MildPlan, At, CheckOk, PlanKeepsRun,
      PlanRollback, PlanAbandon, PlanRelease, PlanRetire, PlanReattest, PlanTeardown, PlanRecover,
      PlanReconcile, PlanJudgePromotion, PlanJudgeCatchUp, PlanBegin, PlanSetPolicy, PlanClaim, PlanRecordCatchUp, PlanPromote;
    if c.RecordCatchUp? {
      CatchUpKeepsRun(h, c.position, c.duration, c.at);
    } else if c.Promote? {
      PromoteKeepsRun(name, history, h, c.at);
    } else {
      OtherPlansMild(name, history, h, c);
      MildKeepsRun(h, PlanOf(name, history, h, c), |history|, Locks(c));
    }
  }

  lemma CatchUpKeepsRun(h: Handle, position: Int64, duration: Int64, at: Time)
    ensures PlanKeepsRun(h, PlanRecordCatchUp(h, position, duration, at))
  {
  }

  lemma PromoteKeepsRun(name: string, history: History, h: Handle, at: Time)
    requires h.view <= |history|
    ensures PlanKeepsRun(h, PlanPromote(name, history, h, at))
  {
    hide At, CheckOk;
  }

  /** A claim that may activate its handle finds the attempt in flight on the view it
      is decided on, and records a takeover if and only if a claim stands there. */
  predicate ClaimPlanOk(history: History, h: Handle, c: Command, plan: Plan)
    requires c.Claim?
  {
    if plan.events == [] then KeepsRun(h, plan.acked)
    else
      && plan.base <= |history|
      && (var s := At(history, plan.base);
          && s.fault.NoFault? && Valid(s) && !s.attempt.phase.PhaseNone?
          && plan.events[0].RunnerClaimed? && (plan.events[0].takeover == UNATTESTED <==> !s.attempt.Standing())
          && plan.events[0].attempt == s.attempt.id
          && plan.events[0].runner == c.runner
          && (|plan.events| == 1 || (|plan.events| == 2 && plan.events[1] == BuildStarted))
          && plan.acked.target == s.attempt.target && plan.acked.runner == c.runner
          && plan.unobserved.target == s.attempt.target && plan.unobserved.runner == c.runner)
      && plan.unknown.stage.Over? && plan.unknown.runner == h.runner
      && plan.refused.stage.Over? && plan.refused.runner == h.runner
  }

  lemma ClaimOk(name: string, history: History, h: Handle, c: Command)
    requires c.Claim? && c.v <= |history|
    ensures ClaimPlanOk(history, h, c, PlanClaim(name, history, h, c))
  {
    hide At, ClaimDefeat, Valid, CheckOk;
    ClaimDefeatKeeps(name, history, h.(stage := Over, view := c.v, runAttempt := At(history, c.v).attempt.id),
                     At(history, c.v).attempt);
    if CheckOk(name, history, c.v) {
      CheckOkIsClean(name, history, c.v);
    }
  }

  lemma CheckOkIsClean(name: string, history: History, v: nat)
    requires v <= |history| && CheckOk(name, history, v)
    ensures At(history, v).fault.NoFault? && Valid(At(history, v))
  {
    hide At;
  }

  lemma ClaimDefeatKeeps(name: string, history: History, h: Handle, base: Attempt)
    requires h.view <= |history|
    ensures ClaimDefeat(name, history, h, base) == h.(view := ClaimDefeat(name, history, h, base).view)
  {
    hide At, CheckOk;
  }

  /** Once appended, such a claim stands. */
  lemma ClaimTakesHold(history: History, plan: Plan, h: Handle, c: Command, k: Handle)
    requires c.Claim? && plan.events != [] && ClaimPlanOk(history, h, c, plan) && plan.base == |history|
    requires k == plan.acked || k == plan.unobserved
    requires Untaken(plan.events)
    ensures Held(Fold(history + plan.events), k)
  {
    hide FoldFrom;
    var s := At(history, plan.base);
    assert history[..|history|] == history;
    FoldExtend(NEW_STATE, history, plan.events[0]);
    if |plan.events| == 1 {
      assert plan.events == [plan.events[0]];
    } else {
      FoldExtend(NEW_STATE, history + [plan.events[0]], BuildStarted);
      assert history + [plan.events[0]] + [BuildStarted] == history + plan.events;
    }
  }

  /** No active handle has the target such a claim is for. */
  lemma ClaimIsAlone(w: World, plan: Plan, h: Handle, c: Command, other: nat)
    requires c.Claim? && plan.events != [] && ClaimPlanOk(w.history, h, c, plan) && plan.base == |w.history|
    requires WriterInv(w) && ActiveAt(w, other) && Untaken(plan.events)
    ensures w.handles[other].target.version != At(w.history, plan.base).attempt.target.version
  {
    hide FoldFrom, Apply, Valid;
    assert w.history[..|w.history|] == w.history;
    assert Held(Fold(w.history), w.handles[other]);
  }

  // ---------------------------------------------------------------------------
  // What a step keeps
  // ---------------------------------------------------------------------------

  /** The events a step appends leave every active handle's hold in place. */
  lemma OthersStillHold(w: World, events: History, hid: nat)
    requires WriterInv(w) && ActiveAt(w, hid)
    requires forall e :: e in events ==> Undisturbing(e, w.handles[hid])
    ensures Held(Fold(w.history + events), w.handles[hid])
  {
    hide Held;
    HeldSteps(w.history, events, w.handles[hid]);
  }

  /** Whose release the events are, if any: that handle is no longer active. */
  lemma ReleaseIsForeign(w: World, author: nat, e: Event, hid: nat)
    requires WriterInv(w) && ActiveAt(w, hid) && hid != author
    requires e.RunnerReleased? ==> author in w.handles && w.handles[author].runner == e.runner
    requires e.RunnerClaimed? ==> e.takeover == UNATTESTED
    ensures Undisturbing(e, w.handles[hid])
  {
    hide Held;
  }

  lemma LandKeepsWriter(w: World, a: Action)
    requires WriterInv(w) && Enabled(w, a) && a.Land? && Untaken(Step(w, a).history)
    ensures WriterInv(Step(w, a))
  {
    hide Held, Allowed, PlanOf;
    var m := w.inFlight[a.index];
    var v := Step(w, a);
    assert forall e :: e in m.events ==> MessageTame(w, m.author, e);
    forall hid | ActiveAt(v, hid) ensures Held(Fold(v.history), v.handles[hid]) {
      forall e | e in m.events ensures Undisturbing(e, w.handles[hid]) {
        assert e in v.history;
        assert MessageTame(w, m.author, e);
        if hid == m.author {
          assert !e.RunnerReleased?;
        } else {
          ReleaseIsForeign(w, m.author, e, hid);
        }
      }
      OthersStillHold(w, m.events, hid);
    }
    assert forall hid :: ActiveAt(v, hid) <==> ActiveAt(w, hid);
  }

  lemma MessagesStay(w: World, v: World, hid: nat, plan: Plan, c: Command, outcome: Outcome, h: Handle)
    requires WriterInv(w) && HandleFor(w, hid, c) == Some(h) && v == Execute(w, hid, c, outcome, plan)
    requires h.stage.Over? ==> v.handles[hid].stage.Over? && v.handles[hid].runner == h.runner
    ensures forall m, e :: m in w.inFlight && e in m.events ==> MessageTame(v, m.author, e)
  {
    hide Held, PlanOf;
    forall m, e | m in w.inFlight && e in m.events ensures MessageTame(v, m.author, e) {
      assert MessageTame(w, m.author, e);
    }
  }

  lemma OthersKeepHold(w: World, hid: nat, h: Handle, c: Command, outcome: Outcome, plan: Plan, other: nat)
    requires WriterInv(w) && HandleFor(w, hid, c) == Some(h) && PlanKeepsRun(h, plan)
    requires ActiveAt(w, other)
    ensures Held(Fold(w.history + (if outcome.Commits() then plan.events else [])), w.handles[other])
  {
    hide Held, KeepsRun;
    var events := if outcome.Commits() then plan.events else [];
    forall e | e in events ensures Undisturbing(e, w.handles[other]) {
      if e.RunnerReleased? {
        assert ReleasesOwn(plan, h, e);
        if !c.Opens() && other != hid {
          ReleaseIsForeign(w, hid, e, other);
        }
      }
    }
    OthersStillHold(w, events, other);
  }

  lemma SentIsTame(w: World, hid: nat, h: Handle, c: Command, plan: Plan)
    requires PlanKeepsRun(h, plan)
    requires HandleFor(w, hid, c) == Some(h) && plan.events != []
    ensures forall e :: e in plan.events ==> MessageTame(Execute(w, hid, c, InFlight, plan), hid, e)
  {
  }

  /** A command other than a claim. */
  lemma DoKeepsWriter(w: World, hid: nat, h: Handle, c: Command, outcome: Outcome, plan: Plan)
    requires WriterInv(w) && HandleFor(w, hid, c) == Some(h) && PlanKeepsRun(h, plan) && !c.Claim?
    ensures WriterInv(Execute(w, hid, c, outcome, plan))
  {
    hide Held, MessageTame;
    var v := Execute(w, hid, c, outcome, plan);
    KeepsRunLeft(h, plan, outcome);
    hide PlanKeepsRun, KeepsRun;
    assert HandlesFollow(w, v, hid, h);
    forall other | ActiveAt(v, other) ensures v.handles[other].runner != NIL_UUID && Held(Fold(v.history), v.handles[other]) {
      assert ActiveAt(w, other) && v.handles[other].runner == w.handles[other].runner by { hide WriterInv; }
      OthersKeepHold(w, hid, h, c, outcome, plan, other);
      HeldByFields(Fold(v.history), w.handles[other], v.handles[other]) by { hide WriterInv; }
    }
    MessagesStay(w, v, hid, plan, c, outcome, h);
    if outcome.InFlight? && plan.events != [] {
      SentIsTame(w, hid, h, c, plan);
    }
    DistinctStay(w, v, hid, h);
  }

  /** Handle hid starts from h and every other handle stays as it was. */
  predicate HandlesFollow(w: World, v: World, hid: nat, h: Handle) {
    && v.handles.Keys == w.handles.Keys + {hid}
    && (hid in w.handles ==> w.handles[hid] == h)
    && (hid !in w.handles ==> h.stage.NotRun? && h.runner == NIL_UUID)
    && (forall k :: k in w.handles && k != hid ==> v.handles[k] == w.handles[k])
    && v.handles[hid].runner == h.runner && v.handles[hid].target == h.target
    && (v.handles[hid].Active() ==> h.Active())
    && (h.stage.Over? ==> v.handles[hid].stage.Over?)
  }

  lemma KeepsRunLeft(h: Handle, plan: Plan, outcome: Outcome)
    requires PlanKeepsRun(h, plan)
    ensures KeepsRun(h, if plan.events == [] then plan.acked else Left(plan, outcome))
  {
  }

  lemma DistinctStay(w: World, v: World, hid: nat, h: Handle)
    requires Distinct(w) && HandlesFollow(w, v, hid, h) && w.runners <= v.runners
    ensures Distinct(v)
  {
    forall a: nat, b: nat | ActiveAt(v, a) && ActiveAt(v, b) && a != b
      ensures v.handles[a].target.version != v.handles[b].target.version
    {
      assert ActiveAt(w, a) && ActiveAt(w, b);
    }
  }

  lemma HeldByFields(s: State, h: Handle, k: Handle)
    requires Held(s, h) && k.runner == h.runner && k.target == h.target
    ensures Held(s, k)
  {
  }

  lemma ClaimKeepsWriter(w: World, hid: nat, h: Handle, c: Command, outcome: Outcome, plan: Plan)
    requires WriterInv(w) && HandleFor(w, hid, c) == Some(h) && c.Claim? && ClaimPlanOk(w.history, h, c, plan)
    requires c.runner !in w.runners && c.runner != NIL_UUID && (plan.events != [] ==> h.stage.NotRun?)
    requires outcome.Commits() ==> plan.base == |w.history|
    requires outcome.Commits() ==> Untaken(plan.events)
    ensures WriterInv(Execute(w, hid, c, outcome, plan))
  {
    hide Held, PlanOf, At, Valid, FoldFrom, Distinct;
    var v := Execute(w, hid, c, outcome, plan);
    var k := v.handles[hid];
    var events := if outcome.Commits() then plan.events else [];
    assert h.stage.Over? ==> plan.events == [];
    MessagesStay(w, v, hid, plan, c, outcome, h);
    forall other | ActiveAt(v, other) ensures Held(Fold(v.history), v.handles[other]) {
      if other == hid && events != [] {
        ClaimTakesHold(w.history, plan, h, c, k);
      } else {
        assert ActiveAt(w, other);
        OthersStillHold(w, events, other);
        HeldByFields(Fold(v.history), w.handles[other], v.handles[other]);
      }
    }
    ClaimKeepsDistinct(w, hid, h, c, outcome, plan);
  }

  lemma ClaimKeepsDistinct(w: World, hid: nat, h: Handle, c: Command, outcome: Outcome, plan: Plan)
    requires WriterInv(w) && HandleFor(w, hid, c) == Some(h) && c.Claim? && ClaimPlanOk(w.history, h, c, plan)
    requires c.runner !in w.runners && c.runner != NIL_UUID && (plan.events != [] ==> h.stage.NotRun?)
    requires outcome.Commits() ==> plan.base == |w.history|
    requires outcome.Commits() ==> Untaken(plan.events)
    ensures Distinct(Execute(w, hid, c, outcome, plan))
  {
    hide Held, PlanOf, At, Valid, FoldFrom, MessageTame;
    var v := Execute(w, hid, c, outcome, plan);
    var events := if outcome.Commits() then plan.events else [];
    forall a: nat, b: nat | ActiveAt(v, a) && ActiveAt(v, b) && a != b
      ensures v.handles[a].target.version != v.handles[b].target.version
    {
      if events != [] && (a == hid || b == hid) {
        ClaimIsAlone(w, plan, h, c, if a == hid then b else a);
      } else {
        assert ActiveAt(w, a) && ActiveAt(w, b);
      }
    }
  }

  lemma StepKeepsWriter(w: World, a: Action)
    requires WriterInv(w) && Enabled(w, a) && Untaken(Step(w, a).history)
    ensures WriterInv(Step(w, a))
  {
    hide PlanOf, WriterInv, PlanKeepsRun, ClaimPlanOk;
    if a.Land? {
      LandKeepsWriter(w, a);
    } else {
      var Do(hid, c, outcome) := a;
      var h := HandleFor(w, hid, c).value;
      var plan := PlanOf(w.name, w.history, h, c);
      if c.Claim? {
        assert plan == PlanClaim(w.name, w.history, h, c) by {
          ClaimPlanIs(w.name, w.history, h, c);
        }
        ClaimOk(w.name, w.history, h, c);
        UntakenParts(w.history, plan.events);
        ClaimKeepsWriter(w, hid, h, c, outcome, plan);
      } else {
        OtherPlanKeepsRun(w.name, w.history, h, c);
        DoKeepsWriter(w, hid, h, c, outcome, plan);
      }
    }
  }

  lemma UntakenParts(history: History, events: History)
    ensures Untaken(history + events) <==> Untaken(history) && Untaken(events)
  {
    assert forall e :: e in history + events <==> e in history || e in events;
  }

  lemma ClaimPlanIs(name: string, history: History, h: Handle, c: Command)
    requires Allowed(history, h, c) && c.Claim?
    ensures PlanOf(name, history, h, c) == PlanClaim(name, history, h, c)
    ensures PlanClaim(name, history, h, c).events != [] ==> h.stage.NotRun?
  {
    hide At, CheckOk, ClaimDefeat;
  }

  lemma {:induction false} RunsKeepWriter(w: World, actions: seq<Action>)
    requires WriterInv(w) && Runs(w, actions) && Untaken(Final(w, actions).history)
    ensures WriterInv(Final(w, actions))
    decreases |actions|
  {
    hide WriterInv, Step, Enabled;
    if actions == [] {
    } else {
      StreamGrows(Step(w, actions[0]), actions[1..]);
      StepKeepsWriter(w, actions[0]);
      RunsKeepWriter(Step(w, actions[0]), actions[1..]);
    }
  }

  /** In every run that has recorded no attested takeover, at most one handle's
      processor runs for any target version; attestations may be offered freely
      where no claim stands. */
  lemma AtMostOneWriter(name: string, actions: seq<Action>, a: nat, b: nat)
    requires Runs(Init(name), actions)
    requires Untaken(Final(Init(name), actions).history)
    requires ActiveAt(Final(Init(name), actions), a) && ActiveAt(Final(Init(name), actions), b)
    requires Final(Init(name), actions).handles[a].target.version == Final(Init(name), actions).handles[b].target.version
    ensures a == b
  {
    hide Runs, Final, Enabled, Step, Held;
    RunsKeepWriter(Init(name), actions);
  }
}
