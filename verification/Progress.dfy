/** What can be done: on every reachable clean stream each command the lifecycle
    offers goes through and has its documented effect, so a run that is where it
    should be promotes, whatever served before, a lost promotion is recognized, and
    a displaced run stops. */
module Progress {
  import opened Base
  import opened LifecycleState
  import opened LifecycleEvents
  import opened CleanHistories
  import opened Protocol
  import opened PromotionSafety
  import opened RunDiscipline
  import opened EndedRuns
  import opened CommandGuards

  // ---------------------------------------------------------------------------
  // Every attempt carries the projection's own name
  // ---------------------------------------------------------------------------

  predicate NamesIt(name: string, e: Event) {
    e.RebuildInitiated? ==> e.target.name == name
  }

  predicate AllName(name: string, events: History) {
    forall e :: e in events ==> NamesIt(name, e)
  }

  ghost predicate Named(w: World) {
    && AllName(w.name, w.history)
    && forall m :: m in w.inFlight ==> AllName(w.name, m.events)
  }

  lemma EndingsName(name: string, history: History, h: Handle, v: nat, at: Time, cause: string)
    requires v <= |history| && h.view <= |history|
    ensures AllName(name, PlanRollback(name, history, h, v, at).events)
    ensures AllName(name, PlanAbandon(name, history, h, v, cause).events)
    ensures AllName(name, PlanRelease(name, history, h, at).events)
  {
    hide At, CheckOk, Ended;
  }

  lemma RunCommandsName(name: string, history: History, h: Handle, c: Command)
    requires h.view <= |history|
    ensures c.Claim? && c.v <= |history| ==> AllName(name, PlanClaim(name, history, h, c).events)
    ensures c.RecordCatchUp? ==> AllName(name, PlanRecordCatchUp(h, c.position, c.duration, c.at).events)
    ensures c.Promote? ==> AllName(name, PlanPromote(name, history, h, c.at).events)
  {
    hide At, CheckOk, ClaimDefeat, Attempt.Standing;
  }

  lemma OpeningsName(name: string, history: History, c: Command)
    ensures c.Begin? && c.v <= |history| ==> AllName(name, PlanBegin(name, history, c.v, c.attempt, c.why, c.at).events)
    ensures c.SetPolicy? && c.v <= |history| ==> AllName(name, PlanSetPolicy(name, history, c).events)
  {
    hide At, CheckOk, CanonicalWitnesses, ID.Valid;
  }

  lemma RetirementsName(name: string, history: History, h: Handle, c: Command)
    requires c.Retire? && c.v <= |history|
    ensures AllName(name, PlanRetire(name, history, h, c).events)
  {
    hide At, CheckOk, Attest, RetirementPolicy.Zero;
  }

  lemma PlansName(name: string, history: History, h: Handle, c: Command)
    requires Allowed(history, h, c)
    ensures AllName(name, PlanOf(name, history, h, c).events)
  {
    hide At, CheckOk, SlotDefeat, JudgedPromoted, Superseded, TerminalStop, Attest,
      PlanRollback, PlanAbandon, PlanRelease, PlanBegin, PlanSetPolicy, PlanClaim, PlanRecordCatchUp, PlanPromote, PlanRetire;
    if c.Rollback? {
      EndingsName(name, history, h, c.v, c.at, "");
    } else if c.Abandon? {
      EndingsName(name, history, h, c.v, ZERO_TIME, c.cause);
    } else if c.Release? {
      EndingsName(name, history, h, 0, c.at, "");
    } else if c.Opens() {
      OpeningsName(name, history, c);
    } else if c.Claim? || c.RecordCatchUp? || c.Promote? {
      RunCommandsName(name, history, h, c);
    } else if c.Retire? {
      RetirementsName(name, history, h, c);
    }
  }

  lemma StepKeepsNamed(w: World, a: Action)
    requires Named(w) && Enabled(w, a)
    ensures Named(Step(w, a))
  {
    hide PlanOf, Allowed, NamesIt;
    if a.Do? {
      PlansName(w.name, w.history, HandleFor(w, a.hid, a.command).value, a.command);
    }
  }

  lemma {:induction false} FoldName(name: string, history: History)
    requires AllName(name, history)
    ensures Fold(history).name == "" || Fold(history).name == name
  {
    if history == [] {
    } else {
      var front := history[..|history| - 1];
      FoldName(name, front);
      ApplyName(Fold(front), history[|history| - 1], name);
    }
  }

  lemma ApplyName(s: State, e: Event, name: string)
    requires NamesIt(name, e) && (s.name == "" || s.name == name)
    ensures Apply(s, e).name == "" || Apply(s, e).name == name
  {
    hide InitiatedFault, ReceiptsAttest, CanonicalWitnesses;
  }

  // ---------------------------------------------------------------------------
  // Sound worlds
  // ---------------------------------------------------------------------------

  /** What every reachable world with a clean stream is. */
  ghost predicate Sound(w: World) {
    Inv(w) && Named(w) && RevokedAreStopped(w) && Clean(w.history)
  }

  function Head(w: World): State {
    Fold(w.history)
  }

  lemma {:induction false} RunsKeepNamed(w: World, actions: seq<Action>)
    requires Named(w) && Runs(w, actions)
    ensures Named(Final(w, actions))
    decreases |actions|
  {
    hide Named, Step, Enabled;
    if actions == [] {
    } else {
      StepKeepsNamed(w, actions[0]);
      RunsKeepNamed(Step(w, actions[0]), actions[1..]);
    }
  }

  lemma StartsNamed(name: string)
    ensures Named(Init(name))
  {
  }

  lemma ReachableIsSound(name: string, actions: seq<Action>)
    requires Runs(Init(name), actions) && Clean(Final(Init(name), actions).history)
    ensures Sound(Final(Init(name), actions))
    ensures Final(Init(name), actions).name == name
  {
    hide Inv, Named, RevokedAreStopped, Clean, Runs, Final;
    InitOk(name);
    StartsNamed(name);
    StartsUnrevoked(name);
    RunsKeepInv(Init(name), actions);
    RunsKeepNamed(Init(name), actions);
    RunsKeepRevoked(Init(name), actions);
    NameStays(Init(name), actions);
  }

  lemma {:induction false} NameStays(w: World, actions: seq<Action>)
    requires Runs(w, actions)
    ensures Final(w, actions).name == w.name
    decreases |actions|
  {
    hide PlanOf, Allowed;
    if actions == [] {
    } else {
      NameStays(Step(w, actions[0]), actions[1..]);
    }
  }

  /** The head of a clean stream passes every command's check. */
  lemma HeadPasses(w: World)
    requires Sound(w)
    ensures At(w.history, |w.history|) == Head(w)
    ensures CheckOk(w.name, w.history, |w.history|) && Valid(Head(w)) && Head(w).fault.NoFault?
    ensures Head(w).name == "" <==> w.history == []
  {
    hide Inv, RevokedAreStopped, FoldFrom, Valid;
    HeadIsFold(w.history);
    CleanHistoryIsValid(w.history);
    EveryCleanPrefixIsValid(w.history, |w.history|);
    FoldName(w.name, w.history);
  }

  lemma HandleAtHead(w: World, hid: nat)
    requires Sound(w) && hid in w.handles
    ensures w.handles[hid].view <= |w.history|
    ensures w.handles[hid].revoked ==> w.handles[hid].stopped
  {
    hide Clean, EntryOk, MessageOk, CaughtUpBy, CertifiedAt;
    assert HandleOk(w.history, w.marks, hid, w.handles[hid]);
    assert RevokedStops(w.handles[hid]);
  }

  /** A plan at the head whose events the fold accepts can be executed, and its
      events are then recorded. */
  lemma TakesEffect(w: World, hid: nat, h: Handle, c: Command, outcome: Outcome)
    requires Sound(w) && HandleFor(w, hid, c) == Some(h) && Allowed(w.history, h, c) && outcome.Commits()
    requires c.Claim? ==> c.runner !in w.runners
    requires var plan := PlanOf(w.name, w.history, h, c); plan.base == |w.history| && Clean(w.history + plan.events)
    ensures var plan := PlanOf(w.name, w.history, h, c);
            var a := Do(hid, c, outcome);
            && Enabled(w, a)
            && Sound(Step(w, a))
            && Step(w, a).name == w.name
            && Step(w, a).history == w.history + plan.events
            && Step(w, a).handles == w.handles[hid := LeftBy(plan, outcome)]
            && Step(w, a).runners == (if c.Claim? then w.runners + {c.runner} else w.runners)
  {
    hide PlanOf, Allowed, Inv, Named, RevokedAreStopped, Clean;
    var a := Do(hid, c, outcome);
    assert Enabled(w, a);
    StepKeepsInv(w, a);
    StepKeepsNamed(w, a);
    StepKeepsRevoked(w, a);
  }

  /** A plan that sends nothing only moves its handle; no append is made, so its
      outcome is immaterial. */
  lemma Quietly(w: World, hid: nat, h: Handle, c: Command)
    requires Sound(w) && HandleFor(w, hid, c) == Some(h) && Allowed(w.history, h, c) && !c.Claim?
    requires PlanOf(w.name, w.history, h, c).events == []
    ensures var a := Do(hid, c, Failed);
            && Enabled(w, a)
            && Sound(Step(w, a)) && Step(w, a).name == w.name && Step(w, a).history == w.history
            && Step(w, a).handles == w.handles[hid := PlanOf(w.name, w.history, h, c).acked]
            && Step(w, a).runners == w.runners
  {
    hide PlanOf, Allowed, Inv, Named, RevokedAreStopped, Clean;
    var a := Do(hid, c, Failed);
    assert Enabled(w, a);
    assert w.history + [] == w.history;
    StepKeepsInv(w, a);
    StepKeepsNamed(w, a);
    StepKeepsRevoked(w, a);
  }

  lemma OneMore(w: World, e: Event)
    requires CleanStep(Head(w), e)
    ensures Clean(w.history + [e]) && Fold(w.history + [e]) == Apply(Head(w), e)
  {
    FoldExtend(NEW_STATE, w.history, e);
  }

  // ---------------------------------------------------------------------------
  // Runs in pieces
  // ---------------------------------------------------------------------------

  lemma {:induction false} ThenRuns(w: World, first: seq<Action>, second: seq<Action>)
    requires Runs(w, first) && Runs(Final(w, first), second)
    ensures Runs(w, first + second) && Final(w, first + second) == Final(Final(w, first), second)
    decreases |first|
  {
    hide Step, Enabled;
    if first == [] {
      assert first + second == second;
    } else {
      ThenRuns(Step(w, first[0]), first[1..], second);
      assert (first + second)[1..] == first[1..] + second;
    }
  }

  lemma OneStep(w: World, a: Action)
    requires Enabled(w, a)
    ensures Runs(w, [a]) && Final(w, [a]) == Step(w, a)
  {
    hide Step, Enabled;
    assert [a][1..] == [];
    assert Runs(Step(w, a), []);
  }

  lemma ThenStep(w: World, first: seq<Action>, a: Action)
    requires Runs(w, first) && Enabled(Final(w, first), a)
    ensures Runs(w, first + [a]) && Final(w, first + [a]) == Step(Final(w, first), a)
  {
    hide Step, Enabled, Runs, Final;
    OneStep(Final(w, first), a);
    ThenRuns(w, first, [a]);
  }

  // ---------------------------------------------------------------------------
  // Opening and claiming
  // ---------------------------------------------------------------------------

  predicate Unused(h: Handle) {
    h == Fresh(h.view)
  }

  lemma BeginStep(s: State, name: string, attempt: UUID, why: string, at: Time)
    requires Valid(s) && s.fault.NoFault? && (s.name == "" || s.name == name) && ValidName(name) && attempt != NIL_UUID
    requires s.attempt.phase.PhaseNone? && s.highWater < MAX_INT64
    ensures var target := ID(name, Increment(s.highWater));
            Apply(s, RebuildInitiated(attempt, target, s.live, why, at)) ==
            s.(name := name, highWater := s.highWater + 1,
               attempt := VACANT.(id := attempt, target := target, previous := s.live, phase := PhaseCreated,
                                  reason := why, initiatedAt := at))
  {
    hide RestAccepts, ValidName, CanonicalWitnesses, RetirementPolicy.Valid;
    assert s.highWater >= 0;
  }

  lemma PlannedBegin(name: string, history: History, v: nat, attempt: UUID, why: string, at: Time, outcome: Outcome)
    requires v <= |history|
    ensures var plan := PlanBegin(name, history, v, attempt, why, at);
            Unused(LeftBy(plan, outcome))
  {
    hide At, CheckOk, ID.Valid;
  }

  /** On a vacant slot the next version is admitted: the live one goes on serving. */
  lemma BeginGoesThrough(w: World, hid: nat, attempt: UUID, why: string, at: Time, outcome: Outcome)
    requires Sound(w) && hid !in w.handles && attempt != NIL_UUID && ValidName(w.name) && outcome.Commits()
    requires Head(w).attempt.phase.PhaseNone? && Head(w).highWater < MAX_INT64
    ensures var a := Do(hid, Begin(|w.history|, attempt, why, at), outcome);
            && Enabled(w, a)
            && var v := Step(w, a);
            && Sound(v) && v.name == w.name && v.runners == w.runners
            && hid in v.handles && Unused(v.handles[hid])
            && Head(v) == Head(w).(name := w.name, highWater := Head(w).highWater + 1,
                 attempt := VACANT.(id := attempt, target := ID(w.name, Head(w).highWater + 1), previous := Head(w).live,
                                    phase := PhaseCreated, reason := why, initiatedAt := at))
  {
    hide Sound, FoldFrom, PlanBegin, Clean, Apply, Valid;
    var s := Head(w);
    var c := Begin(|w.history|, attempt, why, at);
    HeadPasses(w);
    BeginIsExact(w.name, w.history, |w.history|, attempt, why, at);
    BeginStep(s, w.name, attempt, why, at);
    OneMore(w, RebuildInitiated(attempt, ID(w.name, Increment(s.highWater)), s.live, why, at));
    PlannedBegin(w.name, w.history, |w.history|, attempt, why, at, outcome);
    TakesEffect(w, hid, Fresh(|w.history|), c, outcome);
  }

  /** An attempt is there to be claimed: nobody holds it, or the taker signs for it. */
  predicate Claimable(s: State, c: Command)
    requires c.Claim?
  {
    && !s.attempt.phase.PhaseNone?
    && c.runner != NIL_UUID
    && (c.takeover == UNATTESTED || c.takeover.Signed())
    && (s.attempt.Standing() ==> c.takeover != UNATTESTED)
  }

  /** The claim stands in the runner's name, and a created attempt is building. */
  function ClaimedBy(s: State, c: Command): State
    requires c.Claim?
  {
    s.(attempt := s.attempt.(runner := c.runner, claimedAt := c.at, released := false, releasedAt := ZERO_TIME,
                             phase := if s.attempt.phase.PhaseCreated? then PhaseBuilding else s.attempt.phase))
  }

  function ClaimOf(s: State, c: Command): Event
    requires c.Claim?
  {
    RunnerClaimed(s.attempt.id, c.runner, if s.attempt.phase.PhaseCreated? then 0 else c.position,
                  TakeoverOf(s.attempt, c), c.at)
  }

  lemma ClaimLeaves(s: State, c: Command)
    requires c.Claim? && Valid(s) && s.fault.NoFault? && Claimable(s, c)
    ensures CleanStep(s, ClaimOf(s, c))
    ensures !s.attempt.phase.PhaseCreated? ==> Apply(s, ClaimOf(s, c)) == ClaimedBy(s, c)
    ensures s.attempt.phase.PhaseCreated? ==> Apply(Apply(s, ClaimOf(s, c)), BuildStarted) == ClaimedBy(s, c)
  {
    hide RestAccepts, ValidName, CanonicalWitnesses, RetirementPolicy.Valid;
  }

  function ClaimEvents(s: State, c: Command): History
    requires c.Claim?
  {
    if s.attempt.phase.PhaseCreated? then [ClaimOf(s, c), BuildStarted] else [ClaimOf(s, c)]
  }

  lemma ClaimExtends(w: World, c: Command)
    requires c.Claim? && Sound(w) && Claimable(Head(w), c)
    ensures Clean(w.history + ClaimEvents(Head(w), c))
    ensures Fold(w.history + ClaimEvents(Head(w), c)) == ClaimedBy(Head(w), c)
  {
    hide Sound, FoldFrom, Apply, Valid, Claimable;
    var s := Head(w);
    HeadPasses(w);
    ClaimLeaves(s, c);
    OneMore(w, ClaimOf(s, c));
    if s.attempt.phase.PhaseCreated? {
      FoldExtend(NEW_STATE, w.history + [ClaimOf(s, c)], BuildStarted);
      assert w.history + [ClaimOf(s, c)] + [BuildStarted] == w.history + ClaimEvents(s, c);
    }
  }

  /** The handle a claim at the head leaves when its record is durable. */
  predicate Claimant(h: Handle, k: Handle, c: Command, s: State, length: nat, outcome: Outcome)
    requires c.Claim?
  {
    && k.runAttempt == s.attempt.id && k.retire == h.retire && k.stopped == h.stopped
    && (outcome.Acked? || outcome.Unobserved? ==>
          k.runner == c.runner && k.target == s.attempt.target && k.catchingUp == s.attempt.phase.BeforePromotion())
    && (outcome.Acked? ==> k.stage.Claimed? && k.view == length)
    && (outcome.Unobserved? ==> k.stage.Recovering?)
  }

  lemma PlannedClaim(name: string, history: History, h: Handle, c: Command, outcome: Outcome)
    requires c.Claim? && c.v <= |history| && h.stage.NotRun? && outcome.Commits()
    ensures var plan := PlanClaim(name, history, h, c);
            plan.events != [] ==> Claimant(h, LeftBy(plan, outcome), c, At(history, c.v), c.v + |plan.events|, outcome)
  {
    hide At, CheckOk, Attempt.Standing, ClaimDefeat;
  }

  /** An unused handle can claim a claimable attempt in any phase, whether it was never
      claimed, released, or is taken over. */
  lemma ClaimGoesThrough(w: World, hid: nat, c: Command, outcome: Outcome)
    requires Sound(w) && c.Claim? && c.v == |w.history| && c.runner !in w.runners && outcome.Commits()
    requires hid in w.handles && w.handles[hid].stage.NotRun? && w.handles[hid].retire.NoRetire?
    requires Claimable(Head(w), c)
    ensures var a := Do(hid, c, outcome);
            && Enabled(w, a)
            && var v := Step(w, a);
            && Sound(v) && v.name == w.name && hid in v.handles
            && Head(v) == ClaimedBy(Head(w), c)
            && Claimant(w.handles[hid], v.handles[hid], c, Head(w), |v.history|, outcome)
  {
    hide Sound, FoldFrom, PlanClaim, Clean, Apply, Valid, Claimant, CleanStep, ClaimedBy;
    var h := w.handles[hid];
    HeadPasses(w);
    HandleAtHead(w, hid);
    ClaimLeaves(Head(w), c);
    ClaimExtends(w, c);
    ClaimIsExact(w.name, w.history, h, c);
    PlannedClaim(w.name, w.history, h, c, outcome);
    TakesEffect(w, hid, h, c, outcome);
  }

  lemma ClaimsAtItsView(name: string, history: History, h: Handle, c: Command)
    requires c.Claim? && Allowed(history, h, c)
    ensures var plan := PlanOf(name, history, h, c);
            plan.events != [] ==> plan.base == c.v
  {
    hide At, CheckOk, Attempt.Standing, ClaimDefeat;
  }

  /** A claim that lost its slot leaves its handle over, and showing the slot exactly when
      the winner there changed the attempt or its runner. */
  lemma RefusedClaimsShowTheWinner(w: World, hid: nat, c: Command)
    requires Sound(w) && c.Claim? && Enabled(w, Do(hid, c, Rejected))
    requires PlanOf(w.name, w.history, w.handles[hid], c).events != []
    ensures c.v < |w.history|
    ensures var k := Step(w, Do(hid, c, Rejected)).handles[hid];
            var before, after := At(w.history, c.v).attempt, At(w.history, c.v + 1).attempt;
            k.stage.Over? && k.view == if after.id != before.id || after.runner != before.runner then c.v + 1 else c.v
  {
    ClaimsAtItsView(w.name, w.history, w.handles[hid], c);
    PrefixPasses(w, c.v + 1);
    hide At, CheckOk, Sound, Attempt.Standing;
  }

  // ---------------------------------------------------------------------------
  // Starting
  // ---------------------------------------------------------------------------

  /** The run works on the head: its own attempt, under its own claim. */
  predicate Holds(w: World, hid: nat) {
    && hid in w.handles
    && w.handles[hid].retire.NoRetire? && !w.handles[hid].stopped
    && Head(w).attempt.id == w.handles[hid].runAttempt && Head(w).attempt.runner == w.handles[hid].runner
    && Head(w).attempt.runner != NIL_UUID
  }

  /** A claimed run starts. */
  lemma StartGoesThrough(w: World, hid: nat)
    requires Sound(w) && Holds(w, hid) && w.handles[hid].stage.Claimed?
    ensures var a := Do(hid, StartProcessor, Failed);
            && Enabled(w, a)
            && var v := Step(w, a);
            && Sound(v) && v.name == w.name && v.history == w.history && Holds(v, hid)
            && v.handles[hid] == w.handles[hid].(stage := Running)
  {
    hide Sound, FoldFrom;
    HandleAtHead(w, hid);
    Quietly(w, hid, w.handles[hid], StartProcessor);
  }

  /** A run whose claim became durable unobserved reads it back, and may start. */
  lemma RecoverGoesThrough(w: World, hid: nat)
    requires Sound(w) && Holds(w, hid) && w.handles[hid].stage.Recovering?
    ensures var a := Do(hid, Recover(|w.history|, true), Failed);
            && Enabled(w, a)
            && var v := Step(w, a);
            && Sound(v) && v.name == w.name && v.history == w.history && Holds(v, hid)
            && v.handles[hid] == w.handles[hid].(stage := Claimed, view := |w.history|)
  {
    hide Sound, FoldFrom, Clean, CheckOk;
    HeadPasses(w);
    HandleAtHead(w, hid);
    Quietly(w, hid, w.handles[hid], Recover(|w.history|, true));
  }

  // ---------------------------------------------------------------------------
  // Catching up and promoting
  // ---------------------------------------------------------------------------

  /** The run still drains, and its retained view is the head. */
  predicate Draining(w: World, hid: nat) {
    && Holds(w, hid)
    && w.handles[hid].stage.Running? && w.handles[hid].catchingUp && w.handles[hid].view == |w.history|
    && Head(w).attempt.phase in {PhaseBuilding, PhaseCaughtUp}
  }

  /** The run's catch-up is the last event of the stream, and it holds the certificate. */
  predicate Certain(w: World, hid: nat) {
    && Holds(w, hid)
    && w.handles[hid].stage.Running? && w.handles[hid].view == |w.history|
    && Head(w).attempt.phase.PhaseCaughtUp?
    && w.handles[hid].certificate ==
       Some(Certificate(w.handles[hid].runAttempt, w.handles[hid].runner, Head(w).attempt.caughtUpPos, |w.history|))
  }

  function Drain(s: State, position: Int64, at: Time): State {
    s.(attempt := s.attempt.(phase := PhaseCaughtUp, caughtUpAt := at, caughtUpPos := position))
  }

  function Promote(s: State, at: Time): State
    requires s.revision < MAX_INT64
  {
    s.(live := s.attempt.target, revision := s.revision + 1,
       attempt := s.attempt.(phase := PhasePromoted, promotedAt := at))
  }

  lemma CatchUpGoesThrough(w: World, hid: nat, position: Int64, duration: Int64, at: Time)
    requires Sound(w) && Draining(w, hid)
    ensures var a := Do(hid, RecordCatchUp(position, duration, at), Acked);
            && Enabled(w, a)
            && var v := Step(w, a);
            && Sound(v) && v.name == w.name && v.history == w.history + [CaughtUp(position, duration, at)]
            && Head(v) == Drain(Head(w), position, at) && Certain(v, hid)
  {
    hide Sound, FoldFrom;
    HeadPasses(w);
    HandleAtHead(w, hid);
    OneMore(w, CaughtUp(position, duration, at));
    hide Valid, CheckOk, Clean;
    TakesEffect(w, hid, w.handles[hid], RecordCatchUp(position, duration, at), Acked);
  }

  lemma PromotedStep(s: State, at: Time)
    requires s.fault.NoFault? && s.attempt.phase.PhaseCaughtUp? && s.revision < MAX_INT64
    ensures Apply(s, Promoted(s.live, s.attempt.target, Increment(s.revision), s.policy.generation, at)) == Promote(s, at)
  {
  }

  lemma PromoteGoesThrough(w: World, hid: nat, at: Time, outcome: Outcome)
    requires Sound(w) && Certain(w, hid) && Head(w).revision < MAX_INT64 && outcome.Commits()
    ensures var a := Do(hid, Command.Promote(at), outcome);
            && Enabled(w, a)
            && var v := Step(w, a);
            && Sound(v) && v.name == w.name && Head(v) == Promote(Head(w), at)
            && v.history == w.history + [Promoted(Head(w).live, Head(w).attempt.target, Head(w).revision + 1,
                                                  Head(w).policy.generation, at)]
  {
    hide Sound, FoldFrom, Apply, Valid, PlanPromote, Clean;
    var s := Head(w);
    var e := Promoted(s.live, s.attempt.target, Increment(s.revision), s.policy.generation, at);
    HeadPasses(w);
    HandleAtHead(w, hid);
    PromotedStep(s, at);
    OneMore(w, e);
    PromoteIsExact(w.name, w.history, w.handles[hid], at);
    TakesEffect(w, hid, w.handles[hid], Command.Promote(at), outcome);
  }

  lemma Drives(w: World, hid: nat, position: Int64, duration: Int64, caughtUpAt: Time, at: Time, outcome: Outcome)
    requires Sound(w) && Draining(w, hid) && Head(w).revision < MAX_INT64 && outcome.Commits()
    ensures var steps := [Do(hid, RecordCatchUp(position, duration, caughtUpAt), Acked), Do(hid, Command.Promote(at), outcome)];
            && Runs(w, steps)
            && var v := Final(w, steps);
            && Sound(v) && v.name == w.name
            && Head(v) == Promote(Drain(Head(w), position, caughtUpAt), at)
            && v.history == w.history + [CaughtUp(position, duration, caughtUpAt),
                                         Promoted(Head(w).live, Head(w).attempt.target, Head(w).revision + 1,
                                                  Head(w).policy.generation, at)]
  {
    hide Sound, Step, Enabled, Fold, Draining, Certain, Runs, Final;
    var first := Do(hid, RecordCatchUp(position, duration, caughtUpAt), Acked);
    var second := Do(hid, Command.Promote(at), outcome);
    CatchUpGoesThrough(w, hid, position, duration, caughtUpAt);
    OneStep(w, first);
    PromoteGoesThrough(Step(w, first), hid, at, outcome);
    ThenStep(w, [first], second);
    assert [first] + [second] == [first, second];
  }

  /** In every reachable world with a clean stream, a run that still drains, whose
      retained view is the head and shows its own attempt under its own claim, has its
      acknowledged catch-up followed by its promotion, whatever was live before: the
      attempt's target serves at the next revision, and the stream stays clean. */
  lemma PromotionGoesThrough(name: string, actions: seq<Action>, hid: nat, position: Int64, duration: Int64,
                             caughtUpAt: Time, at: Time, outcome: Outcome)
    requires Runs(Init(name), actions) && Clean(Final(Init(name), actions).history) && outcome.Commits()
    requires Draining(Final(Init(name), actions), hid) && Head(Final(Init(name), actions)).revision < MAX_INT64
    ensures var w := Final(Init(name), actions);
            var steps := [Do(hid, RecordCatchUp(position, duration, caughtUpAt), Acked), Do(hid, Command.Promote(at), outcome)];
            && Runs(w, steps)
            && var v := Final(w, steps);
            && Clean(v.history)
            && v.history == w.history + [CaughtUp(position, duration, caughtUpAt),
                                         Promoted(Head(w).live, Head(w).attempt.target, Head(w).revision + 1,
                                                  Head(w).policy.generation, at)]
            && Head(v).live == Head(w).attempt.target && Head(v).revision == Head(w).revision + 1
            && Head(v).attempt.phase.PhasePromoted? && Head(v).attempt.previous == Head(w).live
  {
    hide Draining, Fold, Clean, Runs, Final, Sound;
    var w := Final(Init(name), actions);
    var steps := [Do(hid, RecordCatchUp(position, duration, caughtUpAt), Acked), Do(hid, Command.Promote(at), outcome)];
    ReachableIsSound(name, actions);
    Drives(w, hid, position, duration, caughtUpAt, at, outcome);
    PreviousIsLive(w, hid);
    SoundIsClean(Final(w, steps));
  }

  lemma SoundIsClean(w: World)
    requires Sound(w)
    ensures Clean(w.history)
  {
  }

  /** Before its promotion the attempt's previous version is the live one. */
  lemma PreviousIsLive(w: World, hid: nat)
    requires Sound(w) && Draining(w, hid)
    ensures Head(w).attempt.previous == Head(w).live
  {
    hide Sound, Fold, RestAccepts;
    HeadPasses(w);
  }

  // ---------------------------------------------------------------------------
  // Promotions whose outcome is lost
  // ---------------------------------------------------------------------------

  /** The promotion of the attempt at the head. */
  function PromotionOf(s: State, at: Time): Event
    requires s.revision < MAX_INT64
  {
    Promoted(s.live, s.attempt.target, s.revision + 1, s.policy.generation, at)
  }

  lemma PlannedPromote(w: World, hid: nat, at: Time)
    requires Sound(w) && Certain(w, hid) && Head(w).revision < MAX_INT64
    ensures var h := w.handles[hid];
            var plan := PlanPromote(w.name, w.history, h, at);
            && plan.base == |w.history| && plan.events == [PromotionOf(Head(w), at)]
            && plan.unknown == h.(promoteSlot := |w.history| + 1)
            && plan.tears.None?
            && Clean(w.history + plan.events) && Fold(w.history + plan.events) == Promote(Head(w), at)
  {
    hide Sound, FoldFrom, Apply, Valid, Clean;
    HeadPasses(w);
    HandleAtHead(w, hid);
    PromotedStep(Head(w), at);
    OneMore(w, PromotionOf(Head(w), at));
  }

  /** A promotion that took effect without the run learning it keeps its slot on record. */
  lemma LostPromotion(w: World, hid: nat, at: Time)
    requires Sound(w) && Certain(w, hid) && Head(w).revision < MAX_INT64
    ensures var a := Do(hid, Command.Promote(at), CommittedLost);
            && Enabled(w, a) && PromotedUnseen(w, hid, at, Step(w, a))
  {
    hide Sound, FoldFrom, Clean, Valid, PlanPromote;
    PlannedPromote(w, hid, at);
    HandleAtHead(w, hid);
    TakesEffect(w, hid, w.handles[hid], Command.Promote(at), CommittedLost);
  }

  /** The promotion is recorded, and its run still waits for the outcome. */
  ghost predicate PromotedUnseen(w: World, hid: nat, at: Time, v: World)
    requires hid in w.handles && Head(w).revision < MAX_INT64
  {
    && Sound(v) && v.name == w.name && Head(v) == Promote(Head(w), at) && |v.history| == |w.history| + 1
    && hid in v.handles && v.handles[hid] == w.handles[hid].(promoteSlot := |w.history| + 1)
  }

  /** So does one that is still in flight when its call returns ... */
  lemma FlyingPromotion(w: World, hid: nat, at: Time)
    requires Sound(w) && Certain(w, hid) && Head(w).revision < MAX_INT64
    ensures var a := Do(hid, Command.Promote(at), InFlight);
            && Enabled(w, a)
            && Sound(Step(w, a))
            && Step(w, a) == w.(handles := w.handles[hid := w.handles[hid].(promoteSlot := |w.history| + 1)],
                                inFlight := w.inFlight + [Message(|w.history|, [PromotionOf(Head(w), at)], hid)])
  {
    hide Inv, Named, RevokedAreStopped, FoldFrom, Clean, Valid, PlanPromote;
    var a := Do(hid, Command.Promote(at), InFlight);
    PlannedPromote(w, hid, at);
    HandleAtHead(w, hid);
    assert Enabled(w, a);
    OnlyFlies(w, hid, a.command, PlanPromote(w.name, w.history, w.handles[hid], at));
    StepIsSound(w, a);
  }

  lemma OnlyFlies(w: World, hid: nat, c: Command, plan: Plan)
    requires plan.events != [] && plan.tears.None? && !c.Claim?
    ensures Execute(w, hid, c, InFlight, plan) ==
            w.(handles := w.handles[hid := plan.unknown], inFlight := w.inFlight + [Message(plan.base, plan.events, hid)])
  {
    assert w.history + [] == w.history && w.marks + MarksFor(0, Mark(hid, false, ExitedBy(w, hid))) == w.marks;
  }

  /** ... and lands later. */
  lemma LandedPromotion(w: World, hid: nat, at: Time, u: World)
    requires Sound(w) && Certain(w, hid) && Head(w).revision < MAX_INT64
    requires Sound(u)
    requires u == w.(handles := w.handles[hid := w.handles[hid].(promoteSlot := |w.history| + 1)],
                     inFlight := w.inFlight + [Message(|w.history|, [PromotionOf(Head(w), at)], hid)])
    ensures Enabled(u, Land(|w.inFlight|)) && PromotedUnseen(w, hid, at, Step(u, Land(|w.inFlight|)))
  {
    hide Sound, FoldFrom, Clean, Valid, PlanPromote;
    PlannedPromote(w, hid, at);
    var land := Land(|w.inFlight|);
    assert Enabled(u, land);
    assert Step(u, land).history == w.history + [PromotionOf(Head(w), at)];
    StepIsSound(u, land);
  }

  lemma LostPromotionKeepsItsSlot(w: World, hid: nat, at: Time, late: bool) returns (steps: seq<Action>, v: World)
    requires Sound(w) && Certain(w, hid) && Head(w).revision < MAX_INT64
    ensures Runs(w, steps) && Final(w, steps) == v
    ensures steps == if late then [Do(hid, Command.Promote(at), InFlight), Land(|w.inFlight|)]
                     else [Do(hid, Command.Promote(at), CommittedLost)]
    ensures PromotedUnseen(w, hid, at, v)
  {
    hide Sound, Fold, Runs, Final, Step, Enabled, PromotedUnseen;
    if late {
      var a, land := Do(hid, Command.Promote(at), InFlight), Land(|w.inFlight|);
      FlyingPromotion(w, hid, at);
      OneStep(w, a);
      LandedPromotion(w, hid, at, Step(w, a));
      ThenStep(w, [a], land);
      steps, v := [a] + [land], Step(Step(w, a), land);
    } else {
      var a := Do(hid, Command.Promote(at), CommittedLost);
      LostPromotion(w, hid, at);
      OneStep(w, a);
      steps, v := [a], Step(w, a);
    }
  }

  lemma StepIsSound(w: World, a: Action)
    requires Sound(w) && Enabled(w, a) && Clean(Step(w, a).history)
    ensures Sound(Step(w, a))
  {
    hide Inv, Named, RevokedAreStopped, Clean, Step, Enabled;
    StepKeepsInv(w, a);
    StepKeepsNamed(w, a);
    StepKeepsRevoked(w, a);
  }

  lemma JudgeGoesThrough(w: World, hid: nat)
    requires Sound(w) && Idle(w, hid) && w.handles[hid].promoteSlot == |w.history| > 0
    requires Head(w).attempt.id == w.handles[hid].runAttempt && Head(w).attempt.phase.PhasePromoted?
    ensures var judged := Do(hid, JudgePromotion, Failed);
            && Enabled(w, judged)
            && Step(w, judged).handles[hid] == w.handles[hid].(certificate := None)
            && JudgedPromoted(w.name, w.history, |w.history|, w.handles[hid].runAttempt)
  {
    hide Sound, Fold, CheckOk, SlotDefeat;
    HeadPasses(w);
    HandleAtHead(w, hid);
    Quietly(w, hid, w.handles[hid], JudgePromotion);
  }

  /** In every reachable world with a clean stream, a run whose certified promotion
      became durable behind a lost response, or landed after the call gave up, is
      judged promoted as soon as it looks, and is not stopped by it. */
  lemma LostPromotionIsRecognized(name: string, actions: seq<Action>, hid: nat, at: Time, late: bool)
    returns (steps: seq<Action>, v: World)
    requires Runs(Init(name), actions) && Clean(Final(Init(name), actions).history)
    requires Certain(Final(Init(name), actions), hid) && Head(Final(Init(name), actions)).revision < MAX_INT64
    ensures var w := Final(Init(name), actions);
            && Runs(w, steps) && Final(w, steps) == v
            && steps == (if late then [Do(hid, Command.Promote(at), InFlight), Land(|w.inFlight|)]
                         else [Do(hid, Command.Promote(at), CommittedLost)])
            && hid in v.handles && !v.handles[hid].stopped && v.handles[hid].promoteSlot == |v.history|
            && Head(v) == Promote(Head(w), at)
            && var judged := Do(hid, JudgePromotion, Failed);
            && Enabled(v, judged)
            && Step(v, judged).handles[hid] == v.handles[hid].(certificate := None)
            && JudgedPromoted(v.name, v.history, |v.history|, v.handles[hid].runAttempt)
  {
    hide Sound, Fold, Clean, Runs, Final, Step, Enabled, JudgedPromoted;
    var w := Final(Init(name), actions);
    ReachableIsSound(name, actions);
    steps, v := LostPromotionKeepsItsSlot(w, hid, at, late);
    JudgeGoesThrough(v, hid);
  }

  // ---------------------------------------------------------------------------
  // Who stops
  // ---------------------------------------------------------------------------

  lemma ReconcileGoesThrough(w: World, hid: nat)
    requires Sound(w) && Idle(w, hid) && w.handles[hid].stage.Running? && !w.handles[hid].stopped
    ensures var h := w.handles[hid];
            var a := Do(hid, Reconcile(|w.history|, true), Failed);
            && Enabled(w, a)
            && Step(w, a).handles[hid] == Superseded(h.(view := |w.history|), Head(w))
            && !h.revoked
  {
    hide Sound, Fold, CheckOk, Superseded;
    HeadPasses(w);
    HandleAtHead(w, hid);
    Quietly(w, hid, w.handles[hid], Reconcile(|w.history|, true));
  }

  /** In every reachable world with a clean stream, a running run that reads the head
      is stopped exactly when its attempt is no longer there under its own claim, and
      revoked exactly when somebody else claims it; otherwise only its view moves. */
  lemma ReconcileStopsExactly(name: string, actions: seq<Action>, hid: nat)
    requires Runs(Init(name), actions) && Clean(Final(Init(name), actions).history)
    requires var w := Final(Init(name), actions);
             && Idle(w, hid) && w.handles[hid].stage.Running? && !w.handles[hid].stopped
    ensures var w := Final(Init(name), actions);
            var h := w.handles[hid];
            var a := Do(hid, Reconcile(|w.history|, true), Failed);
            && Enabled(w, a)
            && var k := Step(w, a).handles[hid];
            var own := Head(w).attempt.id == h.runAttempt;
            && (k.stopped <==> !(own && Head(w).attempt.runner == h.runner))
            && (k.revoked <==> own && Head(w).attempt.runner != h.runner)
            && (!k.stopped ==> k == h.(view := |w.history|))
  {
    hide Sound, Fold, Clean, Runs, Final, Step, Enabled;
    ReachableIsSound(name, actions);
    ReconcileGoesThrough(Final(Init(name), actions), hid);
  }

  /** In every reachable world, a running run that cannot read the stream, or reads a
      prefix from its view on that does not validate, is stopped and revoked. */
  lemma BlindRunsStop(name: string, actions: seq<Action>, hid: nat, v: nat, readable: bool)
    requires Runs(Init(name), actions)
    requires var w := Final(Init(name), actions);
             && Idle(w, hid) && w.handles[hid].stage.Running? && v <= |w.history|
             && (!readable || (v >= w.handles[hid].view && !CheckOk(name, w.history, v)))
    ensures var w := Final(Init(name), actions);
            var a := Do(hid, Reconcile(v, readable), Failed);
            && Enabled(w, a)
            && Step(w, a).handles[hid].stopped
            && (Step(w, a).handles[hid].revoked <==> w.handles[hid].revoked || !w.handles[hid].stopped)
  {
    hide Final, Runs, Inv, At, CheckOk;
    InitOk(name);
    RunsKeepInv(Init(name), actions);
    NameStays(Init(name), actions);
    ViewIsPrefix(Final(Init(name), actions), hid);
  }

  lemma ViewIsPrefix(w: World, hid: nat)
    requires Inv(w) && hid in w.handles
    ensures w.handles[hid].view <= |w.history|
  {
    hide EntryOk, MessageOk, CaughtUpBy, CertifiedAt;
    assert HandleOk(w.history, w.marks, hid, w.handles[hid]);
  }

  /** The run lost the slot its promotion or its catch-up contends for. */
  predicate LostSlot(w: World, hid: nat, judgement: Command, slot: nat)
    requires hid in w.handles
  {
    var h := w.handles[hid];
    && 0 < slot <= |w.history|
    && (|| (judgement.JudgePromotion? && slot == h.promoteSlot && !SlotPromoted(w.history, slot, h.runAttempt))
        || (judgement.JudgeCatchUp? && h.drained && slot == h.drainSlot + 1))
  }

  lemma JudgedByTheSlot(w: World, hid: nat, judgement: Command, slot: nat)
    requires Sound(w) && Idle(w, hid) && LostSlot(w, hid, judgement, slot)
    ensures CheckOk(w.name, w.history, slot)
    ensures var a := Do(hid, judgement, Failed);
            Enabled(w, a) && Step(w, a).handles[hid] == SlotDefeat(w.name, w.history, w.handles[hid], slot)
  {
    PrefixPasses(w, slot);
    HandleAtHead(w, hid);
    hide Sound, At, CheckOk, SlotDefeat;
    Quietly(w, hid, w.handles[hid], judgement);
  }

  lemma PrefixPasses(w: World, v: nat)
    requires Sound(w) && v <= |w.history|
    ensures CheckOk(w.name, w.history, v)
  {
    hide Inv, RevokedAreStopped, FoldFrom, Valid;
    EveryCleanPrefixIsValid(w.history, v);
    FoldName(w.name, w.history[..v]);
  }

  /** In every reachable world with a clean stream, a run judged by a slot it lost is
      stopped exactly when the slot shows its attempt gone or claimed by another,
      and revoked exactly in the second case; a run its own command ended keeps its
      verdict. */
  lemma LostSlotsStopExactly(name: string, actions: seq<Action>, hid: nat, judgement: Command, slot: nat)
    requires Runs(Init(name), actions) && Clean(Final(Init(name), actions).history)
    requires Idle(Final(Init(name), actions), hid) && LostSlot(Final(Init(name), actions), hid, judgement, slot)
    ensures var w := Final(Init(name), actions);
            var h := w.handles[hid];
            var a := Do(hid, judgement, Failed);
            && Enabled(w, a)
            && var k := Step(w, a).handles[hid];
            var taken := !h.commandEnded && TakenAt(w.history, slot, h);
            && (k.stopped <==> h.stopped || taken || (!h.commandEnded && At(w.history, slot).attempt.id != h.runAttempt))
            && (k.revoked <==> h.revoked || taken)
  {
    hide Sound, Clean, At, Runs, Final, Step, Enabled, SlotDefeat, CheckOk, SlotPromoted, LostSlot;
    var w := Final(Init(name), actions);
    ReachableIsSound(name, actions);
    JudgedByTheSlot(w, hid, judgement, slot);
    SlotInStream(w, hid, judgement, slot);
    SlotVerdictPrecedence(w.name, w.history, w.handles[hid], slot);
  }

  lemma SlotInStream(w: World, hid: nat, judgement: Command, slot: nat)
    requires hid in w.handles && LostSlot(w, hid, judgement, slot)
    ensures 0 < slot <= |w.history|
  {
    hide SlotPromoted;
  }

  /** In every reachable world, a promotion that is sent without its run learning that it
      is durable stays open under the slot it contends for; when it was refused that slot
      is already decided. */
  lemma OpenPromotionsKeepTheirSlot(name: string, actions: seq<Action>, hid: nat, at: Time, outcome: Outcome)
    requires Runs(Init(name), actions) && !outcome.Acked? && !outcome.Unobserved?
    requires var w := Final(Init(name), actions);
             && hid in w.handles && Enabled(w, Do(hid, Command.Promote(at), outcome))
             && PlanOf(w.name, w.history, w.handles[hid], Command.Promote(at)).events != []
    ensures var w := Final(Init(name), actions);
            var h := w.handles[hid];
            var v := Step(w, Do(hid, Command.Promote(at), outcome));
            && v.handles[hid] == h.(promoteSlot := h.view + 1)
            && (outcome.Rejected? ==> v.handles[hid].promoteSlot <= |v.history|)
  {
    hide Final, Runs, Inv, At, CheckOk;
    InitOk(name);
    RunsKeepInv(Init(name), actions);
    ViewIsPrefix(Final(Init(name), actions), hid);
  }

  // ---------------------------------------------------------------------------
  // Ending an attempt
  // ---------------------------------------------------------------------------

  /** Nothing else of the handle is in progress. */
  predicate Idle(w: World, hid: nat) {
    hid in w.handles && w.handles[hid].retire.NoRetire?
  }

  function Vacated(s: State): State {
    s.(attempt := VACANT)
  }

  lemma RolledBackStep(s: State, at: Time)
    requires Valid(s) && s.attempt.phase.PhasePromoted? && s.attempt.previous.version != 0 && s.revision < MAX_INT64
    ensures Apply(s, RolledBack(s.live, s.attempt.previous, Increment(s.revision), at)) ==
            Vacated(s).(live := s.attempt.previous, revision := s.revision + 1)
  {
    hide RestAccepts, ValidName, CanonicalWitnesses, RetirementPolicy.Valid;
  }

  /** A promoted version whose previous one still stands is rolled back to it. */
  lemma RollbackGoesThrough(w: World, hid: nat, at: Time, outcome: Outcome)
    requires Sound(w) && Idle(w, hid) && outcome.Commits()
    requires Head(w).attempt.phase.PhasePromoted? && Head(w).attempt.previous.version != 0 && Head(w).revision < MAX_INT64
    ensures var a := Do(hid, Rollback(|w.history|, at), outcome);
            && Enabled(w, a)
            && var v := Step(w, a);
            && Sound(v) && v.name == w.name
            && Head(v) == Vacated(Head(w)).(live := Head(w).attempt.previous, revision := Head(w).revision + 1)
  {
    hide Sound, FoldFrom, Apply, Valid, PlanRollback, Clean;
    var s := Head(w);
    var e := RolledBack(s.live, s.attempt.previous, Increment(s.revision), at);
    HeadPasses(w);
    HandleAtHead(w, hid);
    RolledBackStep(s, at);
    OneMore(w, e);
    RollbackIsExact(w.name, w.history, w.handles[hid], |w.history|, at);
    TakesEffect(w, hid, w.handles[hid], Rollback(|w.history|, at), outcome);
  }

  /** An attempt that was not promoted is abandoned: what was live goes on serving. */
  lemma AbandonGoesThrough(w: World, hid: nat, cause: string, outcome: Outcome)
    requires Sound(w) && Idle(w, hid) && outcome.Commits() && Head(w).attempt.phase.BeforePromotion()
    ensures var a := Do(hid, Abandon(|w.history|, cause), outcome);
            && Enabled(w, a)
            && var v := Step(w, a);
            && Sound(v) && v.name == w.name && Head(v) == Vacated(Head(w)) && v.runners == w.runners
            && v.handles.Keys == w.handles.Keys
  {
    hide Sound, FoldFrom, Valid, PlanAbandon, Clean;
    HeadPasses(w);
    HandleAtHead(w, hid);
    OneMore(w, Abandoned(cause));
    AbandonIsExact(w.name, w.history, w.handles[hid], |w.history|, cause);
    TakesEffect(w, hid, w.handles[hid], Abandon(|w.history|, cause), outcome);
  }

  // ---------------------------------------------------------------------------
  // Letting go
  // ---------------------------------------------------------------------------

  /** A run that has exited releases the claim that still stands at the head. */
  lemma ReleaseGoesThrough(w: World, hid: nat, at: Time, outcome: Outcome)
    requires Sound(w) && Idle(w, hid) && w.handles[hid].stage.Exited? && w.handles[hid].view == |w.history|
    requires OwnsHead(w, hid) && !Head(w).attempt.released && outcome.Commits()
    ensures var a := Do(hid, Release(at), outcome);
            && Enabled(w, a)
            && var v := Step(w, a);
            && Sound(v) && v.name == w.name && v.handles[hid].stage.Over?
            && Head(v) == Head(w).(attempt := Head(w).attempt.(released := true, releasedAt := at))
  {
    hide Sound, FoldFrom, Valid, PlanRelease, Clean;
    HeadPasses(w);
    HandleAtHead(w, hid);
    OwnedIsInFlight(Head(w));
    OneMore(w, RunnerReleased(Head(w).attempt.id, w.handles[hid].runner, at));
    ReleaseIsExact(w.name, w.history, w.handles[hid], at);
    PlannedRelease(w.name, w.history, w.handles[hid], at, outcome);
    TakesEffect(w, hid, w.handles[hid], Release(at), outcome);
  }

  predicate OwnsHead(w: World, hid: nat)
    requires hid in w.handles
  {
    && Head(w).attempt.id == w.handles[hid].runAttempt && Head(w).attempt.runner == w.handles[hid].runner
    && Head(w).attempt.runner != NIL_UUID
  }

  lemma OwnedIsInFlight(s: State)
    requires Valid(s) && s.attempt.runner != NIL_UUID
    ensures !s.attempt.phase.PhaseNone? && s.attempt.phase.Known() && s.attempt.id != NIL_UUID
  {
    hide RestAccepts, ValidName, CanonicalWitnesses, RetirementPolicy.Valid;
  }

  lemma PlannedRelease(name: string, history: History, h: Handle, at: Time, outcome: Outcome)
    requires h.view <= |history| && h.stage.Exited?
    ensures LeftBy(PlanRelease(name, history, h, at), outcome).stage.Over?
  {
    hide At, CheckOk;
  }

  /** A run that could not start, or that ran and returned, exits. */
  lemma ExitGoesThrough(w: World, hid: nat)
    requires Sound(w) && Idle(w, hid) && (w.handles[hid].stage.Claimed? || w.handles[hid].stage.Running?)
    ensures var h := w.handles[hid];
            var a := Do(hid, if h.stage.Claimed? then FailStart else PublishExit, Failed);
            && Enabled(w, a)
            && var v := Step(w, a);
            && Sound(v) && v.name == w.name && v.history == w.history && Idle(v, hid)
            && v.handles[hid].stage.Exited?
            && v.handles[hid].runAttempt == h.runAttempt && v.handles[hid].runner == h.runner
            && v.handles[hid].view == h.view
  {
    hide Sound, FoldFrom;
    HandleAtHead(w, hid);
    var h := w.handles[hid];
    Quietly(w, hid, h, if h.stage.Claimed? then FailStart else PublishExit);
  }

  /** In every reachable world with a clean stream, a run whose view is the head and whose
      claim stands there lets go in two steps, whether it ever ran or not, and leaves the
      attempt as it is, for anybody to claim without taking over. */
  lemma ClaimsAreHandedOver(name: string, actions: seq<Action>, hid: nat, at: Time, outcome: Outcome)
    requires Runs(Init(name), actions) && Clean(Final(Init(name), actions).history) && outcome.Commits()
    requires var w := Final(Init(name), actions);
             && Idle(w, hid) && OwnsHead(w, hid) && !Head(w).attempt.released && w.handles[hid].view == |w.history|
             && (w.handles[hid].stage.Claimed? || w.handles[hid].stage.Running?)
    ensures var w := Final(Init(name), actions);
            var steps := [Do(hid, if w.handles[hid].stage.Claimed? then FailStart else PublishExit, Failed),
                          Do(hid, Release(at), outcome)];
            && Runs(w, steps)
            && Clean(Final(w, steps).history)
            && Head(Final(w, steps)) == Head(w).(attempt := Head(w).attempt.(released := true, releasedAt := at))
            && !Head(Final(w, steps)).attempt.Standing()
  {
    hide Sound, Fold, Clean, Runs, Final, Step, Enabled, OwnsHead;
    var w := Final(Init(name), actions);
    var exit := Do(hid, if w.handles[hid].stage.Claimed? then FailStart else PublishExit, Failed);
    var release := Do(hid, Release(at), outcome);
    ReachableIsSound(name, actions);
    ExitGoesThrough(w, hid);
    OneStep(w, exit);
    StillOwns(w, Step(w, exit), hid);
    ReleaseGoesThrough(Step(w, exit), hid, at, outcome);
    ThenStep(w, [exit], release);
    assert [exit] + [release] == [exit, release];
    SoundIsClean(Step(Step(w, exit), release));
  }

  lemma StillOwns(w: World, v: World, hid: nat)
    requires hid in w.handles && OwnsHead(w, hid) && hid in v.handles && v.history == w.history
    requires v.handles[hid].runAttempt == w.handles[hid].runAttempt && v.handles[hid].runner == w.handles[hid].runner
    ensures OwnsHead(v, hid)
  {
    hide Fold;
  }

  /** A retirement that is given up leaves the handle free, and its reservation standing. */
  lemma AbortGoesThrough(w: World, hid: nat)
    requires Sound(w) && hid in w.handles && !w.handles[hid].retire.NoRetire?
    ensures var a := Do(hid, AbortRetire, Failed);
            && Enabled(w, a)
            && var v := Step(w, a);
            && Sound(v) && v.name == w.name && v.history == w.history
            && v.handles == w.handles[hid := w.handles[hid].(retire := NoRetire)]
  {
    hide Sound;
    HandleAtHead(w, hid);
    Quietly(w, hid, w.handles[hid], AbortRetire);
  }

  // ---------------------------------------------------------------------------
  // Retiring
  // ---------------------------------------------------------------------------

  /** Retiring behind a first version vacates the slot at once. */
  lemma FirstRetireGoesThrough(w: World, hid: nat, c: Command, outcome: Outcome)
    requires Sound(w) && Idle(w, hid) && outcome.Commits()
    requires c.Retire? && c.v == |w.history| && c.authorization == UNATTESTED
    requires Head(w).attempt.phase.PhasePromoted? && Head(w).attempt.previous.version == 0
    ensures var a := Do(hid, c, outcome);
            && Enabled(w, a)
            && var v := Step(w, a);
            && Sound(v) && v.name == w.name && Head(v) == Vacated(Head(w)) && v.runners == w.runners
            && v.handles.Keys == w.handles.Keys
  {
    hide Sound, FoldFrom, Valid, PlanRetire, Clean;
    var done := PreviousRetired(Head(w).attempt.previous, []);
    HeadPasses(w);
    HandleAtHead(w, hid);
    FirstIsNone(Head(w));
    OneMore(w, done);
    FirstRetireIsExact(w.name, w.history, w.handles[hid], c);
    TakesEffect(w, hid, w.handles[hid], c, outcome);
  }

  lemma FirstIsNone(s: State)
    requires Valid(s) && s.attempt.phase.PhasePromoted? && s.attempt.previous.version == 0
    ensures s.attempt.previous == NO_ID
  {
    hide RestAccepts, ValidName, CanonicalWitnesses, RetirementPolicy.Valid;
  }

  /** The reservation, with the witnesses it captures. */
  function Retiring(s: State, witnesses: seq<string>, at: Time): State {
    s.(attempt := s.attempt.(phase := PhaseRetiring, retiringAt := at, retiringWitnesses := witnesses))
  }

  /** This handle's retirement holds the reservation at the head. */
  predicate HoldsReserved(w: World, hid: nat) {
    && hid in w.handles && w.handles[hid].view == |w.history|
    && Head(w).attempt.phase.PhaseRetiring?
    && w.handles[hid].retire == Reserved(Head(w).attempt.previous)
  }

  predicate Answered(w: World, hid: nat, torn: bool) {
    && hid in w.handles && w.handles[hid].view == |w.history|
    && Head(w).attempt.phase.PhaseRetiring?
    && (if torn then w.handles[hid].retire.TornDown? else w.handles[hid].retire.Ready?)
    && w.handles[hid].retire.previous == Head(w).attempt.previous
    && ReceiptsAttest(w.handles[hid].retire.receipts, Head(w).attempt.retiringWitnesses, LiveCutover(Head(w)))
  }

  lemma ReserveLeaves(s: State, c: Command, receipts: seq<Receipt>)
    requires c.Retire? && s.fault.NoFault? && Reserves(s, c, receipts)
    ensures Apply(s, RetireStarted(s.attempt.previous, s.policy.generation, Asked(s, c.authorization), receipts,
                                   c.authorization, c.at)) ==
            Retiring(s, Asked(s, c.authorization), c.at)
    ensures s.attempt.phase.PhasePromoted? && s.attempt.previous != NO_ID
  {
    hide ReceiptsAttest, Vouched, RetirementPolicy.Zero;
  }

  lemma PreviousHasVersion(s: State)
    requires Valid(s) && s.attempt.phase.PhasePromoted? && s.attempt.previous != NO_ID
    ensures s.attempt.previous.version != 0
  {
    hide RestAccepts, ValidName, CanonicalWitnesses, RetirementPolicy.Valid;
  }

  lemma PlannedReserve(name: string, history: History, h: Handle, c: Command)
    requires c.Retire? && c.v <= |history| && c.able && CheckOk(name, history, c.v)
    requires At(history, c.v).attempt.phase.PhasePromoted? && At(history, c.v).attempt.previous.version != 0
    ensures PlanRetire(name, history, h, c) == PlanReserve(h.(view := c.v), At(history, c.v), c)
  {
    hide At, CheckOk, PlanReserve;
  }

  /** A reservation everyone asked vouches for, or an authorized one, is recorded. */
  lemma ReserveGoesThrough(w: World, hid: nat, c: Command)
    requires Sound(w) && Idle(w, hid)
    requires c.Retire? && c.v == |w.history| && c.able && (c.authorization == UNATTESTED || c.authorization.Signed())
    requires Reservable(Head(w), c)
    ensures var a := Do(hid, c, Acked);
            && Enabled(w, a)
            && var v := Step(w, a);
            && Sound(v) && v.name == w.name && v.runners == w.runners && v.handles.Keys == w.handles.Keys
            && Head(v) == Retiring(Head(w), Asked(Head(w), c.authorization), c.at)
            && HoldsReserved(v, hid)
  {
    hide Sound, FoldFrom, Apply, Valid, PlanRetire, PlanReserve, Reserves, Clean, CheckOk;
    var s := Head(w);
    var h := w.handles[hid];
    HeadPasses(w);
    HandleAtHead(w, hid);
    var some :| Reserves(s, c, some);
    ReserveLeaves(s, c, some);
    PreviousHasVersion(s);
    ReserveIsExact(h.(view := c.v), s, c);
    PlannedReserve(w.name, w.history, h, c);
    var receipts :| Reserves(s, c, receipts)
      && PlanReserve(h.(view := c.v), s, c).events ==
         [RetireStarted(s.attempt.previous, s.policy.generation, Asked(s, c.authorization), receipts, c.authorization, c.at)];
    ReserveLeaves(s, c, receipts);
    OneMore(w, RetireStarted(s.attempt.previous, s.policy.generation, Asked(s, c.authorization), receipts,
                             c.authorization, c.at));
    TakesEffect(w, hid, h, c, Acked);
  }

  lemma RecheckReadies(h: Handle, previous: ID, s: State, answers: Answers)
    requires Vouched(answers, s.attempt.retiringWitnesses, LiveCutover(s))
    ensures var plan := Rechecks(h, previous, s, answers);
            && plan.events == []
            && plan.acked == h.(retire := plan.acked.retire) && plan.acked.retire.Ready?
            && plan.acked.retire.previous == previous
            && ReceiptsAttest(plan.acked.retire.receipts, s.attempt.retiringWitnesses, LiveCutover(s))
  {
    hide Attest, Vouched, ReceiptsAttest;
    AttestIsUnanimous(answers, s.attempt.retiringWitnesses, LiveCutover(s));
  }

  /** Its own reservation is confirmed once every captured witness vouches again. */
  lemma ReattestGoesThrough(w: World, hid: nat, answers: Answers)
    requires Sound(w) && HoldsReserved(w, hid)
    requires Vouched(answers, Head(w).attempt.retiringWitnesses, LiveCutover(Head(w)))
    ensures var a := Do(hid, Reattest(|w.history|, answers), Failed);
            && Enabled(w, a)
            && var v := Step(w, a);
            && Sound(v) && v.name == w.name && v.runners == w.runners && v.handles.Keys == w.handles.Keys
            && v.history == w.history && Answered(v, hid, false)
  {
    hide Sound, FoldFrom, Rechecks, Vouched, ReceiptsAttest, CheckOk;
    var h := w.handles[hid];
    HeadPasses(w);
    RecheckReadies(h.(view := |w.history|, retire := NoRetire), h.retire.previous, Head(w), answers);
    Quietly(w, hid, h, Reattest(|w.history|, answers));
  }

  /** So is a reservation any other handle left behind. */
  lemma ResumeRetireGoesThrough(w: World, hid: nat, c: Command)
    requires Sound(w) && Idle(w, hid)
    requires c.Retire? && c.v == |w.history| && c.able && c.authorization == UNATTESTED
    requires Head(w).attempt.phase.PhaseRetiring? && Vouched(c.answers, Head(w).attempt.retiringWitnesses, LiveCutover(Head(w)))
    ensures var a := Do(hid, c, Failed);
            && Enabled(w, a)
            && var v := Step(w, a);
            && Sound(v) && v.name == w.name && v.runners == w.runners && v.handles.Keys == w.handles.Keys
            && v.history == w.history && Answered(v, hid, false)
  {
    hide Sound, FoldFrom, Rechecks, Vouched, ReceiptsAttest, CheckOk, PlanReserve, Valid;
    var h := w.handles[hid];
    HeadPasses(w);
    HandleAtHead(w, hid);
    RetiringHasPrevious(Head(w));
    RecheckReadies(h.(view := |w.history|), Head(w).attempt.previous, Head(w), c.answers);
    Quietly(w, hid, h, c);
  }

  lemma RetiringHasPrevious(s: State)
    requires Valid(s) && s.attempt.phase.PhaseRetiring?
    ensures s.attempt.previous.version != 0 && s.attempt.previous != NO_ID
  {
    hide RestAccepts, ValidName, CanonicalWitnesses, RetirementPolicy.Valid;
  }

  lemma TeardownGoesThrough(w: World, hid: nat)
    requires Sound(w) && Answered(w, hid, false)
    ensures var a := Do(hid, Teardown(true), Failed);
            && Enabled(w, a)
            && var v := Step(w, a);
            && Sound(v) && v.name == w.name && v.runners == w.runners && v.handles.Keys == w.handles.Keys
            && v.history == w.history && Answered(v, hid, true)
            && v.torn == w.torn + [Destruction(Head(w).attempt.previous, |w.history|, hid, true)]
  {
    hide Sound, FoldFrom, ReceiptsAttest;
    HandleAtHead(w, hid);
    Quietly(w, hid, w.handles[hid], Teardown(true));
  }

  /** Once the storage is gone the retirement completes: the slot is vacant. */
  lemma CompleteGoesThrough(w: World, hid: nat, outcome: Outcome)
    requires Sound(w) && Answered(w, hid, true) && outcome.Commits()
    ensures var a := Do(hid, CompleteRetire, outcome);
            && Enabled(w, a)
            && var v := Step(w, a);
            && Sound(v) && v.name == w.name && Head(v) == Vacated(Head(w)) && v.runners == w.runners
            && v.handles.Keys == w.handles.Keys
  {
    hide Sound, FoldFrom, ReceiptsAttest, Valid, Clean;
    var h := w.handles[hid];
    HeadPasses(w);
    RetiringHasPrevious(Head(w));
    OneMore(w, PreviousRetired(h.retire.previous, h.retire.receipts));
    TakesEffect(w, hid, h, CompleteRetire, outcome);
  }
}
