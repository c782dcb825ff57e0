/** No reachable clean stream is a dead end: whoever left an attempt behind, and in
    whatever phase, it can be claimed and run on, or vacated, and the next version
    can be built, promoted and served. */
module NoDeadEnds {
  import opened Base
  import opened LifecycleState
  import opened LifecycleEvents
  import opened Protocol
  import opened CommandGuards
  import opened Progress

  // ---------------------------------------------------------------------------
  // Vacating the slot
  // ---------------------------------------------------------------------------

  /** The run from one world to the other changes nothing that is served or allocated. */
  ghost predicate Leads(w: World, more: seq<Action>, v: World) {
    && Runs(w, more) && Final(w, more) == v
    && Sound(v) && v.name == w.name && v.runners == w.runners && v.handles.Keys == w.handles.Keys
    && Head(v).live == Head(w).live && Head(v).revision == Head(w).revision
    && Head(v).highWater == Head(w).highWater && Head(v).name == Head(w).name
  }

  lemma LeadsOn(w: World, more: seq<Action>, v: World, a: Action)
    requires Leads(w, more, v) && Enabled(v, a) && Leads(v, [a], Step(v, a))
    ensures Leads(w, more + [a], Step(v, a))
  {
    hide Sound, Step, Enabled, Runs, Final, Fold;
    ThenStep(w, more, a);
  }

  lemma LeadsNowhere(w: World)
    requires Sound(w)
    ensures Leads(w, [], w)
  {
    hide Sound, Fold;
  }

  lemma LeadsOnce(w: World, a: Action)
    requires Enabled(w, a) && Sound(Step(w, a)) && Step(w, a).name == w.name && Step(w, a).runners == w.runners
    requires Step(w, a).handles.Keys == w.handles.Keys
    requires var v := Step(w, a);
             && Head(v).live == Head(w).live && Head(v).revision == Head(w).revision
             && Head(v).highWater == Head(w).highWater && Head(v).name == Head(w).name
    ensures Leads(w, [a], Step(w, a))
  {
    hide Sound, Step, Enabled, Runs, Final, Fold;
    OneStep(w, a);
  }

  const NOBODY: Answers := map[]

  /** Everyone named serves this cutover. */
  function Unanimous(witnesses: seq<string>, cutover: Cutover): Answers {
    map id | id in witnesses :: Serves(cutover)
  }

  /** From a confirmed reservation to a vacant slot. */
  lemma FinishesRetiring(w: World, hid: nat) returns (more: seq<Action>, v: World)
    requires Sound(w) && Answered(w, hid, false)
    ensures Leads(w, more, v) && Head(v).attempt.phase.PhaseNone?
  {
    hide Sound, Step, Enabled, Fold, Answered, Leads, Runs, Final;
    TeardownGoesThrough(w, hid);
    var t := Do(hid, Teardown(true), Failed);
    LeadsOnce(w, t);
    var u := Step(w, t);
    CompleteGoesThrough(u, hid, Acked);
    var c := Do(hid, CompleteRetire, Acked);
    LeadsOnce(u, c);
    LeadsOn(w, [t], u, c);
    more, v := [t] + [c], Step(u, c);
  }

  /** An override needs no witness, so it reserves whatever the policy. */
  lemma OverrideReserves(s: State, c: Command)
    requires c.Retire? && c.authorization.Signed() && s.fault.NoFault?
    requires s.attempt.phase.PhasePromoted? && s.attempt.previous != NO_ID
    ensures Reservable(s, c) && Asked(s, c.authorization) == []
  {
    assert Reserves(s, c, []);
  }

  lemma RetiresByOverride(w: World, hid: nat, authorization: Attestation) returns (more: seq<Action>, v: World)
    requires Sound(w) && Idle(w, hid) && authorization.Signed()
    requires Head(w).attempt.phase.PhasePromoted? && Head(w).attempt.previous.version != 0
    ensures Leads(w, more, v) && Head(v).attempt.phase.PhaseNone?
  {
    hide Sound, Step, Enabled, Fold, Answered, Leads, Runs, Final, HoldsReserved, Idle, Reservable, CheckOk, Valid;
    var c := Retire(|w.history|, authorization, true, NOBODY, ZERO_TIME);
    HeadPasses(w);
    OverrideReserves(Head(w), c);
    ReserveGoesThrough(w, hid, c);
    var a := Do(hid, c, Acked);
    LeadsOnce(w, a);
    var u := Step(w, a);
    ReattestGoesThrough(u, hid, NOBODY);
    var b := Do(hid, Reattest(|u.history|, NOBODY), Failed);
    LeadsOnce(u, b);
    LeadsOn(w, [a], u, b);
    var rest;
    rest, v := FinishesRetiring(Step(u, b), hid);
    LeadsFar(w, [a] + [b], Step(u, b), rest, v);
    more := [a] + [b] + rest;
  }

  lemma LeadsFar(w: World, first: seq<Action>, u: World, second: seq<Action>, v: World)
    requires Leads(w, first, u) && Leads(u, second, v)
    ensures Leads(w, first + second, v)
  {
    hide Sound, Step, Enabled, Runs, Final, Fold;
    ThenRuns(w, first, second);
  }

  lemma RetiresReserved(w: World, hid: nat) returns (more: seq<Action>, v: World)
    requires Sound(w) && Idle(w, hid) && Head(w).attempt.phase.PhaseRetiring?
    ensures Leads(w, more, v) && Head(v).attempt.phase.PhaseNone?
  {
    hide Sound, Step, Enabled, Fold, Answered, Leads, Runs, Final, Idle;
    var answers := Unanimous(Head(w).attempt.retiringWitnesses, LiveCutover(Head(w)));
    var c := Retire(|w.history|, UNATTESTED, true, answers, ZERO_TIME);
    ResumeRetireGoesThrough(w, hid, c);
    var a := Do(hid, c, Failed);
    LeadsOnce(w, a);
    var rest;
    rest, v := FinishesRetiring(Step(w, a), hid);
    LeadsFar(w, [a], Step(w, a), rest, v);
    more := [a] + rest;
  }

  /** Whatever occupies the slot, an idle handle can vacate it and leave what is
      served as it was: it abandons, or completes the retirement. */
  lemma SlotCanBeVacated(w: World, hid: nat, authorization: Attestation) returns (more: seq<Action>, v: World)
    requires Sound(w) && Idle(w, hid) && authorization.Signed()
    ensures Leads(w, more, v) && Head(v).attempt.phase.PhaseNone?
  {
    hide Sound, Step, Enabled, Fold, Leads, Runs, Final, Idle, CheckOk;
    HeadPasses(w);
    PhaseIsKnown(Head(w));
    hide Valid;
    var phase := Head(w).attempt.phase;
    if phase.PhaseNone? {
      LeadsNowhere(w);
      more, v := [], w;
    } else if phase.BeforePromotion() {
      AbandonGoesThrough(w, hid, "", Acked);
      var a := Do(hid, Abandon(|w.history|, ""), Acked);
      LeadsOnce(w, a);
      more, v := [a], Step(w, a);
    } else if phase.PhaseRetiring? {
      more, v := RetiresReserved(w, hid);
    } else if Head(w).attempt.previous.version == 0 {
      var c := Retire(|w.history|, UNATTESTED, true, NOBODY, ZERO_TIME);
      FirstRetireGoesThrough(w, hid, c, Acked);
      LeadsOnce(w, Do(hid, c, Acked));
      more, v := [Do(hid, c, Acked)], Step(w, Do(hid, c, Acked));
    } else {
      more, v := RetiresByOverride(w, hid, authorization);
    }
  }

  lemma PhaseIsKnown(s: State)
    requires Valid(s)
    ensures s.attempt.phase.Known()
  {
    hide RestAccepts, ValidName, CanonicalWitnesses, RetirementPolicy.Valid;
  }

  // ---------------------------------------------------------------------------
  // From a claim to a serving version
  // ---------------------------------------------------------------------------

  /** The run of an unused handle has started on the head. */
  predicate Started(w: World, hid: nat) {
    Holds(w, hid) && w.handles[hid].stage.Running? && w.handles[hid].view == |w.history|
  }

  lemma ClaimantHolds(w: World, hid: nat, c: Command, outcome: Outcome, v: World)
    requires c.Claim? && Claimable(Head(w), c) && (outcome.Acked? || outcome.Unobserved?)
    requires hid in w.handles && Unused(w.handles[hid]) && hid in v.handles
    requires Head(v) == ClaimedBy(Head(w), c)
    requires Claimant(w.handles[hid], v.handles[hid], c, Head(w), |v.history|, outcome)
    ensures Holds(v, hid)
  {
    hide Fold, Attempt.Standing;
  }

  /** A claimable attempt, whoever left it, is claimed and its run started, also when
      the claim became durable without the handle seeing it. */
  lemma ClaimAndStart(w: World, hid: nat, c: Command, outcome: Outcome) returns (steps: seq<Action>, v: World)
    requires Sound(w) && c.Claim? && c.v == |w.history| && c.runner !in w.runners
    requires outcome.Acked? || outcome.Unobserved?
    requires hid in w.handles && Unused(w.handles[hid]) && Claimable(Head(w), c)
    ensures steps == if outcome.Acked? then [Do(hid, c, outcome), Do(hid, StartProcessor, Failed)]
                     else [Do(hid, c, outcome), Do(hid, Recover(|v.history|, true), Failed), Do(hid, StartProcessor, Failed)]
    ensures Runs(w, steps) && Final(w, steps) == v
    ensures Sound(v) && v.name == w.name && Head(v) == ClaimedBy(Head(w), c) && Started(v, hid)
    ensures Head(w).attempt.phase.BeforePromotion() ==> Draining(v, hid)
  {
    hide Sound, Step, Enabled, Fold, Runs, Final, Claimable, Attempt.Standing;
    var claim, start := Do(hid, c, outcome), Do(hid, StartProcessor, Failed);
    ClaimGoesThrough(w, hid, c, outcome);
    OneStep(w, claim);
    var u := Step(w, claim);
    ClaimantHolds(w, hid, c, outcome, u);
    steps := [claim];
    if outcome.Unobserved? {
      var recover := Do(hid, Recover(|u.history|, true), Failed);
      RecoverGoesThrough(u, hid);
      ThenStep(w, steps, recover);
      steps := steps + [recover];
      u := Step(u, recover);
    }
    StartGoesThrough(u, hid);
    ThenStep(w, steps, start);
    steps, v := steps + [start], Step(u, start);
  }

  /** In every reachable world with a clean stream, an unused handle can take up the
      attempt at the head, if it was never claimed, was released, or is taken over:
      the run starts on it, and nothing else about the projection changes. */
  lemma ResumedRunStarts(name: string, actions: seq<Action>, hid: nat, c: Command, outcome: Outcome)
    returns (steps: seq<Action>, v: World)
    requires Runs(Init(name), actions) && Clean(Final(Init(name), actions).history)
    requires var w := Final(Init(name), actions);
             && c.Claim? && c.v == |w.history| && c.runner !in w.runners && (outcome.Acked? || outcome.Unobserved?)
             && hid in w.handles && Unused(w.handles[hid]) && Claimable(Head(w), c)
    ensures var w := Final(Init(name), actions);
            && Runs(w, steps) && Final(w, steps) == v && |steps| == (if outcome.Acked? then 2 else 3)
            && steps[0] == Do(hid, c, outcome)
            && Clean(v.history) && Head(v) == ClaimedBy(Head(w), c) && Started(v, hid)
            && (Head(w).attempt.phase.BeforePromotion() ==> Draining(v, hid))
  {
    hide Sound, Fold, Clean, Runs, Final, Claimable, Started, Draining, Unused;
    var w := Final(Init(name), actions);
    ReachableIsSound(name, actions);
    steps, v := ClaimAndStart(w, hid, c, outcome);
    SoundIsClean(v);
  }

  /** In every reachable world with a clean stream, a promoted version is rolled back
      to the one before it in one step, at the next revision, and the slot is free. */
  lemma RollbackReturns(name: string, actions: seq<Action>, hid: nat, at: Time, outcome: Outcome)
    requires Runs(Init(name), actions) && Clean(Final(Init(name), actions).history) && outcome.Commits()
    requires var w := Final(Init(name), actions);
             && Idle(w, hid) && Head(w).attempt.phase.PhasePromoted? && Head(w).attempt.previous.version != 0
             && Head(w).revision < MAX_INT64
    ensures var w := Final(Init(name), actions);
            var a := Do(hid, Rollback(|w.history|, at), outcome);
            && Enabled(w, a) && Clean(Step(w, a).history)
            && Head(Step(w, a)).live == Head(w).attempt.previous && Head(Step(w, a)).revision == Head(w).revision + 1
            && Head(Step(w, a)).attempt == VACANT
  {
    hide Sound, Fold, Clean, Runs, Final, Step, Enabled;
    var w := Final(Init(name), actions);
    ReachableIsSound(name, actions);
    RollbackGoesThrough(w, hid, at, outcome);
    SoundIsClean(Step(w, Do(hid, Rollback(|w.history|, at), outcome)));
  }

  lemma {:induction false} Above(numbers: set<nat>) returns (n: nat)
    ensures n > 0 && forall m :: m in numbers ==> m < n
    decreases |numbers|
  {
    if numbers == {} {
      n := 1;
    } else {
      var m :| m in numbers;
      var k := Above(numbers - {m});
      n := if k > m then k else m + 1;
      assert forall i :: i in numbers ==> i == m || i in numbers - {m};
    }
  }

  lemma OpenGoesThrough(w: World, hid: nat)
    requires Sound(w) && hid !in w.handles
    ensures var a := Do(hid, Resume(|w.history|), Failed);
            && Enabled(w, a)
            && var v := Step(w, a);
            && Sound(v) && v.name == w.name && v.history == w.history && Idle(v, hid)
            && v.handles[hid] == Fresh(|w.history|)
  {
    hide Sound;
    Quietly(w, hid, Fresh(|w.history|), Resume(|w.history|));
  }

  /** From a vacant slot: begin, claim, start, catch up, promote. */
  lemma BuildsNext(w: World, hid: nat, runner: UUID) returns (more: seq<Action>, v: World)
    requires Sound(w) && hid !in w.handles && runner !in w.runners && runner != NIL_UUID && ValidName(w.name)
    requires Head(w).attempt.phase.PhaseNone? && Head(w).highWater < MAX_INT64 && Head(w).revision < MAX_INT64
    ensures Runs(w, more) && Final(w, more) == v && Sound(v)
    ensures Head(v).live == ID(w.name, Head(w).highWater + 1) && Head(v).revision == Head(w).revision + 1
    ensures Head(v).attempt.phase.PhasePromoted? && Head(v).attempt.previous == Head(w).live
  {
    hide Sound, Step, Enabled, Fold, Runs, Final, Draining, Started;
    BeginGoesThrough(w, hid, 1, "", ZERO_TIME, Acked);
    var begin := Do(hid, Begin(|w.history|, 1, "", ZERO_TIME), Acked);
    OneStep(w, begin);
    var u := Step(w, begin);
    var c := Command.Claim(|u.history|, runner, UNATTESTED, 0, ZERO_TIME);
    var steps, t := ClaimAndStart(u, hid, c, Acked);
    ThenRuns(w, [begin], steps);
    var last := [Do(hid, RecordCatchUp(0, 0, ZERO_TIME), Acked), Do(hid, Command.Promote(ZERO_TIME), Acked)];
    Drives(t, hid, 0, 0, ZERO_TIME, ZERO_TIME, Acked);
    ThenRuns(w, [begin] + steps, last);
    more, v := [begin] + steps + last, Final(t, last);
  }

  /** No reachable clean stream is a dead end: whatever attempt occupies the slot and
      in whatever phase, there are commands after which the next version number serves
      at the next revision, until a counter is exhausted. */
  lemma NextVersionCanServe(name: string, actions: seq<Action>) returns (more: seq<Action>, v: World)
    requires Runs(Init(name), actions) && Clean(Final(Init(name), actions).history) && ValidName(name)
    requires Head(Final(Init(name), actions)).highWater < MAX_INT64 && Head(Final(Init(name), actions)).revision < MAX_INT64
    ensures var w := Final(Init(name), actions);
            && Runs(w, more) && Final(w, more) == v && Clean(v.history)
            && Head(v).live == ID(name, Head(w).highWater + 1) && Head(v).revision == Head(w).revision + 1
            && Head(v).attempt.phase.PhasePromoted? && Head(v).attempt.previous == Head(w).live
  {
    hide Sound, Step, Enabled, Fold, Runs, Final, Clean, Idle;
    var w := Final(Init(name), actions);
    ReachableIsSound(name, actions);
    var hid := Above(w.handles.Keys);
    OpenGoesThrough(w, hid);
    var open := Do(hid, Resume(|w.history|), Failed);
    OneStep(w, open);
    var freeing, u := SlotCanBeVacated(Step(w, open), hid, Attestation("operator", "the slot is needed"));
    LeadsIs(Step(w, open), freeing, u);
    ThenRuns(w, [open], freeing);
    var next := Above(u.handles.Keys);
    var runner := Above(u.runners);
    var building;
    building, v := BuildsNext(u, next, runner);
    ThenRuns(w, [open] + freeing, building);
    SoundIsClean(v);
    more := [open] + freeing + building;
  }

  lemma LeadsIs(w: World, more: seq<Action>, v: World)
    requires Leads(w, more, v)
    ensures Runs(w, more) && Final(w, more) == v && Sound(v) && v.name == w.name
    ensures Head(v).live == Head(w).live && Head(v).revision == Head(w).revision && Head(v).highWater == Head(w).highWater
  {
    hide Sound, Fold, Runs, Final;
  }
}
