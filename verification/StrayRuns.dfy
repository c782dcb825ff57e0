/** Two runs that show where documented guarantees stop. In the first, a refused
    command installs a newer view in a running handle and its catch-up then
    poisons the stream. In the second, a promotion still in flight when its call
    returned lands after its processor's exit was published. */
module StrayRuns {
  import opened Base
  import opened LifecycleState
  import opened LifecycleEvents
  import opened CleanHistories
  import opened Protocol

  const NAME := "orders"
  const TARGET := ID("orders", 1)

  const INITIATED := RebuildInitiated(1, TARGET, NO_ID, "", ZERO_TIME)
  const CLAIMED := RunnerClaimed(1, 7, 0, UNATTESTED, ZERO_TIME)
  const DRAINED := CaughtUp(5, 0, ZERO_TIME)
  const PROMOTED := Promoted(NO_ID, TARGET, 1, 0, ZERO_TIME)

  const CREATED_ATTEMPT := VACANT.(id := 1, target := TARGET, phase := PhaseCreated)
  const BUILDING_ATTEMPT := CREATED_ATTEMPT.(phase := PhaseBuilding, runner := 7)
  const CREATED_STATE := NEW_STATE.(name := NAME, highWater := 1, attempt := CREATED_ATTEMPT)
  const BUILDING_STATE := CREATED_STATE.(attempt := BUILDING_ATTEMPT)
  const VACANT_STATE := CREATED_STATE.(attempt := VACANT)
  const DRAINED_STATE := BUILDING_STATE.(attempt := BUILDING_ATTEMPT.(phase := PhaseCaughtUp, caughtUpPos := 5))

  const BUILT: History := [INITIATED, CLAIMED, BuildStarted]
  const ABANDONED: History := [INITIATED, CLAIMED, BuildStarted, Abandoned("")]
  const POISONED: History := [INITIATED, CLAIMED, BuildStarted, Abandoned(""), DRAINED]
  const CAUGHT_UP: History := [INITIATED, CLAIMED, BuildStarted, DRAINED]
  const FLIPPED: History := [INITIATED, CLAIMED, BuildStarted, DRAINED, PROMOTED]

  lemma FoldsToBuilding()
    ensures Fold([INITIATED]) == CREATED_STATE
    ensures Fold(BUILT) == BUILDING_STATE
  {
    hide FoldFrom;
    assert TARGET.Valid();
    FoldNone();
    FoldExtend(NEW_STATE, [], INITIATED);
    assert [] + [INITIATED] == [INITIATED];
    FoldExtend(NEW_STATE, [INITIATED], CLAIMED);
    assert [INITIATED] + [CLAIMED] == [INITIATED, CLAIMED];
    FoldExtend(NEW_STATE, [INITIATED, CLAIMED], BuildStarted);
    assert [INITIATED, CLAIMED] + [BuildStarted] == BUILT;
  }

  lemma Folds()
    ensures Fold([]) == NEW_STATE
    ensures Fold([INITIATED]) == CREATED_STATE
    ensures Fold(BUILT) == BUILDING_STATE
    ensures Fold(ABANDONED) == VACANT_STATE
    ensures Fold(CAUGHT_UP) == DRAINED_STATE
    ensures !Clean(POISONED)
  {
    hide FoldFrom;
    FoldNone();
    FoldsToBuilding();
    FoldExtend(NEW_STATE, BUILT, Abandoned(""));
    assert BUILT + [Abandoned("")] == ABANDONED;
    FoldExtend(NEW_STATE, ABANDONED, DRAINED);
    assert ABANDONED + [DRAINED] == POISONED;
    FoldExtend(NEW_STATE, BUILT, DRAINED);
    assert BUILT + [DRAINED] == CAUGHT_UP;
  }

  lemma FoldNone()
    ensures Fold([]) == NEW_STATE
  {
  }

  lemma Views(history: History)
    requires history in {[], [INITIATED], BUILT, ABANDONED, CAUGHT_UP}
    ensures CheckOk(NAME, history, |history|)
    ensures At(history, |history|) == Fold(history)
  {
    hide FoldFrom, Apply;
    Folds();
    assert history[..|history|] == history;
    assert Valid(NEW_STATE) && Valid(CREATED_STATE) && Valid(BUILDING_STATE) && Valid(VACANT_STATE) && Valid(DRAINED_STATE);
  }

  // ---------------------------------------------------------------------------
  // Handles and worlds along the way
  // ---------------------------------------------------------------------------

  const BOUND := Fresh(3).(runner := 7, runAttempt := 1, target := TARGET, catchingUp := true)

  function Own(n: nat): seq<Mark> {
    MarksFor(n, Mark(1, false, false))
  }

  const WORLD1 := Init(NAME).(history := [INITIATED], marks := Own(1), handles := map[1 := Fresh(1)])
  const WORLD2 := WORLD1.(history := BUILT, marks := Own(3), handles := map[1 := BOUND.(stage := Claimed)], runners := {7})
  const WORLD3 := WORLD2.(handles := map[1 := BOUND.(stage := Running)])

  lemma Opening()
    ensures Enabled(Init(NAME), Do(1, Begin(0, 1, "", ZERO_TIME), Acked))
    ensures Step(Init(NAME), Do(1, Begin(0, 1, "", ZERO_TIME), Acked)) == WORLD1
  {
    hide FoldFrom, Apply, Valid, CheckOk;
    Views([]);
    Folds();
    assert TARGET.Valid();
    assert [] + [INITIATED] == [INITIATED];
    assert [] + Own(1) == Own(1);
  }

  lemma Claiming()
    ensures Enabled(WORLD1, Do(1, Command.Claim(1, 7, UNATTESTED, 0, ZERO_TIME), Acked))
    ensures Step(WORLD1, Do(1, Command.Claim(1, 7, UNATTESTED, 0, ZERO_TIME), Acked)) == WORLD2
  {
    hide FoldFrom, Apply, Valid, CheckOk, ClaimDefeat;
    Views([INITIATED]);
    Folds();
    assert [INITIATED] + [CLAIMED, BuildStarted] == BUILT;
    assert Own(1) + Own(2) == Own(3);
  }

  lemma Starting()
    ensures Enabled(WORLD2, Do(1, StartProcessor, Failed))
    ensures Step(WORLD2, Do(1, StartProcessor, Failed)) == WORLD3
  {
    assert BUILT + [] == BUILT;
    assert Own(3) + MarksFor(0, Mark(1, false, false)) == Own(3);
  }

  lemma Then(w: World, a: Action, rest: seq<Action>)
    requires Enabled(w, a) && Runs(Step(w, a), rest)
    ensures Runs(w, [a] + rest) && Final(w, [a] + rest) == Final(Step(w, a), rest)
  {
    hide Enabled, Step;
    assert ([a] + rest)[1..] == rest;
  }

  /** A run is admitted, claimed and started. */
  lemma Started(rest: seq<Action>) returns (actions: seq<Action>)
    requires Runs(WORLD3, rest)
    ensures Runs(Init(NAME), actions) && Final(Init(NAME), actions) == Final(WORLD3, rest)
  {
    hide Enabled, Step;
    Starting();
    Then(WORLD2, Do(1, StartProcessor, Failed), rest);
    actions := [Do(1, StartProcessor, Failed)] + rest;
    Claiming();
    Then(WORLD1, Do(1, Command.Claim(1, 7, UNATTESTED, 0, ZERO_TIME), Acked), actions);
    actions := [Do(1, Command.Claim(1, 7, UNATTESTED, 0, ZERO_TIME), Acked)] + actions;
    Opening();
    Then(Init(NAME), Do(1, Begin(0, 1, "", ZERO_TIME), Acked), actions);
    actions := [Do(1, Begin(0, 1, "", ZERO_TIME), Acked)] + actions;
  }

  // ---------------------------------------------------------------------------
  // A refused command, then a catch-up
  // ---------------------------------------------------------------------------

  const WORLD4 := WORLD3.(handles := map[1 := BOUND.(stage := Running), 2 := Fresh(3)])
  const WORLD5 := WORLD4.(history := ABANDONED, marks := Own(3) + [Mark(2, false, false)],
                          handles := map[1 := BOUND.(stage := Running), 2 := Fresh(4)])
  const WORLD6 := WORLD5.(handles := map[1 := BOUND.(stage := Running, view := 4), 2 := Fresh(4)])

  lemma Resuming()
    ensures Enabled(WORLD3, Do(2, Resume(3), Failed)) && Step(WORLD3, Do(2, Resume(3), Failed)) == WORLD4
  {
    assert BUILT + [] == BUILT;
    assert Own(3) + MarksFor(0, Mark(2, false, false)) == Own(3);
  }

  lemma Abandoning()
    ensures Enabled(WORLD4, Do(2, Abandon(3, ""), Acked)) && Step(WORLD4, Do(2, Abandon(3, ""), Acked)) == WORLD5
  {
    hide FoldFrom, Apply, Valid, CheckOk;
    Views(BUILT);
    Folds();
    assert BUILT + [Abandoned("")] == ABANDONED;
    assert Own(3) + MarksFor(1, Mark(2, false, false)) == Own(3) + [Mark(2, false, false)];
  }

  /** The command is refused, yet the handle keeps the view it refolded. */
  lemma Refusing()
    ensures Enabled(WORLD5, Do(1, Abandon(4, ""), Failed)) && Step(WORLD5, Do(1, Abandon(4, ""), Failed)) == WORLD6
  {
    hide FoldFrom, Apply, Valid, CheckOk;
    Views(ABANDONED);
    Folds();
    assert ABANDONED + [] == ABANDONED;
    assert WORLD5.marks + MarksFor(0, Mark(1, false, false)) == WORLD5.marks;
  }

  lemma Poisoning()
    ensures Enabled(WORLD6, Do(1, RecordCatchUp(5, 0, ZERO_TIME), Acked))
    ensures Step(WORLD6, Do(1, RecordCatchUp(5, 0, ZERO_TIME), Acked)).history == POISONED
  {
    hide FoldFrom, Apply, Valid, CheckOk;
    assert ABANDONED + [DRAINED] == POISONED;
  }

  /** Without the discipline on catch-ups, guarded commands alone do not keep the
      stream clean. */
  lemma RefusedCommandCanPoison() returns (actions: seq<Action>)
    ensures Runs(Init(NAME), actions) && !Clean(Final(Init(NAME), actions).history)
  {
    hide Enabled, Step, Clean;
    var catchUp := Do(1, RecordCatchUp(5, 0, ZERO_TIME), Acked);
    Poisoning();
    Folds();
    Then(WORLD6, catchUp, []);
    Refusing();
    Then(WORLD5, Do(1, Abandon(4, ""), Failed), [catchUp] + []);
    Abandoning();
    actions := [Do(1, Abandon(4, ""), Failed)] + ([catchUp] + []);
    Then(WORLD4, Do(2, Abandon(3, ""), Acked), actions);
    actions := [Do(2, Abandon(3, ""), Acked)] + actions;
    Resuming();
    Then(WORLD3, Do(2, Resume(3), Failed), actions);
    actions := Started([Do(2, Resume(3), Failed)] + actions);
  }

  // ---------------------------------------------------------------------------
  // A promotion that lands late
  // ---------------------------------------------------------------------------

  const CERTIFIED := BOUND.(stage := Running, view := 4, catchingUp := false, drained := true, drainSlot := 3,
                            certificate := Some(Certificate(1, 7, 5, 4)))
  const CONTENDING := CERTIFIED.(promoteSlot := 5)
  const DRAINED_WORLD := WORLD3.(history := CAUGHT_UP, marks := Own(4), handles := map[1 := CERTIFIED])
  const CONTENDING_WORLD := DRAINED_WORLD.(handles := map[1 := CONTENDING], inFlight := [Message(4, [PROMOTED], 1)])
  const EXITED_WORLD := CONTENDING_WORLD.(handles := map[1 := CONTENDING.(stage := Exited, certificate := None)])

  lemma Draining()
    ensures Enabled(WORLD3, Do(1, RecordCatchUp(5, 0, ZERO_TIME), Acked))
    ensures Step(WORLD3, Do(1, RecordCatchUp(5, 0, ZERO_TIME), Acked)) == DRAINED_WORLD
  {
    hide FoldFrom, Apply, Valid, CheckOk;
    assert BUILT + [DRAINED] == CAUGHT_UP;
    assert Own(3) + Own(1) == Own(4);
  }

  lemma Promoting()
    ensures Enabled(DRAINED_WORLD, Do(1, Promote(ZERO_TIME), InFlight))
    ensures Step(DRAINED_WORLD, Do(1, Promote(ZERO_TIME), InFlight)) == CONTENDING_WORLD
  {
    hide FoldFrom, Apply, Valid, CheckOk;
    Views(CAUGHT_UP);
    Folds();
    assert CAUGHT_UP + [] == CAUGHT_UP;
    assert Own(4) + MarksFor(0, Mark(1, false, false)) == Own(4);
  }

  lemma Exiting()
    ensures Enabled(CONTENDING_WORLD, Do(1, PublishExit, Failed))
    ensures Step(CONTENDING_WORLD, Do(1, PublishExit, Failed)) == EXITED_WORLD
  {
    hide FoldFrom, Apply, Valid, CheckOk;
    assert CAUGHT_UP + [] == CAUGHT_UP;
    assert Own(4) + MarksFor(0, Mark(1, false, false)) == Own(4);
  }

  /** A recorded promotion, marked as landed after its processor's exit. */
  predicate LandedAfterExit(w: World, i: nat) {
    i < |w.history| && i < |w.marks| && w.history[i].Promoted? && w.marks[i].late && w.marks[i].exited
  }

  /** A promotion whose append outlives its call can land after its processor's
      exit is published: only promotions that commit within their call precede it. */
  lemma PromotionCanLandAfterExit() returns (actions: seq<Action>)
    ensures Runs(Init(NAME), actions) && LandedAfterExit(Final(Init(NAME), actions), 4)
  {
    assert Enabled(EXITED_WORLD, Land(0));
    var landed := Step(EXITED_WORLD, Land(0));
    assert landed.history == FLIPPED;
    Exiting();
    Promoting();
    Draining();
    hide Enabled, Step;
    Then(EXITED_WORLD, Land(0), []);
    actions := [Land(0)] + [];
    Then(CONTENDING_WORLD, Do(1, PublishExit, Failed), actions);
    actions := [Do(1, PublishExit, Failed)] + actions;
    Then(DRAINED_WORLD, Do(1, Promote(ZERO_TIME), InFlight), actions);
    actions := [Do(1, Promote(ZERO_TIME), InFlight)] + actions;
    Then(WORLD3, Do(1, RecordCatchUp(5, 0, ZERO_TIME), Acked), actions);
    actions := Started([Do(1, RecordCatchUp(5, 0, ZERO_TIME), Acked)] + actions);
  }
}
