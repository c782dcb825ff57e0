/** The exactness of validate. A reference model plays k attempts, each
    abandoned, kept or rolled back; the source's division forms accept a rest
    state exactly when some play leaves it, and a whole state validates exactly
    when some clean history folds to it. */
module RestStates {
  import opened Base
  import opened LifecycleState
  import opened LifecycleEvents
  import opened CleanHistories

  // ---------------------------------------------------------------------------
  // The reference model of rest states
  // ---------------------------------------------------------------------------

  /** How one attempt concluded. */
  datatype Outcome = GivenUp | Kept | Reverted

  /** What a play leaves: the live version, zero for none, and the cutovers recorded. */
  datatype Rest = Rest(live: nat, cutovers: nat)

  function Play(outcomes: seq<Outcome>): (r: Rest)
    ensures r.live <= |outcomes|
  {
    if outcomes == [] then Rest(0, 0)
    else
      var before := Play(outcomes[..|outcomes| - 1]);
      match outcomes[|outcomes| - 1]
      case GivenUp => before
      case Kept => Rest(|outcomes|, before.cutovers + 1)
      case Reverted => Rest(before.live, before.cutovers + 2)
  }

  /** Only an attempt that displaced a live version can be rolled back. */
  predicate Playable(outcomes: seq<Outcome>) {
    outcomes != [] ==>
      && Playable(outcomes[..|outcomes| - 1])
      && (outcomes[|outcomes| - 1].Reverted? ==> Play(outcomes[..|outcomes| - 1]).live != 0)
  }

  /** The ideal bounds: 2k-1 in general, 2k-2 past version 1, odd revisions only at
      version 1. */
  predicate WithinBounds(live: nat, recorded: int, completed: nat) {
    || (live == 0 && recorded == 0)
    || (live == 1 && 1 <= recorded <= 2 * completed - 1 && recorded % 2 == 1)
    || (live > 1 && 1 <= recorded <= 2 * completed - 2)
  }

  /** The division forms are the ideal bounds. */
  lemma DivisionFormsAreTheBounds(live: nat, recorded: int, completed: nat)
    ensures RestAccepts(live == 0, live, recorded, completed) <==> WithinBounds(live, recorded, completed)
  {
  }

  lemma {:induction false} PlaysAreAccepted(outcomes: seq<Outcome>)
    requires Playable(outcomes)
    ensures RestAccepts(Play(outcomes).live == 0, Play(outcomes).live, Play(outcomes).cutovers, |outcomes|)
  {
    if outcomes == [] {
    } else {
      var front := outcomes[..|outcomes| - 1];
      PlaysAreAccepted(front);
      DivisionFormsAreTheBounds(Play(front).live, Play(front).cutovers, |front|);
      DivisionFormsAreTheBounds(Play(outcomes).live, Play(outcomes).cutovers, |outcomes|);
    }
  }

  lemma PlayOneMore(outcomes: seq<Outcome>, last: Outcome)
    requires Playable(outcomes)
    requires last.Reverted? ==> Play(outcomes).live != 0
    ensures Playable(outcomes + [last])
    ensures Play(outcomes + [last]) ==
            match last
            case GivenUp => Play(outcomes)
            case Kept => Rest(|outcomes| + 1, Play(outcomes).cutovers + 1)
            case Reverted => Rest(Play(outcomes).live, Play(outcomes).cutovers + 2)
  {
    assert (outcomes + [last])[..|outcomes|] == outcomes;
  }

  /** The version to leave live before a last promotion to revision `recorded`. */
  function Underneath(recorded: int): nat {
    if recorded == 1 then 0 else if recorded % 2 == 0 then 1 else 2
  }

  lemma NothingPlayed()
    ensures Playable([]) && Play([]) == Rest(0, 0)
  {
  }

  /** Every accepted rest state is played by some sequence of outcomes. */
  lemma {:induction false} AcceptedArePlayed(live: nat, recorded: int, completed: nat) returns (outcomes: seq<Outcome>)
    requires live <= completed && RestAccepts(live == 0, live, recorded, completed)
    ensures Playable(outcomes) && |outcomes| == completed
    ensures Play(outcomes) == Rest(live, recorded)
  {
    hide RestAccepts, Playable, Play;
    DivisionFormsAreTheBounds(live, recorded, completed);
    if completed == 0 {
      outcomes := [];
      NothingPlayed();
    } else if live == completed {
      DivisionFormsAreTheBounds(Underneath(recorded), recorded - 1, completed - 1);
      outcomes := AcceptedArePlayed(Underneath(recorded), recorded - 1, completed - 1);
      PlayOneMore(outcomes, Kept);
      outcomes := outcomes + [Kept];
    } else if WithinBounds(live, recorded, completed - 1) {
      DivisionFormsAreTheBounds(live, recorded, completed - 1);
      outcomes := AcceptedArePlayed(live, recorded, completed - 1);
      PlayOneMore(outcomes, GivenUp);
      outcomes := outcomes + [GivenUp];
    } else {
      DivisionFormsAreTheBounds(live, recorded - 2, completed - 1);
      outcomes := AcceptedArePlayed(live, recorded - 2, completed - 1);
      PlayOneMore(outcomes, Reverted);
      outcomes := outcomes + [Reverted];
    }
  }

  ghost predicate Attainable(live: nat, recorded: nat, completed: nat) {
    exists outcomes: seq<Outcome> ::
      |outcomes| == completed && Playable(outcomes) && Play(outcomes) == Rest(live, recorded)
  }

  /** unreachableRest is exact: for a live version among the completed
      allocations it accepts exactly what k concluded attempts can leave. */
  lemma RestReachableIsExact(live: ID, recorded: int, completed: nat)
    requires 0 <= live.version <= completed
    requires live == NO_ID <==> live.version == 0
    ensures RestReachable(live, recorded, completed) <==>
            recorded >= 0 && Attainable(live.version, recorded, completed)
  {
    if RestReachable(live, recorded, completed) {
      var outcomes := AcceptedArePlayed(live.version, recorded, completed);
      assert |outcomes| == completed;
    }
    if recorded >= 0 && Attainable(live.version, recorded, completed) {
      var outcomes: seq<Outcome> :|
        |outcomes| == completed && Playable(outcomes) && Play(outcomes) == Rest(live.version, recorded);
      PlaysAreAccepted(outcomes);
    }
  }

  // ---------------------------------------------------------------------------
  // Reachability, one event at a time
  // ---------------------------------------------------------------------------

  ghost predicate Reachable(s: State) {
    exists h: History :: Fold(h) == s
  }

  lemma Reach(s: State, e: Event)
    requires Reachable(s)
    ensures Reachable(Apply(s, e))
  {
    var h: History :| Fold(h) == s;
    FoldExtend(NEW_STATE, h, e);
    assert Fold(h + [e]) == Apply(s, e);
  }

  lemma ReachNew()
    ensures Reachable(NEW_STATE)
  {
    assert Fold([]) == NEW_STATE;
  }

  function VersionID(name: string, version: Int64): ID {
    if version == 0 then NO_ID else ID(name, version)
  }

  /** A named lifecycle at rest, with no policy recorded. */
  function RestState(name: string, live: Int64, revision: Int64, completed: Int64): State {
    NEW_STATE.(name := if completed == 0 then "" else name, live := VersionID(name, live),
               revision := revision, highWater := completed)
  }

  const A_RUNNER: UUID := 1
  const AN_ATTEMPT: UUID := 1
  const OVERRIDE := Attestation("operator", "retired by hand")

  /** An attempt on the next version, claimed, built, drained and promoted. */
  function PromotedState(s: State, name: string): State
    requires s.highWater < MAX_INT64 && s.revision < MAX_INT64
  {
    var target := ID(name, s.highWater + 1);
    s.(name := name, live := target, revision := s.revision + 1, highWater := target.version,
       attempt := VACANT.(id := AN_ATTEMPT, target := target, previous := s.live, phase := PhasePromoted,
                          runner := A_RUNNER))
  }

  function Initiation(s: State, name: string): Event
    requires s.highWater < MAX_INT64
  {
    RebuildInitiated(AN_ATTEMPT, ID(name, s.highWater + 1), s.live, "", ZERO_TIME)
  }

  /** The state of an attempt on the next version that has caught up. */
  function CaughtUpState(s: State, name: string): State
    requires 0 <= s.highWater < MAX_INT64
  {
    var target := ID(name, s.highWater + 1);
    s.(name := name, highWater := target.version,
       attempt := VACANT.(id := AN_ATTEMPT, target := target, previous := s.live, phase := PhaseCaughtUp,
                          runner := A_RUNNER))
  }

  lemma ReachCaughtUp(s: State, name: string)
    requires Reachable(s) && Valid(s) && s.attempt.Vacant() && s.policy == NO_POLICY
    requires ValidName(name) && (s.name == name || s.name == "")
    requires 0 <= s.highWater < MAX_INT64
    ensures Reachable(CaughtUpState(s, name))
  {
    hide Reachable, RestReachable, ValidName;
    var target := ID(name, s.highWater + 1);
    assert target.Valid();
    var e1 := Initiation(s, name);
    Reach(s, e1);
    var s1 := Apply(s, e1);
    assert s1 == s.(name := name, highWater := target.version,
                    attempt := VACANT.(id := AN_ATTEMPT, target := target, previous := s.live, phase := PhaseCreated));
    var e2 := RunnerClaimed(AN_ATTEMPT, A_RUNNER, 0, UNATTESTED, ZERO_TIME);
    Reach(s1, e2);
    var s2 := Apply(s1, e2);
    Reach(s2, BuildStarted);
    var s3 := Apply(s2, BuildStarted);
    Reach(s3, CaughtUp(0, 0, ZERO_TIME));
  }

  lemma ReachPromoted(s: State, name: string)
    requires Reachable(s) && Valid(s) && s.attempt.Vacant() && s.policy == NO_POLICY
    requires ValidName(name) && (s.name == name || s.name == "")
    requires 0 <= s.highWater < MAX_INT64 && 0 <= s.revision < MAX_INT64
    ensures Reachable(PromotedState(s, name))
  {
    hide Reachable, RestReachable, ValidName;
    ReachCaughtUp(s, name);
    Reach(CaughtUpState(s, name), Promoted(s.live, ID(name, s.highWater + 1), s.revision + 1, 0, ZERO_TIME));
  }

  /** The promoted attempt runs to completion: a first version has nothing to
      retire, any other retires its predecessor under an audited override. */
  lemma ReachKept(s: State, name: string)
    requires Reachable(s) && Valid(s) && s.attempt.Vacant() && s.policy == NO_POLICY
    requires ValidName(name) && (s.name == name || s.name == "")
    requires 0 <= s.highWater < MAX_INT64 && 0 <= s.revision < MAX_INT64
    ensures Reachable(PromotedState(s, name).(attempt := VACANT))
  {
    hide Reachable, Valid, ValidName;
    ReachPromoted(s, name);
    var promoted := PromotedState(s, name);
    if s.live == NO_ID {
      Reach(promoted, PreviousRetired(NO_ID, []));
    } else {
      var reserve := RetireStarted(s.live, 0, [], [], OVERRIDE, ZERO_TIME);
      Reach(promoted, reserve);
      var retiring := Apply(promoted, reserve);
      Reach(retiring, PreviousRetired(s.live, []));
    }
  }

  lemma ReachReverted(s: State, name: string)
    requires Reachable(s) && Valid(s) && s.attempt.Vacant() && s.policy == NO_POLICY
    requires ValidName(name) && s.name == name && s.live != NO_ID
    requires 0 <= s.highWater < MAX_INT64 && 0 <= s.revision < MAX_INT64 - 1
    ensures Reachable(s.(highWater := s.highWater + 1, revision := s.revision + 2))
  {
    hide Reachable, Valid, ValidName;
    ReachPromoted(s, name);
    var promoted := PromotedState(s, name);
    Reach(promoted, RolledBack(promoted.live, s.live, s.revision + 2, ZERO_TIME));
  }

  lemma ReachGivenUp(s: State, name: string)
    requires Reachable(s) && Valid(s) && s.attempt.Vacant()
    requires ValidName(name) && (s.name == name || s.name == "")
    requires 0 <= s.highWater < MAX_INT64
    ensures Reachable(s.(name := name, highWater := s.highWater + 1))
  {
    hide Reachable, ValidName;
    var e := Initiation(s, name);
    Reach(s, e);
    Reach(Apply(s, e), Abandoned(""));
  }

  lemma {:induction false} ReachRest(name: string, outcomes: seq<Outcome>)
    requires ValidName(name) && Playable(outcomes)
    requires |outcomes| <= MAX_INT64 && Play(outcomes).cutovers <= MAX_INT64
    ensures Play(outcomes).live <= |outcomes|
    ensures Reachable(RestState(name, Play(outcomes).live, Play(outcomes).cutovers, |outcomes|))
  {
    if outcomes == [] {
      ReachNew();
    } else {
      var front := outcomes[..|outcomes| - 1];
      ReachRest(name, front);
      var before := RestState(name, Play(front).live, Play(front).cutovers, |front|);
      ReachableIsValid(before);
      match outcomes[|outcomes| - 1]
      case GivenUp => ReachGivenUp(before, name);
      case Kept => ReachKept(before, name);
      case Reverted => ReachReverted(before, name);
    }
  }

  lemma ReachableIsValid(s: State)
    requires Reachable(s) && s.fault.NoFault?
    ensures Valid(s)
  {
    var h: History :| Fold(h) == s;
    CleanHistoryIsValid(h);
  }

  /** Any later policy can be recorded, by as many audited transitions as its
      generation counts. */
  lemma {:induction false} ReachPolicy(s: State, policy: RetirementPolicy)
    requires Reachable(s) && s.name != ""
    requires policy.Valid() && 0 <= s.policy.generation < policy.generation
    ensures Reachable(s.(policy := policy))
    decreases policy.generation - s.policy.generation
  {
    hide Reachable, CanonicalWitnesses;
    var next := s.policy.generation + 1;
    if next == policy.generation {
      Reach(s, RetirementPolicySet(next, policy.witnesses, policy.unwitnessed, "why", "actor", ZERO_TIME));
    } else {
      var interim := RetirementPolicySet(next, [], true, "why", "actor", ZERO_TIME);
      assert CanonicalWitnesses([]) by {
        Canonical0();
      }
      Reach(s, interim);
      ReachPolicy(Apply(s, interim), policy);
    }
  }

  lemma Canonical0()
    ensures CanonicalWitnesses([])
  {
  }

  // ---------------------------------------------------------------------------
  // Exactness of validate
  // ---------------------------------------------------------------------------

  /** The state without the audit stamps validate does not constrain. */
  function Unstamped(s: State): State {
    s.(attempt := s.attempt.(releasedAt := ZERO_TIME, claimedAt := ZERO_TIME, caughtUpAt := ZERO_TIME,
                             caughtUpPos := 0, promotedAt := ZERO_TIME, retiringAt := ZERO_TIME))
  }

  /** Soundness needs only that the stamps do not matter while an attempt is in flight. */
  lemma StampsDoNotMatter(s: State, t: State)
    requires Unstamped(s) == Unstamped(t)
    requires !s.attempt.phase.PhaseNone?
    ensures Valid(s) <==> Valid(t)
  {
  }

  lemma RestBehindReached(s: State)
    requires Valid(s) && s.name != ""
    ensures var (live, recorded, completed) := RestBehind(s);
            && (live == NO_ID || (live.name == s.name && live.version >= 1))
            && 0 <= recorded <= MAX_INT64 && 0 <= completed <= MAX_INT64
            && Reachable(RestState(s.name, live.version, recorded, completed))
  {
    hide Reachable;
    var (live, recorded, completed) := RestBehind(s);
    RestReachableIsExact(live, recorded, completed);
    var outcomes: seq<Outcome> :|
      |outcomes| == completed && Playable(outcomes) && Play(outcomes) == Rest(live.version, recorded);
    ReachRest(s.name, outcomes);
  }

  lemma VacantIsReached(s: State)
    requires Valid(s) && s.attempt.Vacant()
    ensures Reachable(s)
  {
    if s.name == "" {
      ReachNew();
    } else {
      RestBehindReached(s);
      var rest := s.(policy := NO_POLICY);
      assert rest == RestState(s.name, s.live.version, s.revision, s.highWater);
      if s.policy.generation > 0 {
        ReachPolicy(rest, s.policy);
      }
    }
  }

  /** The policy under which a retirement capturing these witnesses was reserved. */
  function ReservationPolicy(s: State): RetirementPolicy {
    if s.attempt.retiringWitnesses != [] && s.policy.generation > 1
    then RetirementPolicy(1, s.attempt.retiringWitnesses, false)
    else s.policy
  }

  /** The in-flight attempt as admitted, under the policy its reservation needs. */
  function Admitted(s: State): State {
    var (live, recorded, completed) := RestBehind(s);
    s.(live := live,
       revision := if s.attempt.phase.Live() && s.revision >= 1 then s.revision - 1 else s.revision,
       policy := ReservationPolicy(s),
       attempt := VACANT.(id := s.attempt.id, target := s.attempt.target, previous := s.attempt.previous,
                          phase := PhaseCreated, reason := s.attempt.reason, initiatedAt := s.attempt.initiatedAt))
  }

  lemma ReachAdmitted(s: State)
    requires Valid(s) && !s.attempt.phase.PhaseNone?
    ensures Reachable(Admitted(s))
  {
    hide Reachable, RestReachable, ValidName;
    RestBehindReached(s);
    var (live, recorded, completed) := RestBehind(s);
    var rest := RestState(s.name, live.version, recorded, completed);
    assert rest.live == s.attempt.previous;
    var e := RebuildInitiated(s.attempt.id, s.attempt.target, s.attempt.previous, s.attempt.reason, s.attempt.initiatedAt);
    Reach(rest, e);
    var admitted := Apply(rest, e);
    assert admitted == Admitted(s).(policy := NO_POLICY);
    if ReservationPolicy(s).generation > 0 {
      ReachPolicy(admitted, ReservationPolicy(s));
    }
  }

  /** Claimed, and started, drained and promoted as far as the phase requires. */
  lemma ReachPhase(s: State) returns (t: State)
    requires Valid(s) && !s.attempt.phase.PhaseNone?
    ensures Reachable(t)
    ensures t.attempt == Unstamped(s).attempt.(released := false, retiringWitnesses := [],
                           phase := if s.attempt.phase.PhaseRetiring? then PhasePromoted else s.attempt.phase)
    ensures t == s.(attempt := t.attempt, policy := ReservationPolicy(s))
  {
    hide Reachable, RestReachable, ValidName, CanonicalWitnesses;
    ReachAdmitted(s);
    t := Admitted(s);
    var a := s.attempt;
    if a.runner != NIL_UUID {
      var e := RunnerClaimed(a.id, a.runner, 0, UNATTESTED, ZERO_TIME);
      Reach(t, e);
      t := Apply(t, e);
    }
    if !a.phase.PhaseCreated? {
      Reach(t, BuildStarted);
      t := Apply(t, BuildStarted);
      if !a.phase.PhaseBuilding? {
        var e := CaughtUp(0, 0, ZERO_TIME);
        Reach(t, e);
        t := Apply(t, e);
        if !a.phase.PhaseCaughtUp? {
          var flip := Promoted(t.live, a.target, s.revision, t.policy.generation, ZERO_TIME);
          Reach(t, flip);
          t := Apply(t, flip);
        }
      }
    }
  }

  lemma ReachReservation(s: State, t: State) returns (u: State)
    requires Valid(s) && s.attempt.phase.PhaseRetiring?
    requires Reachable(t) && t.attempt.phase.PhasePromoted? && t.fault.NoFault?
    requires t.attempt.previous == s.attempt.previous && t.policy == ReservationPolicy(s)
    ensures Reachable(u)
    ensures u == t.(attempt := t.attempt.(phase := PhaseRetiring, retiringAt := ZERO_TIME,
                                          retiringWitnesses := s.attempt.retiringWitnesses))
  {
    hide Reachable, RestReachable, ValidName, CanonicalWitnesses;
    var required := s.attempt.retiringWitnesses;
    var receipts := seq(|required|, i requires 0 <= i < |required| => Receipt(required[i], Cutover(t.live, t.revision)));
    var authorization := if required == [] then OVERRIDE else UNATTESTED;
    var e := RetireStarted(s.attempt.previous, t.policy.generation, required, receipts, authorization, ZERO_TIME);
    Reach(t, e);
    u := Apply(t, e);
  }

  /** Every valid in-flight state is, up to its audit stamps, the fold of a clean history. */
  lemma InFlightIsReached(s: State)
    requires Valid(s) && !s.attempt.phase.PhaseNone?
    ensures Reachable(Unstamped(s))
  {
    hide Reachable, RestReachable, ValidName, CanonicalWitnesses;
    var t := ReachPhase(s);
    if s.attempt.phase.PhaseRetiring? {
      t := ReachReservation(s, t);
    }
    if s.attempt.released {
      var e := RunnerReleased(s.attempt.id, s.attempt.runner, ZERO_TIME);
      Reach(t, e);
      t := Apply(t, e);
    }
    if t.policy != s.policy {
      ReachPolicy(t, s.policy);
      t := t.(policy := s.policy);
    }
    assert t == Unstamped(s);
  }

  /** validate is exact. A state with a vacant slot passes if and only if some
      clean history folds to it; a state with an attempt in flight passes if and
      only if some clean history folds to it up to the audit stamps. */
  lemma ValidateIsExact(s: State)
    requires s.fault.NoFault?
    ensures s.attempt.phase.PhaseNone? ==> (Valid(s) <==> Reachable(s))
    ensures !s.attempt.phase.PhaseNone? ==> (Valid(s) <==> Reachable(Unstamped(s)))
  {
    hide RestReachable, ValidName, CanonicalWitnesses;
    if s.attempt.phase.PhaseNone? {
      if Valid(s) {
        VacantIsReached(s);
      } else if Reachable(s) {
        ReachableIsValid(s);
      }
    } else {
      if Valid(s) {
        InFlightIsReached(s);
      } else if Reachable(Unstamped(s)) {
        ReachableIsValid(Unstamped(s));
        StampsDoNotMatter(s, Unstamped(s));
      }
    }
  }
}
