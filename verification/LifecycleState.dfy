/** The folded lifecycle state of one projection and the structural validation
    that every command runs before it acts
    (projection/lifecycle/state.go, projection/lifecycle/retirement.go). */
module LifecycleState {
  import opened Base

  /** A projection's name with a version number. The zero ID stands for "none". */
  datatype ID = ID(name: string, version: Int64) {

    predicate Valid() {
      ValidName(name) && version >= 1
    }
  }

  const NO_ID := ID("", 0)

  const MAX_NAME_LENGTH := 40

  predicate ValidName(name: string) {
    && 0 < |name| <= MAX_NAME_LENGTH
    && 'a' <= name[0] <= 'z'
    && name[|name| - 1] != '_'
    && forall i :: 0 <= i < |name| ==> NameChar(name[i])
  }

  predicate NameChar(c: char) {
    'a' <= c <= 'z' || '0' <= c <= '9' || c == '_'
  }

  /** Phases are persisted as integers, so a state read back can carry a code
      that no constant names. */
  datatype Phase =
    | PhaseNone
    | PhaseCreated
    | PhaseBuilding
    | PhaseCaughtUp
    | PhasePromoted
    | PhaseRetiring
    | PhaseUnknown(code: Int64)
  {
    predicate Known() {
      !PhaseUnknown?
    }

    /** A rebuild is in flight and has not been promoted. */
    predicate BeforePromotion() {
      PhaseCreated? || PhaseBuilding? || PhaseCaughtUp?
    }

    /** The rebuild's target serves reads. */
    predicate Live() {
      PhasePromoted? || PhaseRetiring?
    }
  }

  // ---------------------------------------------------------------------------
  // Retirement policy
  // ---------------------------------------------------------------------------

  /** Byte order on strings. */
  predicate Before(a: string, b: string) {
    if b == "" then false
    else if a == "" then true
    else a[0] < b[0] || (a[0] == b[0] && Before(a[1..], b[1..]))
  }

  /** The canonical membership: none empty, sorted, unique. */
  predicate CanonicalWitnesses(ids: seq<string>) {
    forall i :: 0 <= i < |ids| ==> ids[i] != "" && (i > 0 ==> Before(ids[i - 1], ids[i]))
  }

  datatype RetirementPolicy = RetirementPolicy(generation: Int64, witnesses: seq<string>, unwitnessed: bool) {

    predicate Zero() {
      generation == 0 && witnesses == [] && !unwitnessed
    }

    predicate Valid() {
      && generation >= 0
      && generation != MAX_INT64
      && (generation == 0 ==> witnesses == [] && !unwitnessed)
      && (generation > 0 && unwitnessed ==> witnesses == [])
      && (generation > 0 && !unwitnessed ==> witnesses != [])
      && CanonicalWitnesses(witnesses)
    }
  }

  const NO_POLICY := RetirementPolicy(0, [], false)

  /** One recorded read-route flip. */
  datatype Cutover = Cutover(live: ID, revision: Int64)

  /** A witness's statement that it serves exactly this cutover. */
  datatype Receipt = Receipt(attestor: string, cutover: Cutover)

  /** One receipt per required witness, in order, each for the exact cutover. */
  predicate ReceiptsAttest(receipts: seq<Receipt>, witnesses: seq<string>, cutover: Cutover) {
    && |receipts| == |witnesses|
    && forall i :: 0 <= i < |receipts| ==> receipts[i].attestor == witnesses[i] && receipts[i].cutover == cutover
  }

  // ---------------------------------------------------------------------------
  // State
  // ---------------------------------------------------------------------------

  datatype Attempt = Attempt(
    id: UUID,
    target: ID,
    previous: ID,
    phase: Phase,
    reason: string,
    runner: UUID,
    released: bool,
    releasedAt: Time,
    initiatedAt: Time,
    claimedAt: Time,
    caughtUpAt: Time,
    caughtUpPos: Int64,
    promotedAt: Time,
    retiringAt: Time,
    retiringWitnesses: seq<string>)
  {
    predicate Vacant() {
      this == VACANT
    }

    /** There is a claim, and no release of it. */
    predicate Standing() {
      runner != NIL_UUID && !released
    }
  }

  const VACANT := Attempt(NIL_UUID, NO_ID, NO_ID, PhaseNone, "", NIL_UUID, false, ZERO_TIME, ZERO_TIME,
                          ZERO_TIME, ZERO_TIME, 0, ZERO_TIME, ZERO_TIME, [])

  /** Why the fold was poisoned. One constructor per message the source records. */
  datatype Fault =
    | NoFault
    | InitiatedNoAttempt | InitiatedBadTarget | InitiatedOccupied | InitiatedOtherName
    | InitiatedNotLive | InitiatedOutOfSequence
    | ClaimNoAttempt | ClaimNoRunner | ClaimOtherAttempt | ClaimNoRebuild | ClaimUnknownPhase
    | TakeoverUnsigned | ClaimOverStanding | TakeoverOfNothing
    | ReleaseNoAttempt | ReleaseNoRunner | ReleaseOtherAttempt | ReleaseNotClaimant | ReleaseTwice
    | ReleaseNoRebuild | ReleaseUnknownPhase
    | StartOutsideCreated | StartUnclaimed
    | CaughtUpOutsideBuild
    | PromotedOutsideCaughtUp | PromotedNotLive | PromotedNotTarget | PromotedExhausted
    | PromotedOutOfSequence | PromotedInactivePolicy
    | RollbackOutsidePromoted | RollbackNotLive | RollbackNoPrevious | RollbackNotPrevious
    | RollbackExhausted | RollbackOutOfSequence
    | AbandonOutsideBuild | AbandonUnknownPhase
    | ReserveOutsidePromoted | ReserveNoPrevious | ReserveNotPrevious | ReserveInactivePolicy
    | OverrideUnsigned | OverrideWithWitnesses | ReserveNoPolicy | ReserveUnwitnessedReceipts
    | ReserveOtherWitnesses | ReserveBadReceipts
    | RetiredNoPrevious | RetiredOutsideRetiring | RetiredNotPrevious | RetiredFirstReceipts | RetiredBadReceipts
    | PolicyBeforeInit | PolicyExhausted | PolicyDiscontinuous | PolicyUnsigned | PolicyBothModes
    | PolicyNoMode | PolicyNotCanonical

  datatype State = State(
    name: string,
    live: ID,
    revision: Int64,
    highWater: Int64,
    attempt: Attempt,
    policy: RetirementPolicy,
    fault: Fault)

  const NEW_STATE := State("", NO_ID, 0, 0, VACANT, NO_POLICY, NoFault)

  /** Marks the state with the first observed inconsistency, permanently. */
  function Poison(s: State, fault: Fault): State {
    if s.fault.NoFault? then s.(fault := fault) else s
  }

  // ---------------------------------------------------------------------------
  // Validation
  // ---------------------------------------------------------------------------

  /** Whether some cutover history over the completed allocations can come to
      rest with this version live, or none, at this revision, in the source's own
      division forms. */
  predicate RestAccepts(none: bool, version: int, recorded: int, completed: int) {
    && !(none && recorded != 0)
    && !(!none && recorded < 1)
    && !(recorded > 0 && recorded / 2 >= completed)
    && !(version == 1 && recorded % 2 == 0)
    && !(version > 1 && (recorded - 1) / 2 >= completed - 1)
  }

  predicate RestReachable(live: ID, recorded: int, completed: int) {
    RestAccepts(live == NO_ID, live.version, recorded, completed)
  }

  /** The rest state behind the in-flight attempt: what was live, the revision,
      and the allocations concluded, before the attempt's own contribution. */
  function RestBehind(s: State): (ID, int, int) {
    if s.attempt.Vacant() then (s.live, s.revision, s.highWater)
    else if s.attempt.phase.Live() then (s.attempt.previous, s.revision - 1, s.highWater - 1)
    else (s.live, s.revision, s.highWater - 1)
  }

  predicate Valid(s: State) {
    && s.fault.NoFault?
    && if s.name == "" then
         s.highWater == 0 && s.live == NO_ID && s.revision == 0 && s.attempt.Vacant() && s.policy.Zero()
       else
         && s.policy.Valid()
         && ValidName(s.name)
         && s.highWater >= 1
         && (s.live != NO_ID ==> s.live.Valid() && s.live.name == s.name && s.live.version <= s.highWater)
         && (s.live == NO_ID ==> s.revision == 0)
         && (s.live != NO_ID ==> s.revision >= 1)
         && (var (live, recorded, completed) := RestBehind(s); RestReachable(live, recorded, completed))
         && ValidAttempt(s)
  }

  predicate ValidAttempt(s: State) {
    var a := s.attempt;
    if a.phase.PhaseNone? then a.Vacant()
    else
      && a.phase.Known()
      && (!a.phase.PhaseRetiring? ==> a.retiringWitnesses == [])
      && CanonicalWitnesses(a.retiringWitnesses)
      && (a.retiringWitnesses != [] ==>
            && s.policy.generation != 0
            && !(s.policy.generation == 1 && s.policy.unwitnessed)
            && !(s.policy.generation == 1 && a.retiringWitnesses != s.policy.witnesses))
      && a.id != NIL_UUID
      && a.target.Valid()
      && a.target.name == s.name
      && a.target.version == s.highWater
      && (!a.phase.PhaseCreated? ==> a.runner != NIL_UUID)
      && (a.released ==> a.runner != NIL_UUID)
      && (a.previous != NO_ID ==>
            a.previous.Valid() && a.previous.name == s.name && a.previous.version < a.target.version)
      && (a.phase.BeforePromotion() ==> s.live == a.previous)
      && (a.phase.Live() ==> s.live == a.target)
      && (a.phase.PhaseRetiring? ==> a.previous != NO_ID)
  }

  /** What a snapshotting store asks before it installs a decoded state. A
      poisoned payload is accepted: it is testimony of a poisoned fold. */
  predicate ValidSnapshot(s: State) {
    !s.fault.NoFault? || (Valid(s) && s.name != "")
  }
}
