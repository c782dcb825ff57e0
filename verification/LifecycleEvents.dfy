/** The eleven lifecycle events and the fold that applies them
    (projection/lifecycle/events.go). The fold is total: an inconsistent event
    still applies, and poisons the state. */
module LifecycleEvents {
  import opened Base
  import opened LifecycleState

  /** Who vouched for an exceptional step, and why; the zero value means nobody. */
  datatype Attestation = Attestation(actor: string, reason: string) {
    predicate Signed() {
      actor != "" && reason != ""
    }
  }

  const UNATTESTED := Attestation("", "")

  datatype Event =
    | RebuildInitiated(attempt: UUID, target: ID, previous: ID, why: string, at: Time)
    | RunnerClaimed(attempt: UUID, runner: UUID, fromPosition: Int64, takeover: Attestation, at: Time)
    | RunnerReleased(attempt: UUID, runner: UUID, at: Time)
    | BuildStarted
    | CaughtUp(position: Int64, duration: Int64, at: Time)
    | Promoted(previous: ID, next: ID, revision: Int64, generation: Int64, at: Time)
    | RolledBack(rolledFrom: ID, revertedTo: ID, revision: Int64, at: Time)
    | Abandoned(cause: string)
    | RetireStarted(retiring: ID, generation: Int64, witnesses: seq<string>, receipts: seq<Receipt>,
                    authorization: Attestation, at: Time)
    | PreviousRetired(retired: ID, receipts: seq<Receipt>)
    | RetirementPolicySet(generation: Int64, witnesses: seq<string>, unwitnessed: bool, why: string,
                          actor: string, at: Time)

  type History = seq<Event>

  // ---------------------------------------------------------------------------
  // The inconsistency each event can carry, in the order the source looks
  // ---------------------------------------------------------------------------

  function InitiatedFault(s: State, e: Event): Fault
    requires e.RebuildInitiated?
  {
    if e.attempt == NIL_UUID then InitiatedNoAttempt
    else if !e.target.Valid() then InitiatedBadTarget
    else if !s.attempt.phase.PhaseNone? then InitiatedOccupied
    else if s.name != "" && e.target.name != s.name then InitiatedOtherName
    else if e.previous != s.live then InitiatedNotLive
    else if e.target.version != Increment(s.highWater) then InitiatedOutOfSequence
    else NoFault
  }

  function ClaimIdentityFault(e: Event): Fault
    requires e.RunnerClaimed?
  {
    if e.attempt == NIL_UUID then ClaimNoAttempt
    else if e.runner == NIL_UUID then ClaimNoRunner
    else NoFault
  }

  function ClaimPhaseFault(s: State, e: Event): Fault
    requires e.RunnerClaimed?
  {
    match s.attempt.phase
    case PhaseNone => ClaimNoRebuild
    case PhaseUnknown(_) => ClaimUnknownPhase
    case _ => if e.attempt != s.attempt.id then ClaimOtherAttempt else NoFault
  }

  function ClaimTakeoverFault(s: State, e: Event): Fault
    requires e.RunnerClaimed?
  {
    if e.takeover != UNATTESTED && !e.takeover.Signed() then TakeoverUnsigned
    else if s.attempt.Standing() && e.takeover == UNATTESTED then ClaimOverStanding
    else if !s.attempt.Standing() && e.takeover != UNATTESTED then TakeoverOfNothing
    else NoFault
  }

  function ReleaseIdentityFault(e: Event): Fault
    requires e.RunnerReleased?
  {
    if e.attempt == NIL_UUID then ReleaseNoAttempt
    else if e.runner == NIL_UUID then ReleaseNoRunner
    else NoFault
  }

  function ReleasePhaseFault(s: State, e: Event): Fault
    requires e.RunnerReleased?
  {
    match s.attempt.phase
    case PhaseNone => ReleaseNoRebuild
    case PhaseUnknown(_) => ReleaseUnknownPhase
    case _ =>
      if e.attempt != s.attempt.id then ReleaseOtherAttempt
      else if e.runner != s.attempt.runner then ReleaseNotClaimant
      else if s.attempt.released then ReleaseTwice
      else NoFault
  }

  function StartFault(s: State): Fault {
    if !s.attempt.phase.PhaseCreated? then StartOutsideCreated
    else if s.attempt.runner == NIL_UUID then StartUnclaimed
    else NoFault
  }

  function CaughtUpFault(s: State): Fault {
    if !s.attempt.phase.PhaseBuilding? && !s.attempt.phase.PhaseCaughtUp? then CaughtUpOutsideBuild else NoFault
  }

  function PromotedFault(s: State, e: Event): Fault
    requires e.Promoted?
  {
    if !s.attempt.phase.PhaseCaughtUp? then PromotedOutsideCaughtUp
    else if e.previous != s.live then PromotedNotLive
    else if e.next != s.attempt.target then PromotedNotTarget
    else if s.revision == MAX_INT64 then PromotedExhausted
    else if e.revision != s.revision + 1 then PromotedOutOfSequence
    else if e.generation != s.policy.generation then PromotedInactivePolicy
    else NoFault
  }

  function RolledBackFault(s: State, e: Event): Fault
    requires e.RolledBack?
  {
    if !s.attempt.phase.PhasePromoted? then RollbackOutsidePromoted
    else if e.rolledFrom != s.live then RollbackNotLive
    else if s.attempt.previous == NO_ID then RollbackNoPrevious
    else if e.revertedTo != s.attempt.previous then RollbackNotPrevious
    else if s.revision == MAX_INT64 then RollbackExhausted
    else if e.revision != s.revision + 1 then RollbackOutOfSequence
    else NoFault
  }

  function AbandonedFault(s: State): Fault {
    if s.attempt.phase.BeforePromotion() then NoFault
    else if s.attempt.phase.Known() then AbandonOutsideBuild
    else AbandonUnknownPhase
  }

  function ReserveLineageFault(s: State, e: Event): Fault
    requires e.RetireStarted?
  {
    if !s.attempt.phase.PhasePromoted? then ReserveOutsidePromoted
    else if s.attempt.previous == NO_ID then ReserveNoPrevious
    else if e.retiring != s.attempt.previous then ReserveNotPrevious
    else if e.generation != s.policy.generation then ReserveInactivePolicy
    else NoFault
  }

  function ReserveWitnessFault(s: State, e: Event): Fault
    requires e.RetireStarted?
  {
    if e.authorization != UNATTESTED then
      if !e.authorization.Signed() then OverrideUnsigned
      else if e.witnesses != [] || e.receipts != [] then OverrideWithWitnesses
      else NoFault
    else if s.policy.Zero() then ReserveNoPolicy
    else if s.policy.unwitnessed then
      if e.witnesses != [] || e.receipts != [] then ReserveUnwitnessedReceipts else NoFault
    else if e.witnesses != s.policy.witnesses then ReserveOtherWitnesses
    else if !ReceiptsAttest(e.receipts, e.witnesses, Cutover(s.live, s.revision)) then ReserveBadReceipts
    else NoFault
  }

  function RetiredFault(s: State, e: Event): Fault
    requires e.PreviousRetired?
  {
    var reserved := s.attempt.phase.PhaseRetiring? && s.attempt.previous != NO_ID;
    var firstVersion := s.attempt.phase.PhasePromoted? && s.attempt.previous == NO_ID;
    if s.attempt.phase.PhaseRetiring? && s.attempt.previous == NO_ID then RetiredNoPrevious
    else if !reserved && !firstVersion then RetiredOutsideRetiring
    else if e.retired != s.attempt.previous then RetiredNotPrevious
    else if firstVersion && e.receipts != [] then RetiredFirstReceipts
    else if reserved
            && !ReceiptsAttest(e.receipts, s.attempt.retiringWitnesses, Cutover(s.live, s.revision)) then RetiredBadReceipts
    else NoFault
  }

  function PolicyFault(s: State, e: Event): Fault
    requires e.RetirementPolicySet?
  {
    if s.name == "" then PolicyBeforeInit
    else if s.policy.generation >= MAX_INT64 - 1 then PolicyExhausted
    else if e.generation != s.policy.generation + 1 then PolicyDiscontinuous
    else if e.actor == "" || e.why == "" then PolicyUnsigned
    else if e.unwitnessed && e.witnesses != [] then PolicyBothModes
    else if !e.unwitnessed && e.witnesses == [] then PolicyNoMode
    else if !CanonicalWitnesses(e.witnesses) then PolicyNotCanonical
    else NoFault
  }

  // ---------------------------------------------------------------------------
  // The fold
  // ---------------------------------------------------------------------------

  /** Poisons unless the observation found nothing. */
  function Observe(s: State, fault: Fault): State {
    if fault.NoFault? then s else Poison(s, fault)
  }

  function Apply(state: State, e: Event): State {
    match e
    case RebuildInitiated(attempt, target, previous, why, at) =>
      var s := Observe(state, InitiatedFault(state, e));
      s.(name := if s.name == "" then target.name else s.name,
         highWater := Max(s.highWater, target.version),
         attempt := VACANT.(id := attempt, target := target, previous := previous, phase := PhaseCreated,
                            reason := why, initiatedAt := at))
    case RunnerClaimed(attempt, runner, _, takeover, at) =>
      var s := Observe(Observe(Observe(state, ClaimIdentityFault(e)), ClaimPhaseFault(state, e)),
                       ClaimTakeoverFault(state, e));
      s.(attempt := s.attempt.(runner := runner, claimedAt := at, released := false, releasedAt := ZERO_TIME))
    case RunnerReleased(attempt, runner, at) =>
      var s := Observe(Observe(state, ReleaseIdentityFault(e)), ReleasePhaseFault(state, e));
      s.(attempt := s.attempt.(released := true, releasedAt := at))
    case BuildStarted =>
      var s := Observe(state, StartFault(state));
      s.(attempt := s.attempt.(phase := PhaseBuilding))
    case CaughtUp(position, _, at) =>
      var s := Observe(state, CaughtUpFault(state));
      s.(attempt := s.attempt.(phase := PhaseCaughtUp, caughtUpAt := at, caughtUpPos := position))
    case Promoted(previous, next, revision, generation, at) =>
      var s := Observe(state, PromotedFault(state, e));
      s.(live := next,
         revision := Max(s.revision, revision),
         attempt := s.attempt.(phase := PhasePromoted, promotedAt := at))
    case RolledBack(rolledFrom, revertedTo, revision, at) =>
      var s := Observe(state, RolledBackFault(state, e));
      s.(live := revertedTo, revision := Max(s.revision, revision), attempt := VACANT)
    case Abandoned(_) =>
      var s := Observe(state, AbandonedFault(state));
      s.(attempt := VACANT)
    case RetireStarted(retiring, generation, witnesses, receipts, authorization, at) =>
      var s := Observe(Observe(state, ReserveLineageFault(state, e)), ReserveWitnessFault(state, e));
      s.(attempt := s.attempt.(phase := PhaseRetiring, retiringAt := at, retiringWitnesses := witnesses))
    case PreviousRetired(_, _) =>
      var s := Observe(state, RetiredFault(state, e));
      s.(attempt := VACANT)
    case RetirementPolicySet(generation, witnesses, unwitnessed, _, _, _) =>
      var s := Observe(state, PolicyFault(state, e));
      s.(policy := RetirementPolicy(generation, witnesses, unwitnessed))
  }

  function FoldFrom(s: State, h: History): State {
    if h == [] then s else Apply(FoldFrom(s, h[..|h| - 1]), h[|h| - 1])
  }

  function Fold(h: History): State {
    FoldFrom(NEW_STATE, h)
  }

  /** No event of the history was inconsistent with the events before it. */
  predicate Clean(h: History) {
    Fold(h).fault.NoFault?
  }

  // ---------------------------------------------------------------------------
  // Folding in pieces
  // ---------------------------------------------------------------------------

  lemma FoldExtend(s: State, h: History, e: Event)
    ensures FoldFrom(s, h + [e]) == Apply(FoldFrom(s, h), e)
  {
    assert (h + [e])[..|h|] == h;
  }

  lemma {:induction false} FoldConcat(s: State, g: History, h: History)
    ensures FoldFrom(s, g + h) == FoldFrom(FoldFrom(s, g), h)
  {
    if h == [] {
      assert g + h == g;
    } else {
      var front := h[..|h| - 1];
      assert (g + h)[..|g + h| - 1] == g + front;
      FoldConcat(s, g, front);
    }
  }

  /** An event never clears an existing mark, and leaves the first one in place. */
  lemma ApplyKeepsFault(s: State, e: Event)
    requires !s.fault.NoFault?
    ensures Apply(s, e).fault == s.fault
  {
  }

  /** Poison is permanent: whatever follows, the first recorded reason stands. */
  lemma {:induction false} PoisonIsPermanent(s: State, h: History)
    requires !s.fault.NoFault?
    ensures FoldFrom(s, h).fault == s.fault
  {
    if h == [] {
    } else {
      PoisonIsPermanent(s, h[..|h| - 1]);
      ApplyKeepsFault(FoldFrom(s, h[..|h| - 1]), h[|h| - 1]);
    }
  }

  /** Every prefix of a clean history is clean. */
  lemma CleanPrefix(h: History, i: nat)
    requires Clean(h) && i <= |h|
    ensures Clean(h[..i])
  {
    assert h[..i] + h[i..] == h;
    FoldConcat(NEW_STATE, h[..i], h[i..]);
    if !Clean(h[..i]) {
      PoisonIsPermanent(Fold(h[..i]), h[i..]);
    }
  }
}
