/** The command protocol (projection/lifecycle/handle.go,
    projection/lifecycle/orchestrator.go): any number of handles on one
    projection, each with a retained view of one append-only stream, deciding
    from that view and appending under its version. Every critical section is
    one step. An append may be acknowledged, become durable unobserved, become
    durable with its response lost, stay in flight and land later, be refused,
    or fail with nothing appended. */
module Protocol {
  import opened Base
  import opened LifecycleState
  import opened LifecycleEvents
  import opened CleanHistories

  // ---------------------------------------------------------------------------
  // Handles
  // ---------------------------------------------------------------------------

  /** What a run keeps after reaching the head: its licence to promote. */
  datatype Certificate = Certificate(attempt: UUID, runner: UUID, position: Int64, version: nat)

  /** Where a handle's single Run stands. Exited: the processor's exit is
      published and the claim not yet released. */
  datatype Stage = NotRun | Recovering | Claimed | Running | Exited | Over

  /** Where a Retire call holding the handle's lock stands. */
  datatype Retirement =
    | NoRetire
    | Reserved(previous: ID)
    | Ready(previous: ID, receipts: seq<Receipt>)
    | TornDown(previous: ID, receipts: seq<Receipt>)

  datatype Handle = Handle(
    view: nat,               // the retained aggregate folds this prefix
    stage: Stage,
    runner: UUID,
    runAttempt: UUID,
    target: ID,
    catchingUp: bool,        // the run still waits for its drain to reach the head
    drained: bool,           // the run appended its CaughtUp ...
    drainSlot: nat,          // ... at this index
    certificate: Option<Certificate>,
    promoteSlot: nat,        // the slot a promotion whose outcome is open contends for; 0 for none
    stopped: bool,
    revoked: bool,
    commandEnded: bool,
    retire: Retirement)
  {
    /** A processor of this run runs, or may still be started. */
    predicate Active() {
      stage in {Recovering, Claimed, Running}
    }

    predicate Finished() {
      stage in {Exited, Over}
    }
  }

  function Fresh(view: nat): Handle {
    Handle(view, NotRun, NIL_UUID, NIL_UUID, NO_ID, false, false, 0, None, 0, false, false, false, NoRetire)
  }

  // ---------------------------------------------------------------------------
  // Witnesses
  // ---------------------------------------------------------------------------

  /** What a witness says it serves, when asked; it may be unable to tell. */
  datatype Answer = Unable | Serves(cutover: Cutover)

  /** The answers of the registered witnesses; one that is missing is not registered. */
  type Answers = map<string, Answer>

  /** Collects one receipt per required witness, in order, each for exactly this
      cutover; any witness that cannot vouch for it refuses. */
  function Attest(answers: Answers, required: seq<string>, cutover: Cutover): Option<seq<Receipt>> {
    if required == [] then Some([])
    else
      var front := Attest(answers, required[..|required| - 1], cutover);
      var id := required[|required| - 1];
      if front.None? || id !in answers || answers[id].Unable? || answers[id].cutover != cutover then None
      else Some(front.value + [Receipt(id, answers[id].cutover)])
  }

  /** Every required witness is registered and serves exactly this cutover. */
  predicate Vouched(answers: Answers, required: seq<string>, cutover: Cutover) {
    forall id :: id in required ==> id in answers && answers[id] == Serves(cutover)
  }

  lemma {:induction false} AttestIsUnanimous(answers: Answers, required: seq<string>, cutover: Cutover)
    ensures Attest(answers, required, cutover).Some? <==> Vouched(answers, required, cutover)
    ensures var r := Attest(answers, required, cutover);
            r.Some? ==> ReceiptsAttest(r.value, required, cutover)
  {
    if required == [] {
    } else {
      var front, last := required[..|required| - 1], required[|required| - 1];
      AttestIsUnanimous(answers, front, cutover);
      assert required == front + [last];
    }
  }

  // ---------------------------------------------------------------------------
  // Commands
  // ---------------------------------------------------------------------------

  /** Every `v` is the prefix a fresh fold of the stream happened to read. */
  datatype Command =
    | Resume(v: nat)
    | Begin(v: nat, attempt: UUID, why: string, at: Time)
    | SetPolicy(v: nat, witnesses: seq<string>, unwitnessed: bool, why: string, actor: string, at: Time)
    | Claim(v: nat, runner: UUID, takeover: Attestation, position: Int64, at: Time)
    | Recover(v: nat, readable: bool)
    | StartProcessor
    | FailStart
    | RecordCatchUp(position: Int64, duration: Int64, at: Time)
    | Promote(at: Time)
    | Rollback(v: nat, at: Time)
    | Abandon(v: nat, cause: string)
    | Retire(v: nat, authorization: Attestation, able: bool, answers: Answers, at: Time)
    | Reattest(v: nat, answers: Answers)
    | Teardown(succeeds: bool)
    | CompleteRetire
    | AbortRetire
    | Reconcile(v: nat, readable: bool)
    | JudgePromotion
    | JudgeCatchUp
    | PublishExit
    | Release(at: Time)
  {
    predicate Opens() {
      Resume? || Begin? || SetPolicy?
    }

    predicate HoldsRetireLock() {
      Reattest? || Teardown? || CompleteRetire? || AbortRetire?
    }

    /** The prefix length a command reads, or the bound that is always met. */
    function Reads(): nat {
      match this
      case Resume(v) => v
      case Begin(v, _, _, _) => v
      case SetPolicy(v, _, _, _, _, _) => v
      case Claim(v, _, _, _, _) => v
      case Recover(v, _) => v
      case Rollback(v, _) => v
      case Abandon(v, _) => v
      case Retire(v, _, _, _, _) => v
      case Reattest(v, _) => v
      case Reconcile(v, _) => v
      case _ => 0
    }
  }

  /** What a command does with its handle: the events it appends at version
      `base`, and the handle it leaves under each outcome of the append. */
  datatype Plan = Plan(base: nat, events: History, acked: Handle, unobserved: Handle, unknown: Handle, refused: Handle,
                       tears: Option<ID>)

  function Quiet(h: Handle): Plan {
    Plan(h.view, [], h, h, h, h, None)
  }

  /** An append that changes nothing but the view and, when durable but
      unobserved, kills the certificate. */
  function Sends(h: Handle, events: History): Plan {
    Plan(h.view, events, h.(view := h.view + |events|), h.(certificate := None), h, h, None)
  }

  /** checkLifecycleAggregate, on the fold of a prefix. */
  predicate CheckOk(name: string, history: History, v: nat)
    requires v <= |history|
  {
    var s := At(history, v);
    (s.name == "" || s.name == name) && Valid(s) && !(v > 0 && s.name == "")
  }

  /** The recorded facts that stop a run: its attempt is over, or another runner claimed it. */
  function Superseded(h: Handle, s: State): Handle {
    if s.attempt.id != h.runAttempt then h.(stopped := true, certificate := None)
    else if s.attempt.runner != h.runner then h.(stopped := true, revoked := true, certificate := None)
    else h
  }

  function TerminalStop(h: Handle): Handle {
    if h.stopped then h else h.(stopped := true, revoked := true, certificate := None)
  }

  function LiveCutover(s: State): Cutover {
    Cutover(s.live, s.revision)
  }

  function PlanBegin(name: string, history: History, v: nat, attempt: UUID, why: string, at: Time): Plan
    requires v <= |history|
  {
    var h := Fresh(v);
    var s := At(history, v);
    var target := ID(name, Increment(s.highWater));
    if !CheckOk(name, history, v) || !s.attempt.phase.PhaseNone? || !target.Valid() then Quiet(h)
    else Sends(h, [RebuildInitiated(attempt, target, s.live, why, at)])
  }

  function PlanSetPolicy(name: string, history: History, c: Command): Plan
    requires c.SetPolicy? && c.v <= |history|
  {
    var h := Fresh(c.v);
    var s := At(history, c.v);
    if || c.actor == "" || c.why == "" || (c.unwitnessed && c.witnesses != []) || (!c.unwitnessed && c.witnesses == [])
       || !CanonicalWitnesses(c.witnesses)
       || c.v == 0 || !CheckOk(name, history, c.v) || s.policy.generation >= MAX_INT64 - 1
    then Quiet(h)
    else Sends(h, [RetirementPolicySet(s.policy.generation + 1, c.witnesses, c.unwitnessed, c.why, c.actor, c.at)])
  }

  /** A claim lost to a version conflict is judged at the exact slot it contended for. */
  function ClaimDefeat(name: string, history: History, h: Handle, base: Attempt): Handle
    requires h.view <= |history|
  {
    var slot := h.view + 1;
    if slot > |history| || !CheckOk(name, history, slot) then h
    else
      var current := At(history, slot).attempt;
      if current.id != base.id || current.runner != base.runner then h.(view := slot) else h
  }

  function PlanClaim(name: string, history: History, h: Handle, c: Command): Plan
    requires c.Claim? && c.v <= |history|
  {
    if !h.stage.NotRun? then Quiet(h)
    else
      var ran := h.(stage := Over, view := c.v);
      var s := At(history, c.v);
      var a := s.attempt;
      if !CheckOk(name, history, c.v) then Quiet(ran)
      else if a.Standing() && c.takeover == UNATTESTED then Quiet(ran)
      else if a.phase.PhaseNone? || !a.phase.Known() then Quiet(ran)
      else
        var takeover := if a.Standing() then c.takeover else UNATTESTED;
        var position := if a.phase.PhaseCreated? then 0 else c.position;
        var claim := RunnerClaimed(a.id, c.runner, position, takeover, c.at);
        var events := if a.phase.PhaseCreated? then [claim, BuildStarted] else [claim];
        var bound := ran.(runAttempt := a.id);
        var mine := bound.(runner := c.runner, target := a.target, catchingUp := a.phase.BeforePromotion());
        Plan(c.v, events, mine.(stage := Claimed, view := c.v + |events|), mine.(stage := Recovering),
             bound, ClaimDefeat(name, history, bound, a), None)
  }

  function PlanRecover(name: string, history: History, h: Handle, v: nat, readable: bool): Plan
    requires v <= |history|
  {
    if !h.stage.Recovering? then Quiet(h)
    else if !readable || !CheckOk(name, history, v) then Quiet(h.(stage := Over, catchingUp := false))
    else
      var s := At(history, v);
      if s.attempt.id != h.runAttempt || s.attempt.runner != h.runner
      then Quiet(h.(stage := Over, catchingUp := false, view := v))
      else Quiet(h.(stage := Claimed, view := v))
  }

  /** Checks the stop flag and the exit signal, but not the phase of the view it appends to. */
  function PlanRecordCatchUp(h: Handle, position: Int64, duration: Int64, at: Time): Plan {
    if !h.catchingUp || h.stage in {NotRun, Recovering, Claimed} then Quiet(h)
    else
      var done := h.(catchingUp := false);
      if h.stopped || !h.stage.Running? then Quiet(done)
      else
        var sent := done.(drained := true, drainSlot := h.view);
        Plan(h.view, [CaughtUp(position, duration, at)],
             sent.(view := h.view + 1,
                   certificate := Some(Certificate(h.runAttempt, h.runner, position, h.view + 1))),
             sent.(certificate := None), sent, sent, None)
  }

  function PlanPromote(name: string, history: History, h: Handle, at: Time): Plan
    requires h.view <= |history|
  {
    var s := At(history, h.view);
    var dead := h.(certificate := None);
    if !CheckOk(name, history, h.view) || !s.attempt.phase.PhaseCaughtUp? then Quiet(h)
    else if h.revoked || h.stopped then Quiet(dead)
    else if h.certificate.None? then Quiet(h)
    else
      var c := h.certificate.value;
      if || c.attempt != s.attempt.id || c.runner != s.attempt.runner || c.position != s.attempt.caughtUpPos
         || c.version != h.view || !h.stage.Running?
      then Quiet(dead)
      else if s.revision == MAX_INT64 then Quiet(h)
      else
        var contends := h.(promoteSlot := h.view + 1);
        Plan(h.view, [Promoted(s.live, s.attempt.target, s.revision + 1, s.policy.generation, at)],
             dead.(view := h.view + 1), dead, contends, contends, None)
  }

  /** Ending an attempt stops this handle's run if it is the one it works on. */
  function Ended(h: Handle, a: Attempt): Handle {
    if a.id == h.runAttempt then h.(stopped := true, commandEnded := true) else h
  }

  function Ending(h: Handle, a: Attempt, e: Event): Plan {
    var ended := Ended(h, a);
    Plan(h.view, [e], ended.(view := h.view + 1), ended.(certificate := None), h, h, None)
  }

  function PlanRollback(name: string, history: History, h0: Handle, v: nat, at: Time): Plan
    requires v <= |history|
  {
    var h := h0.(view := v);
    var s := At(history, v);
    if || !CheckOk(name, history, v) || !s.attempt.phase.PhasePromoted? || s.attempt.previous.version == 0
       || s.revision == MAX_INT64
    then Quiet(h)
    else Ending(h, s.attempt, RolledBack(s.live, s.attempt.previous, s.revision + 1, at))
  }

  function PlanAbandon(name: string, history: History, h0: Handle, v: nat, cause: string): Plan
    requires v <= |history|
  {
    var h := h0.(view := v);
    var s := At(history, v);
    if !CheckOk(name, history, v) || !s.attempt.phase.BeforePromotion() then Quiet(h)
    else Ending(h, s.attempt, Abandoned(cause))
  }

  /** A reservation records whom the policy requires, or that it was overridden. */
  function PlanReserve(h: Handle, s: State, c: Command): Plan
    requires c.Retire?
  {
    if c.authorization == UNATTESTED && s.policy.Zero() then Quiet(h)
    else
      var required := if c.authorization != UNATTESTED || s.policy.unwitnessed then [] else s.policy.witnesses;
      match Attest(c.answers, required, LiveCutover(s))
      case None => Quiet(h)
      case Some(receipts) =>
        var plan := Sends(h, [RetireStarted(s.attempt.previous, s.policy.generation, required, receipts,
                                            c.authorization, c.at)]);
        plan.(acked := plan.acked.(retire := Reserved(s.attempt.previous)))
  }

  /** The reservation's own membership is asked again, whoever made the reservation. */
  function Rechecks(h: Handle, previous: ID, s: State, answers: Answers): Plan {
    match Attest(answers, s.attempt.retiringWitnesses, LiveCutover(s))
    case None => Quiet(h)
    case Some(receipts) => Quiet(h.(retire := Ready(previous, receipts)))
  }

  function PlanRetire(name: string, history: History, h0: Handle, c: Command): Plan
    requires c.Retire? && c.v <= |history|
  {
    var h := h0.(view := c.v);
    var s := At(history, c.v);
    var previous := s.attempt.previous;
    if !CheckOk(name, history, c.v) || !s.attempt.phase.Live() then Quiet(h)
    else if previous.version == 0 then
      if c.authorization != UNATTESTED then Quiet(h) else Sends(h, [PreviousRetired(previous, [])])
    else if !c.able then Quiet(h)
    else if s.attempt.phase.PhaseRetiring? then
      if c.authorization != UNATTESTED then Quiet(h)
      else Rechecks(h, previous, s, c.answers)
    else PlanReserve(h, s, c)
  }

  function PlanReattest(name: string, history: History, h0: Handle, v: nat, answers: Answers): Plan
    requires v <= |history| && h0.retire.Reserved?
  {
    var h := h0.(view := v, retire := NoRetire);
    var s := At(history, v);
    if !CheckOk(name, history, v) || !s.attempt.phase.PhaseRetiring? || s.attempt.previous != h0.retire.previous
    then Quiet(h)
    else Rechecks(h, h0.retire.previous, s, answers)
  }

  function PlanTeardown(h: Handle, succeeds: bool): Plan
    requires h.retire.Ready?
  {
    var after := if succeeds then TornDown(h.retire.previous, h.retire.receipts) else NoRetire;
    Quiet(h.(retire := after)).(tears := Some(h.retire.previous))
  }

  function PlanReconcile(name: string, history: History, h: Handle, v: nat, readable: bool): Plan
    requires v <= |history|
  {
    if !h.stage.Running? || h.stopped then Quiet(h)
    else if !readable then Quiet(TerminalStop(h))
    else if v < h.view then Quiet(h)
    else if !CheckOk(name, history, v) then Quiet(TerminalStop(h))
    else Quiet(Superseded(h.(view := v), At(history, v)))
  }

  /** The fold at the slot shows this run's attempt promoted. */
  predicate SlotPromoted(history: History, slot: nat, attempt: UUID)
    requires slot <= |history|
  {
    var s := At(history, slot);
    s.attempt.id == attempt && s.attempt.phase.PhasePromoted?
  }

  /** The verdict that a promotion is durable: the fold at its slot validates, and
      shows this run's attempt promoted. */
  predicate JudgedPromoted(name: string, history: History, slot: nat, attempt: UUID)
    requires slot <= |history|
  {
    CheckOk(name, history, slot) && SlotPromoted(history, slot, attempt)
  }

  /** The verdict of the exact fold at a slot an append of this run lost. */
  function SlotDefeat(name: string, history: History, h: Handle, slot: nat): Handle
    requires slot <= |history|
  {
    var s := At(history, slot);
    if !CheckOk(name, history, slot) then TerminalStop(h)
    else if h.commandEnded then h
    else if h.stopped then
      if s.attempt.id == h.runAttempt && s.attempt.runner != h.runner then h.(revoked := true) else h
    else Superseded(if slot >= h.view then h.(view := slot) else h, s)
  }

  /** An auto-promotion whose outcome is open is resolved from the slot it
      contends for: its winner being this attempt's promotion proves it landed,
      any other winner that it never will, and an empty slot nothing. */
  function PlanJudgePromotion(name: string, history: History, h: Handle): Plan {
    if h.promoteSlot == 0 || h.promoteSlot > |history| then Quiet(h)
    else if JudgedPromoted(name, history, h.promoteSlot, h.runAttempt)
    then Quiet(h.(certificate := None))
    else Quiet(SlotDefeat(name, history, h, h.promoteSlot))
  }

  function PlanJudgeCatchUp(name: string, history: History, h: Handle): Plan {
    if !h.drained || h.drainSlot + 1 > |history| then Quiet(h)
    else Quiet(SlotDefeat(name, history, h, h.drainSlot + 1))
  }

  function PlanRelease(name: string, history: History, h0: Handle, at: Time): Plan
    requires h0.view <= |history|
  {
    if !h0.stage.Exited? then Quiet(h0)
    else
      var h := h0.(stage := Over);
      var a := At(history, h.view).attempt;
      if a.phase.PhaseNone? || a.runner != h.runner || a.released || !CheckOk(name, history, h.view) then Quiet(h)
      else Sends(h, [RunnerReleased(a.id, h.runner, at)])
  }

  /** What the handle's state admits. While a Retire call is in progress it holds
      the handle's lock, and nothing else of the handle runs. */
  predicate Allowed(history: History, h: Handle, c: Command) {
    && c.Reads() <= |history| && h.view <= |history|
    && (c.Begin? ==> c.attempt != NIL_UUID)
    && (c.Claim? ==> c.runner != NIL_UUID && (c.takeover == UNATTESTED || c.takeover.Signed()))
    && (c.Retire? ==> c.authorization == UNATTESTED || c.authorization.Signed())
    && (!h.retire.NoRetire? ==> c.HoldsRetireLock())
    && (c.Reattest? ==> h.retire.Reserved?)
    && (c.Teardown? ==> h.retire.Ready?)
    && (c.CompleteRetire? ==> h.retire.TornDown?)
  }

  function PlanOf(name: string, history: History, h: Handle, c: Command): Plan
    requires Allowed(history, h, c)
  {
    match c
    case Resume(v) => Quiet(Fresh(v))
    case Begin(v, attempt, why, at) => PlanBegin(name, history, v, attempt, why, at)
    case SetPolicy(_, _, _, _, _, _) => PlanSetPolicy(name, history, c)
    case Claim(_, _, _, _, _) => PlanClaim(name, history, h, c)
    case Recover(v, readable) => PlanRecover(name, history, h, v, readable)
    case StartProcessor => Quiet(if h.stage.Claimed? then h.(stage := Running) else h)
    case FailStart => Quiet(if h.stage.Claimed? then h.(stage := Exited, catchingUp := false) else h)
    case RecordCatchUp(position, duration, at) => PlanRecordCatchUp(h, position, duration, at)
    case Promote(at) => PlanPromote(name, history, h, at)
    case Rollback(v, at) => PlanRollback(name, history, h, v, at)
    case Abandon(v, cause) => PlanAbandon(name, history, h, v, cause)
    case Retire(_, _, _, _, _) => PlanRetire(name, history, h, c)
    case Reattest(v, answers) => PlanReattest(name, history, h, v, answers)
    case Teardown(succeeds) => PlanTeardown(h, succeeds)
    case CompleteRetire => Sends(h.(retire := NoRetire), [PreviousRetired(h.retire.previous, h.retire.receipts)])
    case AbortRetire => Quiet(h.(retire := NoRetire))
    case Reconcile(v, readable) => PlanReconcile(name, history, h, v, readable)
    case JudgePromotion => PlanJudgePromotion(name, history, h)
    case JudgeCatchUp => PlanJudgeCatchUp(name, history, h)
    case PublishExit => Quiet(if h.stage.Running? then h.(stage := Exited, certificate := None) else h)
    case Release(at) => PlanRelease(name, history, h, at)
  }

  // ---------------------------------------------------------------------------
  // The world
  // ---------------------------------------------------------------------------

  /** Who appended an event, whether it landed only after its append call had
      returned, and whether the author's processor exit was published by then. */
  datatype Mark = Mark(author: nat, late: bool, exited: bool)

  datatype Message = Message(expected: nat, events: History, author: nat)

  /** A call of Teardown: the stream length when it was made, who made it, and whether
      it succeeded. */
  datatype Destruction = Destruction(version: ID, length: nat, author: nat, done: bool)

  datatype World = World(
    name: string,
    history: History,
    marks: seq<Mark>,
    handles: map<nat, Handle>,
    inFlight: seq<Message>,
    torn: seq<Destruction>,
    runners: set<UUID>)

  datatype Outcome = Acked | Unobserved | CommittedLost | InFlight | Rejected | Failed {
    predicate Commits() {
      Acked? || Unobserved? || CommittedLost?
    }
  }

  datatype Action =
    | Do(hid: nat, command: Command, outcome: Outcome)
    | Land(index: nat)

  function Init(name: string): World {
    World(name, [], [], map[], [], [], {})
  }

  /** An opening command makes a new handle; every other needs an existing one. */
  function HandleFor(w: World, hid: nat, c: Command): Option<Handle> {
    if c.Opens() then
      if hid in w.handles then None else Some(Fresh(c.Reads()))
    else if hid in w.handles then Some(w.handles[hid]) else None
  }

  predicate Enabled(w: World, a: Action) {
    match a
    case Do(hid, c, outcome) =>
      var h := HandleFor(w, hid, c);
      && h.Some? && Allowed(w.history, h.value, c)
      && (c.Claim? ==> c.runner !in w.runners)
      && (var plan := PlanOf(w.name, w.history, h.value, c);
          && (outcome.Commits() ==> plan.base == |w.history|)
          && (outcome.Rejected? ==> plan.base != |w.history|))
    case Land(index) => index < |w.inFlight| && w.inFlight[index].expected == |w.history|
  }

  function Left(plan: Plan, outcome: Outcome): Handle {
    match outcome
    case Acked => plan.acked
    case Unobserved => plan.unobserved
    case Rejected => plan.refused
    case _ => plan.unknown
  }

  function MarksFor(n: nat, mark: Mark): (r: seq<Mark>)
    ensures |r| == n && forall i :: 0 <= i < n ==> r[i] == mark
  {
    seq(n, i => mark)
  }

  function ExitedBy(w: World, hid: nat): bool {
    hid in w.handles && w.handles[hid].Finished()
  }

  function Execute(w: World, hid: nat, c: Command, outcome: Outcome, plan: Plan): World {
    var committed := outcome.Commits();
    var events := if committed then plan.events else [];
    World(w.name,
          w.history + events,
          w.marks + MarksFor(|events|, Mark(hid, false, ExitedBy(w, hid))),
          w.handles[hid := if plan.events == [] then plan.acked else Left(plan, outcome)],
          if outcome.InFlight? && plan.events != [] then w.inFlight + [Message(plan.base, plan.events, hid)] else w.inFlight,
          if plan.tears.Some? then w.torn + [Destruction(plan.tears.value, |w.history|, hid, c.Teardown? && c.succeeds)] else w.torn,
          if c.Claim? then w.runners + {c.runner} else w.runners)
  }

  function Step(w: World, a: Action): World
    requires Enabled(w, a)
  {
    match a
    case Do(hid, c, outcome) =>
      Execute(w, hid, c, outcome, PlanOf(w.name, w.history, HandleFor(w, hid, c).value, c))
    case Land(index) =>
      var m := w.inFlight[index];
      w.(history := w.history + m.events,
         marks := w.marks + MarksFor(|m.events|, Mark(m.author, true, ExitedBy(w, m.author))))
  }

  predicate Runs(w: World, actions: seq<Action>)
    decreases |actions|
  {
    actions != [] ==> Enabled(w, actions[0]) && Runs(Step(w, actions[0]), actions[1..])
  }

  function Final(w: World, actions: seq<Action>): World
    requires Runs(w, actions)
    decreases |actions|
  {
    if actions == [] then w else Final(Step(w, actions[0]), actions[1..])
  }

  /** The stream only grows. */
  lemma {:induction false} StreamGrows(w: World, actions: seq<Action>)
    requires Runs(w, actions)
    ensures w.history <= Final(w, actions).history
    decreases |actions|
  {
    hide PlanOf, Allowed;
    if actions == [] {
    } else {
      StreamGrows(Step(w, actions[0]), actions[1..]);
    }
  }
}
