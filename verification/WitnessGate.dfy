/** The witness gate of a retirement: in every run, a reservation recorded without an
    override had every witness its policy requires vouch for exactly the cutover then
    live, and every teardown had every witness the reservation captured vouch for it
    again afterwards. */
module WitnessGate {
  import opened Base
  import opened LifecycleState
  import opened LifecycleEvents
  import opened CleanHistories
  import opened Protocol
  import opened PromotionSafety
  import opened RetirementSafety

  // ---------------------------------------------------------------------------
  // Who asked whom
  // ---------------------------------------------------------------------------

  predicate Asks(c: Command) {
    c.Retire? || c.Reattest?
  }

  /** The action asked every witness the standing reservation of this version
      captured, and each vouched for exactly the cutover live on the view it read. */
  predicate Confirms(history: History, hid: nat, a: Action, version: ID) {
    && a.Do? && a.hid == hid && Asks(a.command) && a.command.v <= |history| && (a.command.Retire? ==> a.command.able)
    && (var s := At(history, a.command.v);
        && s.attempt.phase.PhaseRetiring? && s.attempt.previous == version
        && Vouched(a.command.answers, s.attempt.retiringWitnesses, LiveCutover(s)))
  }

  /** The action is the retirement that sent this reservation at this index, able to
      tear the version down: without an
      override it had a policy, asked exactly the members it requires, and each
      vouched for exactly the cutover live there. */
  predicate Authorizes(history: History, i: nat, e: Event, author: nat, a: Action)
    requires i <= |history| && e.RetireStarted?
  {
    && a.Do? && a.hid == author && a.command.Retire? && a.command.v == i && a.command.able
    && a.command.authorization == e.authorization
    && (var s := At(history, i);
        && (e.authorization == UNATTESTED ==>
              !s.policy.Zero() && e.witnesses == if s.policy.unwitnessed then [] else s.policy.witnesses)
        && Vouched(a.command.answers, e.witnesses, LiveCutover(s))
        && ReceiptsAttest(e.receipts, e.witnesses, LiveCutover(s)))
  }

  ghost predicate Confirmed(history: History, hid: nat, past: seq<Action>, version: ID) {
    exists k :: 0 <= k < |past| && Confirms(history, hid, past[k], version)
  }

  ghost predicate Authorized(history: History, i: nat, e: Event, author: nat, past: seq<Action>)
    requires i <= |history|
  {
    e.RetireStarted? ==> exists k :: 0 <= k < |past| && Authorizes(history, i, e, author, past[k])
  }

  // ---------------------------------------------------------------------------
  // The invariant
  // ---------------------------------------------------------------------------

  /** An append that reserves does nothing else, and is authorized at its base. */
  ghost predicate AppendAuthorized(history: History, base: nat, events: History, author: nat, past: seq<Action>) {
    && base <= |history|
    && (forall e :: e in events && e.RetireStarted? ==> events == [e] && Authorized(history, base, e, author, past))
  }

  ghost predicate HandleConfirmed(history: History, hid: nat, h: Handle, past: seq<Action>) {
    h.retire.Ready? || h.retire.TornDown? ==> Confirmed(history, hid, past, h.retire.previous)
  }

  ghost predicate TeardownConfirmed(history: History, t: Destruction, past: seq<Action>) {
    exists hid :: Confirmed(history, hid, past, t.version)
  }

  ghost predicate GateInv(w: World, past: seq<Action>) {
    && |w.history| == |w.marks|
    && (forall i :: 0 <= i < |w.history| ==> Authorized(w.history, i, w.history[i], w.marks[i].author, past))
    && (forall m :: m in w.inFlight ==> AppendAuthorized(w.history, m.expected, m.events, m.author, past))
    && (forall hid :: hid in w.handles ==> HandleConfirmed(w.history, hid, w.handles[hid], past))
    && forall t :: t in w.torn ==> TeardownConfirmed(w.history, t, past)
  }

  // ---------------------------------------------------------------------------
  // What a longer stream and a longer past keep
  // ---------------------------------------------------------------------------

  lemma ConfirmedStays(history: History, more: History, hid: nat, past: seq<Action>, a: Action, version: ID)
    requires Confirmed(history, hid, past, version)
    ensures Confirmed(history + more, hid, past + [a], version)
  {
    hide FoldFrom;
    var k :| 0 <= k < |past| && Confirms(history, hid, past[k], version);
    assert (history + more)[..past[k].command.v] == history[..past[k].command.v];
    assert Confirms(history + more, hid, (past + [a])[k], version);
  }

  lemma AuthorizedStays(history: History, more: History, i: nat, e: Event, author: nat, past: seq<Action>, a: Action)
    requires i <= |history| && Authorized(history, i, e, author, past)
    ensures Authorized(history + more, i, e, author, past + [a])
  {
    hide FoldFrom;
    if e.RetireStarted? {
      var k :| 0 <= k < |past| && Authorizes(history, i, e, author, past[k]);
      assert (history + more)[..i] == history[..i];
      assert Authorizes(history + more, i, e, author, (past + [a])[k]);
    }
  }

  lemma AppendStays(history: History, more: History, base: nat, events: History, author: nat, past: seq<Action>, a: Action)
    requires AppendAuthorized(history, base, events, author, past)
    ensures AppendAuthorized(history + more, base, events, author, past + [a])
  {
    hide Authorized;
    forall e | e in events && e.RetireStarted? ensures Authorized(history + more, base, e, author, past + [a]) {
      AuthorizedStays(history, more, base, e, author, past, a);
    }
  }

  // ---------------------------------------------------------------------------
  // Who reserves
  // ---------------------------------------------------------------------------

  predicate SendsNoReservation(plan: Plan) {
    forall e :: e in plan.events ==> !e.RetireStarted?
  }

  lemma EndingsReserveNothing(name: string, history: History, h: Handle, v: nat, at: Time, cause: string)
    requires v <= |history| && h.view <= |history|
    ensures SendsNoReservation(PlanRollback(name, history, h, v, at))
    ensures SendsNoReservation(PlanAbandon(name, history, h, v, cause))
    ensures SendsNoReservation(PlanRelease(name, history, h, at))
  {
    hide At, CheckOk, Ended;
  }

  lemma RunsReserveNothing(name: string, history: History, h: Handle, c: Command)
    requires h.view <= |history|
    ensures c.Claim? && c.v <= |history| ==> SendsNoReservation(PlanClaim(name, history, h, c))
    ensures c.RecordCatchUp? ==> SendsNoReservation(PlanRecordCatchUp(h, c.position, c.duration, c.at))
    ensures c.Promote? ==> SendsNoReservation(PlanPromote(name, history, h, c.at))
  {
    hide At, CheckOk, ClaimDefeat, Attempt.Standing;
  }

  lemma OpeningsReserveNothing(name: string, history: History, c: Command)
    ensures c.Begin? && c.v <= |history| ==> SendsNoReservation(PlanBegin(name, history, c.v, c.attempt, c.why, c.at))
    ensures c.SetPolicy? && c.v <= |history| ==> SendsNoReservation(PlanSetPolicy(name, history, c))
  {
    hide At, CheckOk, CanonicalWitnesses, ID.Valid;
  }

  lemma OthersReserveNothing(name: string, history: History, h: Handle, c: Command)
    requires Allowed(history, h, c) && !c.Retire?
    ensures SendsNoReservation(PlanOf(name, history, h, c))
  {
    hide At, CheckOk, SlotDefeat, JudgedPromoted, Superseded, TerminalStop, Attest,
      PlanRollback, PlanAbandon, PlanRelease, PlanBegin, PlanSetPolicy, PlanClaim, PlanRecordCatchUp, PlanPromote;
    if c.Rollback? {
      EndingsReserveNothing(name, history, h, c.v, c.at, "");
    } else if c.Abandon? {
      EndingsReserveNothing(name, history, h, c.v, ZERO_TIME, c.cause);
    } else if c.Release? {
      EndingsReserveNothing(name, history, h, 0, c.at, "");
    } else if c.Opens() {
      OpeningsReserveNothing(name, history, c);
    } else if c.Claim? || c.RecordCatchUp? || c.Promote? {
      RunsReserveNothing(name, history, h, c);
    }
  }

  /** A retirement's reservation is authorized by the retirement itself. */
  lemma RetireAuthorizes(name: string, history: History, hid: nat, h: Handle, c: Command, outcome: Outcome, past: seq<Action>)
    requires c.Retire? && c.v <= |history|
    ensures var plan := PlanRetire(name, history, h, c);
            plan.events != [] ==> AppendAuthorized(history, plan.base, plan.events, hid, past + [Do(hid, c, outcome)])
  {
    hide At, CheckOk, Attest;
    var plan := PlanRetire(name, history, h, c);
    var s := At(history, c.v);
    if plan.events != [] && plan.events[0].RetireStarted? {
      var required := if c.authorization != UNATTESTED || s.policy.unwitnessed then [] else s.policy.witnesses;
      AttestIsUnanimous(c.answers, required, LiveCutover(s));
      var a := Do(hid, c, outcome);
      assert Authorizes(history, c.v, plan.events[0], hid, (past + [a])[|past|]);
    }
  }

  // ---------------------------------------------------------------------------
  // Who holds a confirmation
  // ---------------------------------------------------------------------------

  lemma RecheckConfirms(history: History, hid: nat, h: Handle, previous: ID, c: Command, outcome: Outcome, past: seq<Action>)
    requires Asks(c) && c.v <= |history| && h.view == c.v && Loose(h) && (c.Retire? ==> c.able)
    requires At(history, c.v).attempt.phase.PhaseRetiring? && At(history, c.v).attempt.previous == previous
    ensures var plan := Rechecks(h, previous, At(history, c.v), c.answers);
            && plan.events == [] && plan.tears.None?
            && HandleConfirmed(history, hid, plan.acked, past + [Do(hid, c, outcome)])
  {
    hide At, Attest;
    var a := Do(hid, c, outcome);
    var s := At(history, c.v);
    AttestIsUnanimous(c.answers, s.attempt.retiringWitnesses, LiveCutover(s));
    assert (past + [a])[|past|] == a;
  }

  lemma RetireConfirms(name: string, history: History, hid: nat, h: Handle, c: Command, outcome: Outcome, past: seq<Action>)
    requires c.Retire? && c.v <= |history| && h.retire.NoRetire?
    ensures var plan := PlanRetire(name, history, h, c);
            && (plan.events == [] ==> HandleConfirmed(history, hid, plan.acked, past + [Do(hid, c, outcome)]))
            && (plan.events != [] ==> Loose(Left(plan, outcome)))
            && plan.tears.None?
  {
    hide At, CheckOk, Attest, Rechecks, RetirementPolicy.Zero, Confirmed;
    var s := At(history, c.v);
    if s.attempt.phase.PhaseRetiring? && c.able {
      RecheckConfirms(history, hid, h.(view := c.v), s.attempt.previous, c, outcome, past);
    }
  }

  lemma ReattestConfirms(name: string, history: History, hid: nat, h: Handle, c: Command, outcome: Outcome, past: seq<Action>)
    requires c.Reattest? && c.v <= |history| && h.retire.Reserved?
    ensures var plan := PlanReattest(name, history, h, c.v, c.answers);
            plan.events == [] && HandleConfirmed(history, hid, plan.acked, past + [Do(hid, c, outcome)]) && plan.tears.None?
  {
    hide At, CheckOk, Attest, Rechecks, Confirmed;
    var s := At(history, c.v);
    if s.attempt.phase.PhaseRetiring? && s.attempt.previous == h.retire.previous {
      RecheckConfirms(history, hid, h.(view := c.v, retire := NoRetire), h.retire.previous, c, outcome, past);
    }
  }

  lemma AskingConfirms(name: string, history: History, hid: nat, h: Handle, c: Command, outcome: Outcome, past: seq<Action>)
    requires Asks(c) && Allowed(history, h, c)
    ensures var plan := PlanOf(name, history, h, c);
            && (plan.events == [] ==> HandleConfirmed(history, hid, plan.acked, past + [Do(hid, c, outcome)]))
            && (plan.events != [] ==> Loose(Left(plan, outcome)))
            && plan.tears.None?
  {
    hide At, CheckOk, HandleConfirmed, Loose, PlanRetire, PlanReattest;
    if c.Retire? {
      RetireConfirms(name, history, hid, h, c, outcome, past);
    } else {
      ReattestConfirms(name, history, hid, h, c, outcome, past);
    }
  }

  /** Every other command leaves a confirmation as it was, or drops it. */
  lemma OthersKeepRetire(name: string, history: History, h: Handle, c: Command, outcome: Outcome)
    requires Allowed(history, h, c) && (c.Opens() ==> h == Fresh(c.Reads())) && !Asks(c) && !c.Teardown?
    ensures var plan := PlanOf(name, history, h, c);
            var k := if plan.events == [] then plan.acked else Left(plan, outcome);
            (k.retire == h.retire || k.retire.NoRetire?) && plan.tears.None?
  {
    hide At, CheckOk, MildPlan, ClaimDefeat, Attempt.Standing,
      PlanRollback, PlanAbandon, PlanRelease, PlanRetire, PlanReattest, PlanTeardown, PlanRecover,
      PlanReconcile, PlanJudgePromotion, PlanJudgeCatchUp, PlanBegin, PlanSetPolicy;
    if c.Claim? || c.RecordCatchUp? || c.Promote? {
      RunsKeepRetire(name, history, h, c, outcome);
    } else {
      OtherPlansMild(name, history, h, c);
      MildKeepsRetire(h, PlanOf(name, history, h, c), |history|, outcome);
      OnlyTeardownTears(name, history, h, c);
    }
  }

  lemma MildKeepsRetire(h: Handle, plan: Plan, n: nat, outcome: Outcome)
    requires MildPlan(plan, h, n, false)
    ensures var k := if plan.events == [] then plan.acked else Left(plan, outcome);
            k.retire == h.retire || k.retire.NoRetire?
  {
  }

  lemma RunsKeepRetire(name: string, history: History, h: Handle, c: Command, outcome: Outcome)
    requires Allowed(history, h, c) && (c.Claim? || c.RecordCatchUp? || c.Promote?)
    ensures var plan := PlanOf(name, history, h, c);
            var k := if plan.events == [] then plan.acked else Left(plan, outcome);
            k.retire == h.retire && plan.tears.None?
  {
    hide At, CheckOk, Attempt.Standing;
  }

  lemma TeardownKeepsRetire(name: string, history: History, h: Handle, c: Command)
    requires Allowed(history, h, c) && c.Teardown?
    ensures var plan := PlanOf(name, history, h, c);
            && plan.events == [] && plan.tears == Some(h.retire.previous) && h.retire.Ready?
            && (plan.acked.retire.TornDown? ==> plan.acked.retire.previous == h.retire.previous)
            && !plan.acked.retire.Ready?
  {
  }

  // ---------------------------------------------------------------------------
  // Runs
  // ---------------------------------------------------------------------------

  lemma PlanIsAuthorized(w: World, a: Action, past: seq<Action>)
    requires Inv(w) && Enabled(w, a) && a.Do?
    ensures var plan := PlanOf(w.name, w.history, HandleFor(w, a.hid, a.command).value, a.command);
            plan.events != [] ==> AppendAuthorized(w.history, plan.base, plan.events, a.hid, past + [a])
  {
    hide PlanOf, HandleOk, EntryOk, MessageOk, Allowed, At, EventOk, AckedOk, CertifiedAt, AppendAuthorized;
    var h := HandleFor(w, a.hid, a.command).value;
    PlanOk(w, a.hid, h, a.command);
    if a.command.Retire? {
      RetireIsPlanned(w.name, w.history, h, a.command);
      RetireAuthorizes(w.name, w.history, a.hid, h, a.command, a.outcome, past);
    } else {
      OthersReserveNothing(w.name, w.history, h, a.command);
      NothingToAuthorize(w.history, PlanOf(w.name, w.history, h, a.command), a.hid, past + [a]);
    }
  }

  lemma RetireIsPlanned(name: string, history: History, h: Handle, c: Command)
    requires Allowed(history, h, c) && c.Retire?
    ensures c.v <= |history| && PlanOf(name, history, h, c) == PlanRetire(name, history, h, c)
  {
  }

  lemma NothingToAuthorize(history: History, plan: Plan, author: nat, past: seq<Action>)
    requires plan.base <= |history| && SendsNoReservation(plan)
    ensures AppendAuthorized(history, plan.base, plan.events, author, past)
  {
  }

  /** The acting handle, and what the step tears down. */
  lemma ActorStaysConfirmed(w: World, a: Action, past: seq<Action>)
    requires Inv(w) && GateInv(w, past) && Enabled(w, a) && a.Do?
    ensures HandleConfirmed(Step(w, a).history, a.hid, Step(w, a).handles[a.hid], past + [a])
    ensures forall t :: t in Step(w, a).torn ==> t in w.torn || TeardownConfirmed(Step(w, a).history, t, past + [a])
  {
    hide PlanOf, Allowed, Inv, Confirmed, Authorized;
    var v := Step(w, a);
    var h := HandleFor(w, a.hid, a.command).value;
    var plan := PlanOf(w.name, w.history, h, a.command);
    var more := v.history[|w.history|..];
    assert v.history == w.history + more;
    if Asks(a.command) {
      AskingStaysConfirmed(w, a, past);
    } else if a.command.Teardown? {
      TeardownKeepsRetire(w.name, w.history, h, a.command);
      assert HandleConfirmed(w.history, a.hid, h, past);
      ConfirmedStays(w.history, more, a.hid, past, a, h.retire.previous);
    } else {
      OthersKeepRetire(w.name, w.history, h, a.command, a.outcome);
      if !a.command.Opens() && (h.retire.Ready? || h.retire.TornDown?) {
        assert HandleConfirmed(w.history, a.hid, h, past);
        ConfirmedStays(w.history, more, a.hid, past, a, h.retire.previous);
      }
    }
  }

  lemma AskingStaysConfirmed(w: World, a: Action, past: seq<Action>)
    requires Enabled(w, a) && a.Do? && Asks(a.command)
    ensures HandleConfirmed(Step(w, a).history, a.hid, Step(w, a).handles[a.hid], past + [a])
    ensures Step(w, a).torn == w.torn
  {
    hide PlanOf, Allowed, Confirmed;
    var h := HandleFor(w, a.hid, a.command).value;
    var plan := PlanOf(w.name, w.history, h, a.command);
    AskingConfirms(w.name, w.history, a.hid, h, a.command, a.outcome, past);
    if plan.events == [] {
      assert w.history + [] == w.history;
    }
  }

  lemma StepKeepsGate(w: World, a: Action, past: seq<Action>)
    requires Inv(w) && GateInv(w, past) && Enabled(w, a)
    ensures GateInv(Step(w, a), past + [a])
  {
    hide PlanOf, Allowed, Inv, Confirmed, Authorized, AppendAuthorized, HandleConfirmed, TeardownConfirmed;
    var v := Step(w, a);
    var more := v.history[|w.history|..];
    assert v.history == w.history + more;
    StepEntriesAuthorized(w, a, past);
    StepMessagesAuthorized(w, a, past);
    if a.Do? {
      ActorStaysConfirmed(w, a, past);
    }
    forall hid | hid in v.handles ensures HandleConfirmed(v.history, hid, v.handles[hid], past + [a]) {
      if !(a.Do? && hid == a.hid) {
        HandleStays(w.history, more, hid, w.handles[hid], past, a);
      }
    }
    forall t | t in v.torn ensures TeardownConfirmed(v.history, t, past + [a]) {
      if t in w.torn {
        TeardownStays(w.history, more, t, past, a);
      }
    }
  }

  lemma HandleStays(history: History, more: History, hid: nat, h: Handle, past: seq<Action>, a: Action)
    requires HandleConfirmed(history, hid, h, past)
    ensures HandleConfirmed(history + more, hid, h, past + [a])
  {
    hide Confirmed;
    if h.retire.Ready? || h.retire.TornDown? {
      ConfirmedStays(history, more, hid, past, a, h.retire.previous);
    }
  }

  lemma TeardownStays(history: History, more: History, t: Destruction, past: seq<Action>, a: Action)
    requires TeardownConfirmed(history, t, past)
    ensures TeardownConfirmed(history + more, t, past + [a])
  {
    hide Confirmed;
    var hid :| Confirmed(history, hid, past, t.version);
    ConfirmedStays(history, more, hid, past, a, t.version);
  }

  /** The events of an authorized append, recorded at its base. */
  lemma RecordedAreAuthorized(history: History, events: History, author: nat, past: seq<Action>, i: nat)
    requires AppendAuthorized(history, |history|, events, author, past) && |history| <= i < |history + events|
    ensures Authorized(history + events, i, (history + events)[i], author, past)
  {
    hide FoldFrom;
    var e := events[i - |history|];
    if e.RetireStarted? {
      assert e in events && events == [e];
      assert Authorized(history, |history|, e, author, past);
      var k :| 0 <= k < |past| && Authorizes(history, |history|, e, author, past[k]);
      assert (history + events)[..i] == history[..i];
      assert Authorizes(history + events, i, e, author, past[k]);
    }
  }

  lemma StepEntriesAuthorized(w: World, a: Action, past: seq<Action>)
    requires Inv(w) && GateInv(w, past) && Enabled(w, a)
    ensures var v := Step(w, a);
            && |v.history| == |v.marks|
            && forall i :: 0 <= i < |v.history| ==> Authorized(v.history, i, v.history[i], v.marks[i].author, past + [a])
  {
    hide PlanOf, Allowed, Inv, Confirmed, Authorized, AppendAuthorized;
    var v := Step(w, a);
    var more := v.history[|w.history|..];
    assert v.history == w.history + more;
    var author := if a.Do? then a.hid else w.inFlight[a.index].author;
    if a.Do? {
      PlanIsAuthorized(w, a, past);
    } else {
      var m := w.inFlight[a.index];
      AppendStays(w.history, [], m.expected, m.events, m.author, past, a);
      assert w.history + [] == w.history;
    }
    forall i | 0 <= i < |v.history| ensures Authorized(v.history, i, v.history[i], v.marks[i].author, past + [a]) {
      if i < |w.history| {
        AuthorizedStays(w.history, more, i, w.history[i], w.marks[i].author, past, a);
      } else {
        assert v.marks[i].author == author;
        RecordedAreAuthorized(w.history, more, author, past + [a], i);
      }
    }
  }

  lemma StepMessagesAuthorized(w: World, a: Action, past: seq<Action>)
    requires Inv(w) && GateInv(w, past) && Enabled(w, a)
    ensures forall m :: m in Step(w, a).inFlight ==>
              AppendAuthorized(Step(w, a).history, m.expected, m.events, m.author, past + [a])
  {
    hide PlanOf, Allowed, Inv, Confirmed, Authorized, AppendAuthorized;
    var v := Step(w, a);
    var more := v.history[|w.history|..];
    assert v.history == w.history + more;
    if a.Do? {
      PlanIsAuthorized(w, a, past);
      assert w.history + [] == w.history;
    }
    forall m | m in v.inFlight ensures AppendAuthorized(v.history, m.expected, m.events, m.author, past + [a]) {
      if m in w.inFlight {
        AppendStays(w.history, more, m.expected, m.events, m.author, past, a);
      }
    }
  }

  lemma {:induction false} RunsKeepGate(w: World, actions: seq<Action>, past: seq<Action>)
    requires Inv(w) && GateInv(w, past) && Runs(w, actions)
    ensures GateInv(Final(w, actions), past + actions)
    decreases |actions|
  {
    hide Inv, GateInv, Step, Enabled;
    if actions == [] {
      assert past + actions == past;
    } else {
      StepKeepsInv(w, actions[0]);
      StepKeepsGate(w, actions[0], past);
      RunsKeepGate(Step(w, actions[0]), actions[1..], past + [actions[0]]);
      assert past + [actions[0]] + actions[1..] == past + actions;
    }
  }

  lemma StartsGated(name: string)
    ensures GateInv(Init(name), [])
  {
  }

  lemma RunsAreGated(name: string, actions: seq<Action>)
    requires Runs(Init(name), actions)
    ensures GateInv(Final(Init(name), actions), actions)
  {
    hide Inv, GateInv, Final, Runs;
    InitOk(name);
    StartsGated(name);
    RunsKeepGate(Init(name), actions, []);
    assert [] + actions == actions;
  }

  /** In every run each recorded reservation was sent by a retirement that carried its
      authorization; without an override that retirement found a policy in force,
      asked exactly the witnesses it requires, and each of them served exactly the
      cutover live at that point of the stream. */
  lemma ReservationsAreVouchedFor(name: string, actions: seq<Action>, i: nat)
    requires Runs(Init(name), actions)
    requires i < |Final(Init(name), actions).history| && Final(Init(name), actions).history[i].RetireStarted?
    ensures var w := Final(Init(name), actions);
            && |w.history| == |w.marks|
            && exists k :: 0 <= k < |actions| && Authorizes(w.history, i, w.history[i], w.marks[i].author, actions[k])
  {
    hide Final, Runs, Authorizes;
    RunsAreGated(name, actions);
    var w := Final(Init(name), actions);
    assert Authorized(w.history, i, w.history[i], w.marks[i].author, actions);
  }

  /** In every run, up to and including the teardown itself, each teardown comes after
      an action that read the reservation of that version and had every witness it
      captured vouch for exactly the live cutover. */
  lemma TeardownsAreVouchedFor(name: string, actions: seq<Action>, t: Destruction)
    requires Runs(Init(name), actions) && t in Final(Init(name), actions).torn
    ensures var w := Final(Init(name), actions);
            exists hid, k :: 0 <= k < |actions| && Confirms(w.history, hid, actions[k], t.version)
  {
    hide Final, Runs, Confirms;
    RunsAreGated(name, actions);
    var w := Final(Init(name), actions);
    assert TeardownConfirmed(w.history, t, actions);
  }

  /** A required witness that does not serve the live cutover stops the retirement on
      the spot: nothing is sent, and nothing held. */
  lemma RefusedRetirementsDoNothing(name: string, history: History, h: Handle, c: Command, id: string)
    requires c.Retire? && c.v <= |history| && At(history, c.v).attempt.previous.version != 0
    requires var s := At(history, c.v);
             var required := if s.attempt.phase.PhaseRetiring? then s.attempt.retiringWitnesses
                             else if c.authorization != UNATTESTED || s.policy.unwitnessed then []
                             else s.policy.witnesses;
             id in required && !(id in c.answers && c.answers[id] == Serves(LiveCutover(s)))
    ensures PlanRetire(name, history, h, c) == Quiet(h.(view := c.v))
  {
    hide At, CheckOk, Attest, RetirementPolicy.Zero;
    var s := At(history, c.v);
    AttestIsUnanimous(c.answers, s.attempt.retiringWitnesses, LiveCutover(s));
    AttestIsUnanimous(c.answers, s.policy.witnesses, LiveCutover(s));
  }
}
