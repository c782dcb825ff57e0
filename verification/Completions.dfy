/** Retirements end as they should: in every run a completion that names a version is
    recorded only by a handle whose own teardown of exactly that version succeeded. */
module Completions {
  import opened Base
  import opened LifecycleState
  import opened LifecycleEvents
  import opened CleanHistories
  import opened Protocol
  import opened RunDiscipline
  import opened WitnessGate

  /** This handle's teardown of this version succeeded. */
  predicate Removed(torn: seq<Destruction>, author: nat, version: ID) {
    exists i :: 0 <= i < |torn| && torn[i].version == version && torn[i].author == author && torn[i].done
  }

  predicate Backed(torn: seq<Destruction>, author: nat, e: Event) {
    e.PreviousRetired? && e.retired.version != 0 ==> Removed(torn, author, e.retired)
  }

  predicate AllBacked(torn: seq<Destruction>, author: nat, events: History) {
    forall e :: e in events ==> Backed(torn, author, e)
  }

  predicate TearsTruly(torn: seq<Destruction>, hid: nat, h: Handle) {
    h.retire.TornDown? ==> Removed(torn, hid, h.retire.previous)
  }

  ghost predicate CompletionInv(w: World) {
    && |w.history| == |w.marks|
    && (forall i :: 0 <= i < |w.history| ==> Backed(w.torn, w.marks[i].author, w.history[i]))
    && (forall m :: m in w.inFlight ==> AllBacked(w.torn, m.author, m.events))
    && forall hid :: hid in w.handles ==> TearsTruly(w.torn, hid, w.handles[hid])
  }

  // ---------------------------------------------------------------------------
  // Who completes
  // ---------------------------------------------------------------------------

  /** Nothing here names a version as retired. */
  predicate RetiresNone(events: History) {
    forall e :: e in events && e.PreviousRetired? ==> e.retired.version == 0
  }

  lemma EndingsRetireNone(name: string, history: History, h: Handle, v: nat, at: Time, cause: string)
    requires v <= |history| && h.view <= |history|
    ensures RetiresNone(PlanRollback(name, history, h, v, at).events)
    ensures RetiresNone(PlanAbandon(name, history, h, v, cause).events)
    ensures RetiresNone(PlanRelease(name, history, h, at).events)
  {
    hide At, CheckOk, Ended;
  }

  lemma RunCommandsRetireNone(name: string, history: History, h: Handle, c: Command)
    requires h.view <= |history|
    ensures c.Claim? && c.v <= |history| ==> RetiresNone(PlanClaim(name, history, h, c).events)
    ensures c.RecordCatchUp? ==> RetiresNone(PlanRecordCatchUp(h, c.position, c.duration, c.at).events)
    ensures c.Promote? ==> RetiresNone(PlanPromote(name, history, h, c.at).events)
  {
    hide At, CheckOk, ClaimDefeat, Attempt.Standing;
  }

  lemma OpeningsRetireNone(name: string, history: History, c: Command)
    ensures c.Begin? && c.v <= |history| ==> RetiresNone(PlanBegin(name, history, c.v, c.attempt, c.why, c.at).events)
    ensures c.SetPolicy? && c.v <= |history| ==> RetiresNone(PlanSetPolicy(name, history, c).events)
  {
    hide At, CheckOk, CanonicalWitnesses, ID.Valid;
  }

  lemma RetireRetiresNone(name: string, history: History, h: Handle, c: Command)
    requires c.Retire? && c.v <= |history|
    ensures RetiresNone(PlanRetire(name, history, h, c).events)
  {
    hide At, CheckOk, Attest, RetirementPolicy.Zero;
  }

  /** Only the completion of a retirement names a version. */
  lemma OthersRetireNone(name: string, history: History, h: Handle, c: Command)
    requires Allowed(history, h, c) && !c.CompleteRetire?
    ensures RetiresNone(PlanOf(name, history, h, c).events)
  {
    hide At, CheckOk, SlotDefeat, JudgedPromoted, Superseded, TerminalStop, Attest,
      PlanRollback, PlanAbandon, PlanRelease, PlanBegin, PlanSetPolicy, PlanClaim, PlanRecordCatchUp, PlanPromote, PlanRetire;
    if c.Rollback? {
      EndingsRetireNone(name, history, h, c.v, c.at, "");
    } else if c.Abandon? {
      EndingsRetireNone(name, history, h, c.v, ZERO_TIME, c.cause);
    } else if c.Release? {
      EndingsRetireNone(name, history, h, 0, c.at, "");
    } else if c.Opens() {
      OpeningsRetireNone(name, history, c);
    } else if c.Claim? || c.RecordCatchUp? || c.Promote? {
      RunCommandsRetireNone(name, history, h, c);
    } else if c.Retire? {
      RetireRetiresNone(name, history, h, c);
    }
  }

  lemma PlanIsBacked(name: string, history: History, torn: seq<Destruction>, hid: nat, h: Handle, c: Command)
    requires Allowed(history, h, c) && TearsTruly(torn, hid, h)
    ensures AllBacked(torn, hid, PlanOf(name, history, h, c).events)
  {
    hide PlanOf, Removed;
    if c.CompleteRetire? {
      CompletionIsPlanned(name, history, h, c);
    } else {
      OthersRetireNone(name, history, h, c);
    }
  }

  lemma CompletionIsPlanned(name: string, history: History, h: Handle, c: Command)
    requires Allowed(history, h, c) && c.CompleteRetire?
    ensures PlanOf(name, history, h, c).events == [PreviousRetired(h.retire.previous, h.retire.receipts)]
    ensures h.retire.TornDown?
  {
  }

  // ---------------------------------------------------------------------------
  // Who has torn down
  // ---------------------------------------------------------------------------

  lemma RetireTearsNothing(name: string, history: History, h: Handle, c: Command, outcome: Outcome)
    requires c.Retire? && c.v <= |history| && h.retire.NoRetire?
    ensures !LeftBy(PlanRetire(name, history, h, c), outcome).retire.TornDown?
  {
    hide At, CheckOk, Rechecks, PlanReserve;
    RecheckTearsNothing(h.(view := c.v), At(history, c.v), c, outcome);
    ReserveTearsNothing(h.(view := c.v), At(history, c.v), c, outcome);
  }

  lemma RecheckTearsNothing(h: Handle, s: State, c: Command, outcome: Outcome)
    requires c.Retire? && h.retire.NoRetire?
    ensures !LeftBy(Rechecks(h, s.attempt.previous, s, c.answers), outcome).retire.TornDown?
  {
    hide Attest;
  }

  lemma ReserveTearsNothing(h: Handle, s: State, c: Command, outcome: Outcome)
    requires c.Retire? && h.retire.NoRetire?
    ensures !LeftBy(PlanReserve(h, s, c), outcome).retire.TornDown?
  {
    hide Attest, RetirementPolicy.Zero;
  }

  lemma ReattestTearsNothing(name: string, history: History, h: Handle, c: Command, outcome: Outcome)
    requires c.Reattest? && c.v <= |history| && h.retire.Reserved?
    ensures !LeftBy(PlanReattest(name, history, h, c.v, c.answers), outcome).retire.TornDown?
  {
    hide At, CheckOk, Attest;
  }

  lemma AskingTearsNothing(name: string, history: History, h: Handle, c: Command, outcome: Outcome)
    requires Asks(c) && Allowed(history, h, c)
    ensures !LeftBy(PlanOf(name, history, h, c), outcome).retire.TornDown?
  {
    hide At, CheckOk, PlanRetire, PlanReattest;
    if c.Retire? {
      RetireTearsNothing(name, history, h, c, outcome);
    } else {
      ReattestTearsNothing(name, history, h, c, outcome);
    }
  }

  lemma TeardownTears(name: string, history: History, h: Handle, c: Command, outcome: Outcome)
    requires Allowed(history, h, c) && c.Teardown?
    ensures var plan := PlanOf(name, history, h, c);
            && plan.tears == Some(h.retire.previous)
            && (LeftBy(plan, outcome).retire.TornDown? ==>
                  c.succeeds && LeftBy(plan, outcome).retire.previous == h.retire.previous)
  {
  }

  lemma RemovedStays(torn: seq<Destruction>, more: seq<Destruction>, author: nat, version: ID)
    requires Removed(torn, author, version)
    ensures Removed(torn + more, author, version)
  {
    var i :| 0 <= i < |torn| && torn[i].version == version && torn[i].author == author && torn[i].done;
    assert (torn + more)[i] == torn[i];
  }

  lemma NewlyRemoved(torn: seq<Destruction>, t: Destruction)
    requires t.done
    ensures Removed(torn + [t], t.author, t.version)
  {
    assert (torn + [t])[|torn|] == t;
  }

  lemma ActorTearsTruly(w: World, a: Action)
    requires CompletionInv(w) && Enabled(w, a) && a.Do?
    ensures TearsTruly(Step(w, a).torn, a.hid, Step(w, a).handles[a.hid])
  {
    hide PlanOf, Allowed, Removed, AllBacked, Backed;
    var v := Step(w, a);
    var c := a.command;
    var h := HandleFor(w, a.hid, c).value;
    var plan := PlanOf(w.name, w.history, h, c);
    var k := v.handles[a.hid];
    assert k == LeftBy(plan, a.outcome);
    if k.retire.TornDown? {
      if c.Teardown? {
        TeardownTears(w.name, w.history, h, c, a.outcome);
        NewlyRemoved(w.torn, Destruction(k.retire.previous, |w.history|, a.hid, true));
      } else if Asks(c) {
        AskingTearsNothing(w.name, w.history, h, c, a.outcome);
      } else {
        OthersKeepRetire(w.name, w.history, h, c, a.outcome);
        RemovedStays(w.torn, v.torn[|w.torn|..], a.hid, h.retire.previous);
        assert w.torn + v.torn[|w.torn|..] == v.torn;
      }
    }
  }

  // ---------------------------------------------------------------------------
  // Runs
  // ---------------------------------------------------------------------------

  lemma BackedStays(torn: seq<Destruction>, after: seq<Destruction>, author: nat, e: Event)
    requires Backed(torn, author, e) && torn <= after
    ensures Backed(after, author, e)
  {
    hide Removed;
    assert after == torn + after[|torn|..];
    if e.PreviousRetired? && e.retired.version != 0 {
      RemovedStays(torn, after[|torn|..], author, e.retired);
    }
  }

  lemma StepEntriesBacked(w: World, a: Action)
    requires CompletionInv(w) && Enabled(w, a)
    ensures var v := Step(w, a);
            && |v.history| == |v.marks|
            && (forall i :: 0 <= i < |v.history| ==> Backed(v.torn, v.marks[i].author, v.history[i]))
            && forall m :: m in v.inFlight ==> AllBacked(v.torn, m.author, m.events)
  {
    hide PlanOf, Allowed, Removed, Backed, TearsTruly;
    var v := Step(w, a);
    if a.Do? {
      var h := HandleFor(w, a.hid, a.command).value;
      assert TearsTruly(w.torn, a.hid, h) by { FreshTearsNothing(w, a.hid, a.command); }
      PlanIsBacked(w.name, w.history, w.torn, a.hid, h, a.command);
    }
    forall i | 0 <= i < |v.history| ensures Backed(v.torn, v.marks[i].author, v.history[i]) {
      BackedStays(w.torn, v.torn, v.marks[i].author, v.history[i]);
    }
    forall m | m in v.inFlight ensures AllBacked(v.torn, m.author, m.events) {
      forall e | e in m.events ensures Backed(v.torn, m.author, e) {
        BackedStays(w.torn, v.torn, m.author, e);
      }
    }
  }

  lemma FreshTearsNothing(w: World, hid: nat, c: Command)
    requires CompletionInv(w) && HandleFor(w, hid, c).Some?
    ensures TearsTruly(w.torn, hid, HandleFor(w, hid, c).value)
  {
    hide Removed, AllBacked, Backed;
  }

  lemma StepKeepsCompletions(w: World, a: Action)
    requires CompletionInv(w) && Enabled(w, a)
    ensures CompletionInv(Step(w, a))
  {
    hide PlanOf, Allowed, Removed, Backed, AllBacked;
    var v := Step(w, a);
    StepEntriesBacked(w, a);
    if a.Do? {
      ActorTearsTruly(w, a);
    }
    forall hid | hid in v.handles ensures TearsTruly(v.torn, hid, v.handles[hid]) {
      if !(a.Do? && hid == a.hid) && v.handles[hid].retire.TornDown? {
        assert TearsTruly(w.torn, hid, w.handles[hid]);
        RemovedStays(w.torn, v.torn[|w.torn|..], hid, v.handles[hid].retire.previous);
        assert w.torn + v.torn[|w.torn|..] == v.torn;
      }
    }
  }

  lemma {:induction false} RunsKeepCompletions(w: World, actions: seq<Action>)
    requires CompletionInv(w) && Runs(w, actions)
    ensures CompletionInv(Final(w, actions))
    decreases |actions|
  {
    hide CompletionInv, Step, Enabled;
    if actions == [] {
    } else {
      StepKeepsCompletions(w, actions[0]);
      RunsKeepCompletions(Step(w, actions[0]), actions[1..]);
    }
  }

  lemma StartsBacked(name: string)
    ensures CompletionInv(Init(name))
  {
  }

  /** In every run, late landings included, a recorded completion that names a version
      was issued by a handle whose own teardown of that version had succeeded. */
  lemma CompletionsFollowTeardown(name: string, actions: seq<Action>, i: nat)
    requires Runs(Init(name), actions) && i < |Final(Init(name), actions).history|
    requires var e := Final(Init(name), actions).history[i]; e.PreviousRetired? && e.retired.version != 0
    ensures var w := Final(Init(name), actions);
            |w.history| == |w.marks| && Removed(w.torn, w.marks[i].author, w.history[i].retired)
  {
    hide Final, Runs, Removed;
    StartsBacked(name);
    RunsKeepCompletions(Init(name), actions);
    var w := Final(Init(name), actions);
    assert Backed(w.torn, w.marks[i].author, w.history[i]);
  }
}
