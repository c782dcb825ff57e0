/** When a promotion can still be recorded after its processor's exit: exactly when
    the handle has one in flight at the head of the stream. */
module LateLandings {
  import opened Base
  import opened CleanHistories
  import opened Protocol
  import opened PromotionSafety

  // ---------------------------------------------------------------------------
  // What is in flight
  // ---------------------------------------------------------------------------

  predicate CarriesPromotion(m: Message, hid: nat) {
    m.author == hid && exists e :: e in m.events && e.Promoted?
  }

  /** The handle has a promotion in flight that the stream's head would admit. */
  predicate PromotesAtHead(w: World, hid: nat) {
    exists i :: 0 <= i < |w.inFlight| && InFlightAtHead(w, i, hid)
  }

  predicate InFlightAtHead(w: World, i: nat, hid: nat)
    requires i < |w.inFlight|
  {
    w.inFlight[i].expected == |w.history| && CarriesPromotion(w.inFlight[i], hid)
  }

  /** The handle issues no promotion of its own. */
  predicate Withholds(hid: nat, actions: seq<Action>) {
    forall i :: 0 <= i < |actions| ==> !Promotes(hid, actions[i])
  }

  predicate Promotes(hid: nat, a: Action) {
    a.Do? && a.hid == hid && a.command.Promote?
  }

  /** A promotion of this handle at or past a length of the stream. */
  ghost predicate RecordsPast(w: World, length: nat, hid: nat) {
    exists i: nat :: length <= i && PromotionBy(w, i, hid)
  }

  ghost predicate LandsAfterExit(w: World, length: nat, hid: nat) {
    exists i: nat :: length <= i && PromotionBy(w, i, hid) && AfterExit(w, i)
  }

  predicate AfterExit(w: World, i: nat) {
    i < |w.marks| && w.marks[i].late && w.marks[i].exited
  }

  // ---------------------------------------------------------------------------
  // Nothing at the head, nothing recorded
  // ---------------------------------------------------------------------------

  /** Since the stream had this length the handle recorded no promotion, and none it
      has in flight can still be admitted. */
  ghost predicate Barren(w: World, length: nat, hid: nat) {
    && length <= |w.history| == |w.marks|
    && !RecordsPast(w, length, hid)
    && forall m :: m in w.inFlight && CarriesPromotion(m, hid) ==> m.expected < length
  }

  lemma FinishedSendsNone(w: World, hid: nat, c: Command)
    requires Inv(w) && hid in w.handles && w.handles[hid].Finished()
    requires HandleFor(w, hid, c) == Some(w.handles[hid]) && Allowed(w.history, w.handles[hid], c)
    ensures forall e :: e in PlanOf(w.name, w.history, w.handles[hid], c).events ==> !e.Promoted?
  {
    hide PlanOf, At, CheckOk, EntryOk, MessageOk, CaughtUpBy, CertifiedAt;
    assert HandleOk(w.history, w.marks, hid, w.handles[hid]);
    PromotionsAreSentByPromote(w, hid, w.handles[hid], c);
  }

  /** Neither a finished handle nor one that withholds sends a promotion. */
  lemma SendsNone(w: World, a: Action, hid: nat)
    requires Inv(w) && Enabled(w, a) && a.Do? && a.hid == hid && hid in w.handles
    requires w.handles[hid].Finished() || !Promotes(hid, a)
    ensures var plan := PlanOf(w.name, w.history, HandleFor(w, hid, a.command).value, a.command);
            forall e :: e in plan.events ==> !e.Promoted?
  {
    hide PlanOf, Inv;
    if a.command.Promote? {
      FinishedSendsNone(w, hid, a.command);
    } else {
      PromotionsAreSentByPromote(w, hid, w.handles[hid], a.command);
    }
  }

  lemma StepStaysBarren(w: World, a: Action, length: nat, hid: nat)
    requires Inv(w) && Enabled(w, a) && hid in w.handles && Barren(w, length, hid)
    requires w.handles[hid].Finished() || !Promotes(hid, a)
    ensures Barren(Step(w, a), length, hid)
  {
    hide PlanOf, Allowed, Inv;
    var v := Step(w, a);
    if a.Do? && a.hid == hid {
      SendsNone(w, a, hid);
    }
    forall i: nat | length <= i ensures !PromotionBy(v, i, hid) {
      assert !PromotionBy(w, i, hid);
      if |w.history| <= i < |v.history| && v.marks[i].author == hid {
        if a.Do? {
          var plan := PlanOf(w.name, w.history, HandleFor(w, a.hid, a.command).value, a.command);
          assert v.history[i] == plan.events[i - |w.history|];
        } else {
          assert v.history[i] in w.inFlight[a.index].events;
        }
      }
    }
  }

  lemma {:induction false} RunsStayBarren(w: World, actions: seq<Action>, length: nat, hid: nat)
    requires Inv(w) && Runs(w, actions) && hid in w.handles && Barren(w, length, hid)
    requires w.handles[hid].Finished() || Withholds(hid, actions)
    ensures !RecordsPast(Final(w, actions), length, hid)
    decreases |actions|
  {
    hide Inv, Step, Enabled, Barren, RecordsPast;
    if actions == [] {
      assert !RecordsPast(w, length, hid) by { BarrenRecordsNone(w, length, hid); }
    } else {
      assert !Withholds(hid, actions) || !Promotes(hid, actions[0]);
      StepStaysBarren(w, actions[0], length, hid);
      StepKeepsInv(w, actions[0]);
      RunsStayBarren(Step(w, actions[0]), actions[1..], length, hid);
    }
  }

  lemma BarrenRecordsNone(w: World, length: nat, hid: nat)
    requires Barren(w, length, hid)
    ensures !RecordsPast(w, length, hid)
  {
  }

  lemma NothingAtHeadIsBarren(w: World, hid: nat)
    requires Inv(w) && !PromotesAtHead(w, hid)
    ensures Barren(w, |w.history|, hid)
  {
    hide HandleOk, EntryOk, EventOk;
    forall m | m in w.inFlight && CarriesPromotion(m, hid) ensures m.expected < |w.history| {
      assert MessageOk(w, m);
      var i :| 0 <= i < |w.inFlight| && w.inFlight[i] == m;
      assert !InFlightAtHead(w, i, hid);
    }
  }

  // ---------------------------------------------------------------------------
  // One at the head can land
  // ---------------------------------------------------------------------------

  /** A promotion in flight is alone in its append. */
  lemma InFlightPromotionIsAlone(w: World, m: Message, hid: nat)
    requires Inv(w) && m in w.inFlight && CarriesPromotion(m, hid)
    ensures |m.events| == 1 && m.events[0].Promoted?
  {
    hide HandleOk, EntryOk, EventOk;
    assert MessageOk(w, m);
  }

  lemma LandingRecords(w: World, i: nat, hid: nat)
    requires Inv(w) && i < |w.inFlight| && InFlightAtHead(w, i, hid)
    ensures Enabled(w, Land(i)) && PromotionBy(Step(w, Land(i)), |w.history|, hid)
    ensures hid in w.handles && w.handles[hid].Finished() ==> AfterExit(Step(w, Land(i)), |w.history|)
  {
    hide HandleOk, EntryOk, MessageOk;
    InFlightPromotionIsAlone(w, w.inFlight[i], hid);
  }

  lemma OneStep(w: World, a: Action)
    requires Enabled(w, a)
    ensures Runs(w, [a]) && Final(w, [a]) == Step(w, a)
  {
    hide Enabled, Step;
    assert [a][1..] == [];
  }

  lemma FirstStep(w: World, a: Action, rest: seq<Action>)
    requires Enabled(w, a) && Runs(Step(w, a), rest)
    ensures Runs(w, [a] + rest) && Final(w, [a] + rest) == Final(Step(w, a), rest)
  {
    hide Enabled, Step;
    assert ([a] + rest)[1..] == rest;
  }

  /** The handle gives up a retirement that holds its lock. */
  lemma Unlocking(w: World, hid: nat)
    requires hid in w.handles && w.handles[hid].view <= |w.history| && !w.handles[hid].retire.NoRetire?
    ensures var a := Do(hid, AbortRetire, Failed);
            && Enabled(w, a)
            && Step(w, a) == w.(handles := w.handles[hid := w.handles[hid].(retire := NoRetire)])
  {
    hide At, CheckOk;
    assert w.history + [] == w.history && w.marks + [] == w.marks;
  }

  lemma Exiting(w: World, hid: nat)
    requires hid in w.handles && w.handles[hid].view <= |w.history| && w.handles[hid].retire.NoRetire?
    requires w.handles[hid].stage.Running?
    ensures var a := Do(hid, PublishExit, Failed);
            && Enabled(w, a)
            && Step(w, a) == w.(handles := w.handles[hid := w.handles[hid].(stage := Exited, certificate := None)])
  {
    hide At, CheckOk;
    assert w.history + [] == w.history && w.marks + [] == w.marks;
  }

  lemma LandingWhenFinished(w: World, i: nat, hid: nat) returns (more: seq<Action>)
    requires Inv(w) && i < |w.inFlight| && InFlightAtHead(w, i, hid) && hid in w.handles && w.handles[hid].Finished()
    ensures Runs(w, more) && Withholds(hid, more)
    ensures RecordsPast(Final(w, more), |w.history|, hid) && LandsAfterExit(Final(w, more), |w.history|, hid)
  {
    hide Inv, Enabled, Step;
    more := [Land(i)];
    LandingRecords(w, i, hid);
    OneStep(w, Land(i));
  }

  lemma LandingAfterExit(w: World, i: nat, hid: nat) returns (more: seq<Action>)
    requires Inv(w) && i < |w.inFlight| && InFlightAtHead(w, i, hid)
    requires hid in w.handles && w.handles[hid].stage.Running? && w.handles[hid].retire.NoRetire?
    ensures Runs(w, more) && Withholds(hid, more) && LandsAfterExit(Final(w, more), |w.history|, hid)
  {
    hide Inv, Enabled, Step, LandsAfterExit;
    var a := Do(hid, PublishExit, Failed);
    HandleViewOk(w, hid);
    Exiting(w, hid);
    StepKeepsInv(w, a);
    assert InFlightAtHead(Step(w, a), i, hid);
    var rest := LandingWhenFinished(Step(w, a), i, hid);
    FirstStep(w, a, rest);
    more := [a] + rest;
  }

  lemma HandleViewOk(w: World, hid: nat)
    requires Inv(w) && hid in w.handles
    ensures w.handles[hid].view <= |w.history|
  {
    hide EntryOk, MessageOk, CaughtUpBy, CertifiedAt;
    assert HandleOk(w.history, w.marks, hid, w.handles[hid]);
  }

  lemma LandingIsReached(w: World, i: nat, hid: nat) returns (more: seq<Action>)
    requires Inv(w) && i < |w.inFlight| && InFlightAtHead(w, i, hid)
    requires hid in w.handles && (w.handles[hid].stage.Running? || w.handles[hid].Finished())
    ensures Runs(w, more) && Withholds(hid, more) && LandsAfterExit(Final(w, more), |w.history|, hid)
  {
    hide Inv, Enabled, Step, LandsAfterExit;
    if w.handles[hid].Finished() {
      more := LandingWhenFinished(w, i, hid);
    } else if w.handles[hid].retire.NoRetire? {
      more := LandingAfterExit(w, i, hid);
    } else {
      var a := Do(hid, AbortRetire, Failed);
      HandleViewOk(w, hid);
      Unlocking(w, hid);
      StepKeepsInv(w, a);
      assert InFlightAtHead(Step(w, a), i, hid);
      var rest := LandingAfterExit(Step(w, a), i, hid);
      FirstStep(w, a, rest);
      more := [a] + rest;
    }
  }

  // ---------------------------------------------------------------------------
  // The results
  // ---------------------------------------------------------------------------

  /** From every reachable world, some continuation records a promotion of a handle
      whose processor's exit is published if and only if the handle has one in
      flight at the head. */
  lemma FinishedRunsPromoteExactlyInFlight(name: string, actions: seq<Action>, hid: nat)
    requires Runs(Init(name), actions) && hid in Final(Init(name), actions).handles
    requires Final(Init(name), actions).handles[hid].Finished()
    ensures var w := Final(Init(name), actions);
            (exists more :: Runs(w, more) && RecordsPast(Final(w, more), |w.history|, hid)) <==> PromotesAtHead(w, hid)
  {
    hide Inv, Final, Runs, RecordsPast, InFlightAtHead;
    InitOk(name);
    RunsKeepInv(Init(name), actions);
    var w := Final(Init(name), actions);
    if PromotesAtHead(w, hid) {
      var i :| 0 <= i < |w.inFlight| && InFlightAtHead(w, i, hid);
      var more := LandingWhenFinished(w, i, hid);
    } else {
      NothingAtHeadIsBarren(w, hid);
      forall more | Runs(w, more) ensures !RecordsPast(Final(w, more), |w.history|, hid) {
        RunsStayBarren(w, more, |w.history|, hid);
      }
    }
  }

  /** From every reachable world, a handle whose processor runs or has exited can
      see a promotion recorded after its exit is published, without promoting again,
      if and only if it has one in flight at the head. */
  lemma PromotionsLandLateExactlyInFlight(name: string, actions: seq<Action>, hid: nat)
    requires Runs(Init(name), actions) && hid in Final(Init(name), actions).handles
    requires var h := Final(Init(name), actions).handles[hid]; h.stage.Running? || h.Finished()
    ensures var w := Final(Init(name), actions);
            (exists more :: Runs(w, more) && Withholds(hid, more) && LandsAfterExit(Final(w, more), |w.history|, hid))
            <==> PromotesAtHead(w, hid)
  {
    hide Inv, Final, Runs, RecordsPast, LandsAfterExit, InFlightAtHead, Withholds;
    InitOk(name);
    RunsKeepInv(Init(name), actions);
    var w := Final(Init(name), actions);
    if PromotesAtHead(w, hid) {
      var i :| 0 <= i < |w.inFlight| && InFlightAtHead(w, i, hid);
      var more := LandingIsReached(w, i, hid);
    } else {
      NothingAtHeadIsBarren(w, hid);
      forall more | Runs(w, more) && Withholds(hid, more) ensures !LandsAfterExit(Final(w, more), |w.history|, hid) {
        RunsStayBarren(w, more, |w.history|, hid);
        LandingIsRecording(Final(w, more), |w.history|, hid);
      }
    }
  }

  lemma LandingIsRecording(w: World, length: nat, hid: nat)
    ensures LandsAfterExit(w, length, hid) ==> RecordsPast(w, length, hid)
  {
  }
}
