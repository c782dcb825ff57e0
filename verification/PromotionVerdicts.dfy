/** A promotion whose outcome is open is judged at the exact slot it contends for,
    and the verdict is truthful: the fold there validates and shows the attempt
    promoted if and only if the slot holds this very run's promotion. */
module PromotionVerdicts {
  import opened Base
  import opened LifecycleState
  import opened LifecycleEvents
  import opened CleanHistories
  import opened Protocol
  import opened PromotionSafety

  // ---------------------------------------------------------------------------
  // Recorded promotions validate
  // ---------------------------------------------------------------------------

  /** The fold right after a recorded promotion validates. */
  predicate Validates(name: string, history: History, i: nat)
    requires i < |history|
  {
    history[i].Promoted? ==> CheckOk(name, history, i + 1)
  }

  /** So would the fold right after an append, were it recorded at its base. */
  predicate WouldValidate(name: string, history: History, base: nat, events: History) {
    && base <= |history|
    && ((exists e :: e in events && e.Promoted?) ==>
          |events| == 1 && CheckOk(name, history[..base] + events, base + 1))
  }

  ghost predicate ValidInv(w: World) {
    && (forall i :: 0 <= i < |w.history| ==> Validates(w.name, w.history, i))
    && forall m :: m in w.inFlight ==> WouldValidate(w.name, w.history, m.expected, m.events)
  }

  /** A promotion is sent only on a valid caught-up view, and keeps it valid. */
  lemma PromotionValidates(name: string, history: History, h: Handle, at: Time)
    requires h.view <= |history|
    ensures var plan := PlanPromote(name, history, h, at);
            plan.events != [] ==> plan.base == h.view && WouldValidate(name, history, h.view, plan.events)
  {
    hide FoldFrom, RestReachable, ValidName;
    var plan := PlanPromote(name, history, h, at);
    if plan.events != [] {
      FoldExtend(NEW_STATE, history[..h.view], plan.events[0]);
      assert history[..h.view] + [plan.events[0]] == history[..h.view] + plan.events;
      assert (history[..h.view] + plan.events)[..h.view + 1] == history[..h.view] + plan.events;
    }
  }

  lemma PlanValidates(w: World, hid: nat, h: Handle, c: Command)
    requires HandleFor(w, hid, c) == Some(h) && Allowed(w.history, h, c) && Inv(w)
    ensures var plan := PlanOf(w.name, w.history, h, c);
            plan.events != [] ==> WouldValidate(w.name, w.history, plan.base, plan.events)
  {
    hide HandleOk, EntryOk, MessageOk, At, CheckOk, PlanPromote, AckedOk, EventOk, CertifiedAt, PlanOf, WouldValidate;
    PlanOk(w, hid, h, c);
    PromotionsAreSentByPromote(w, hid, h, c);
    if c.Promote? {
      PromotionValidates(w.name, w.history, h, c.at);
    } else {
      NoPromotionValidates(w.name, w.history, PlanOf(w.name, w.history, h, c));
    }
  }

  lemma NoPromotionValidates(name: string, history: History, plan: Plan)
    requires plan.base <= |history| && forall e :: e in plan.events ==> !e.Promoted?
    ensures WouldValidate(name, history, plan.base, plan.events)
  {
  }

  lemma WouldValidateStays(name: string, history: History, more: History, base: nat, events: History)
    requires WouldValidate(name, history, base, events)
    ensures WouldValidate(name, history + more, base, events)
  {
    assert (history + more)[..base] == history[..base];
  }

  lemma ValidStays(name: string, history: History, events: History)
    requires forall i :: 0 <= i < |history| ==> Validates(name, history, i)
    requires WouldValidate(name, history, |history|, events)
    ensures forall i :: 0 <= i < |history + events| ==> Validates(name, history + events, i)
  {
    hide FoldFrom, Valid;
    assert history[..|history|] == history;
    forall i | 0 <= i < |history + events| ensures Validates(name, history + events, i) {
      if i < |history| {
        assert Validates(name, history, i);
        assert (history + events)[..i + 1] == history[..i + 1];
      } else {
        assert (history + events)[i] == events[i - |history|];
      }
    }
  }

  lemma StepKeepsValidInv(w: World, a: Action)
    requires Inv(w) && ValidInv(w) && Enabled(w, a)
    ensures ValidInv(Step(w, a))
  {
    hide PlanOf, Allowed, Inv, Validates, WouldValidate;
    var v := Step(w, a);
    if a.Do? {
      var h := HandleFor(w, a.hid, a.command).value;
      var plan := PlanOf(w.name, w.history, h, a.command);
      PlanValidates(w, a.hid, h, a.command);
      if a.outcome.Commits() && plan.events != [] {
        ValidStays(w.name, w.history, plan.events);
      } else {
        assert w.history + [] == w.history;
      }
    } else {
      ValidStays(w.name, w.history, w.inFlight[a.index].events);
    }
    var more := v.history[|w.history|..];
    assert v.history == w.history + more;
    forall m | m in v.inFlight ensures WouldValidate(v.name, v.history, m.expected, m.events) {
      WouldValidateStays(w.name, w.history, more, m.expected, m.events);
    }
  }

  lemma {:induction false} RunsKeepValidInv(w: World, actions: seq<Action>)
    requires Inv(w) && ValidInv(w) && Runs(w, actions)
    ensures ValidInv(Final(w, actions))
    decreases |actions|
  {
    hide Inv, ValidInv, Step, Enabled;
    if actions == [] {
    } else {
      StepKeepsInv(w, actions[0]);
      StepKeepsValidInv(w, actions[0]);
      RunsKeepValidInv(Step(w, actions[0]), actions[1..]);
    }
  }

  // ---------------------------------------------------------------------------
  // The verdict
  // ---------------------------------------------------------------------------

  /** The slot a handle's promotion contends for holds its own promotion. */
  predicate OwnPromotion(w: World, hid: nat)
    requires hid in w.handles
  {
    var slot := w.handles[hid].promoteSlot;
    0 < slot <= |w.history| && PromotionBy(w, slot - 1, hid)
  }

  /** A promotion whose outcome is open is judged durable if and only if the slot
      it contends for holds this very run's promotion; no later growth of the
      stream changes the answer; and the judgement then stops nothing. */
  lemma SlotVerdictIsFinal(name: string, actions: seq<Action>, more: seq<Action>, hid: nat)
    requires Runs(Init(name), actions) && Runs(Final(Init(name), actions), more)
    requires hid in Final(Init(name), actions).handles
    ensures var w := Final(Init(name), actions);
            var v := Final(w, more);
            var h := w.handles[hid];
            && w.history <= v.history
            && (0 < h.promoteSlot <= |w.history| ==>
                  && (JudgedPromoted(name, w.history, h.promoteSlot, h.runAttempt) <==> OwnPromotion(w, hid))
                  && (JudgedPromoted(name, v.history, h.promoteSlot, h.runAttempt) <==> OwnPromotion(w, hid))
                  && (OwnPromotion(w, hid) ==>
                        PlanJudgePromotion(name, w.history, h).acked == h.(certificate := None)))
  {
    hide Inv, HandleOk, ValidInv, CheckOk, SlotDefeat, At;
    var w := Final(Init(name), actions);
    var v := Final(w, more);
    InitOk(name);
    InitValid(name);
    RunsKeepInv(Init(name), actions);
    RunsKeepValidInv(Init(name), actions);
    NameStays(Init(name), actions);
    StreamGrows(w, more);
    var h := w.handles[hid];
    InvSizes(w);
    if 0 < h.promoteSlot <= |w.history| {
      SlotVerdict(w, hid);
      SamePrefixSameVerdict(name, w.history, v.history, h.promoteSlot, h.runAttempt);
    }
  }

  lemma InitValid(name: string)
    ensures ValidInv(Init(name))
  {
  }

  lemma {:induction false} NameStays(w: World, actions: seq<Action>)
    requires Runs(w, actions)
    ensures Final(w, actions).name == w.name
    decreases |actions|
  {
    hide PlanOf, Allowed;
    if actions == [] {
    } else {
      NameStays(Step(w, actions[0]), actions[1..]);
    }
  }

  lemma SamePrefixSameVerdict(name: string, history: History, longer: History, slot: nat, attempt: UUID)
    requires slot <= |history| && history <= longer
    ensures JudgedPromoted(name, longer, slot, attempt) <==> JudgedPromoted(name, history, slot, attempt)
  {
    hide FoldFrom, Valid;
    assert longer[..slot] == history[..slot];
  }

  lemma SlotVerdict(w: World, hid: nat)
    requires Inv(w) && ValidInv(w) && hid in w.handles && 0 < w.handles[hid].promoteSlot <= |w.history|
    ensures var h := w.handles[hid];
            JudgedPromoted(w.name, w.history, h.promoteSlot, h.runAttempt) <==> OwnPromotion(w, hid)
  {
    hide FoldFrom, Apply, MessageOk, CheckOk;
    var h := w.handles[hid];
    var i := h.promoteSlot - 1;
    assert HandleOk(w.history, w.marks, hid, h);
    assert EntryOk(w, i) && Validates(w.name, w.history, i);
    assert w.history[..i + 1] == w.history[..i] + [w.history[i]];
    FoldExtend(NEW_STATE, w.history[..i], w.history[i]);
    PromotedByPromotion(At(w.history, i), w.history[i]);
  }

  /** From a caught-up attempt only a promotion leads to the promoted phase. */
  lemma PromotedByPromotion(s: State, e: Event)
    requires s.attempt.phase.PhaseCaughtUp?
    ensures Apply(s, e).attempt.phase.PhasePromoted? <==> e.Promoted?
    ensures e.Promoted? ==> Apply(s, e).attempt.id == s.attempt.id
  {
  }
}
