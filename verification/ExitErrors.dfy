/** Which error a run reports when a processor's result, a cancellation and a local
    failure compete (projection/lifecycle/handle.go, projection/processor/processor.go):
    a cancellation may be collapsed, an independent failure may not be lost. */
module ExitErrors {
  import opened SaveOutcomes

  /** The nodes with nothing beneath them; a nil cause counts as one. */
  ghost function Leaves(e: Error): set<Error> {
    match e
    case Join(children) =>
      if children == [] then {e} else set i, l | 0 <= i < |children| && l in Leaves(children[i]) :: l
    case Wrap(_, child) => if child.Nil? then {e} else Leaves(child)
    case Marked(_, cause) => if cause.Nil? then {e} else Leaves(cause)
    case _ => {e}
  }

  /** A node with causes matches when all of them do, one without when it is a target. */
  function LeavesMatch(e: Error, targets: set<Error>): bool {
    match e
    case Nil => false
    case Join(children) =>
      if children == [] then e in targets
      else forall i :: 0 <= i < |children| ==> LeavesMatch(children[i], targets)
    case Wrap(_, child) => if child.Nil? then e in targets else LeavesMatch(child, targets)
    case Marked(_, cause) => if cause.Nil? then e in targets else LeavesMatch(cause, targets)
    case _ => e in targets
  }

  /** It matches exactly when every leaf of the tree does, and none is nil. */
  lemma {:induction false} LeavesMatchIsEveryLeaf(e: Error, targets: set<Error>)
    requires Nil !in targets
    ensures LeavesMatch(e, targets) <==> Leaves(e) <= targets
  {
    match e
    case Join(children) =>
      forall i | 0 <= i < |children| ensures LeavesMatch(children[i], targets) <==> Leaves(children[i]) <= targets {
        LeavesMatchIsEveryLeaf(children[i], targets);
      }
      if children != [] {
        assert forall i :: 0 <= i < |children| ==> Leaves(children[i]) <= Leaves(e);
      }
    case Wrap(_, child) => LeavesMatchIsEveryLeaf(child, targets);
    case Marked(_, cause) => LeavesMatchIsEveryLeaf(cause, targets);
    case _ =>
  }

  lemma LeavesOfJoined(a: Error, b: Error)
    ensures Leaves(Join([a, b])) == Leaves(a) + Leaves(b)
  {
    var j := Join([a, b]);
    assert j.children[0] == a && j.children[1] == b;
    assert forall l :: l in Leaves(j) <==> exists i :: 0 <= i < 2 && l in Leaves(j.children[i]);
  }

  /** errors.Join drops nil errors. */
  function Joined(a: Error, b: Error): Error {
    if a.Nil? && b.Nil? then Nil else if a.Nil? then Join([b]) else if b.Nil? then Join([a]) else Join([a, b])
  }

  lemma JoinedKeepsLeaves(a: Error, b: Error)
    requires !a.Nil? && !b.Nil?
    ensures Leaves(Joined(a, b)) == Leaves(a) + Leaves(b)
  {
    LeavesOfJoined(a, b);
  }

  /** Whether a leaf is somewhere in the tree: what errors.Is finds of one. */
  predicate Mentions(e: Error, target: Error) {
    match e
    case Join(children) =>
      if children == [] then e == target else exists i :: 0 <= i < |children| && Mentions(children[i], target)
    case Wrap(_, child) => if child.Nil? then e == target else Mentions(child, target)
    case Marked(_, cause) => if cause.Nil? then e == target else Mentions(cause, target)
    case _ => e == target
  }

  lemma {:induction false} MentionsIsALeaf(e: Error, target: Error)
    ensures Mentions(e, target) <==> target in Leaves(e)
  {
    match e
    case Join(children) =>
      forall i | 0 <= i < |children| ensures Mentions(children[i], target) <==> target in Leaves(children[i]) {
        MentionsIsALeaf(children[i], target);
      }
    case Wrap(_, child) => MentionsIsALeaf(child, target);
    case Marked(_, cause) => MentionsIsALeaf(cause, target);
    case _ =>
  }

  /** A wind-down's report. */
  function AttributeExit(ctxErr: Error, returnedFirst: bool, exitErr: Error, local: Error): Error {
    if !returnedFirst || exitErr.Nil? then local
    else if !ctxErr.Nil? && LeavesMatch(exitErr, {ctxErr}) then ctxErr
    else if local.Nil? then exitErr
    else Joined(exitErr, local)
  }

  /** A result that returned first is reported whole unless it is nothing but the
      run's own cancellation; then that is reported alone, and otherwise the local
      failure is reported whole too. One that did not return first is only the
      stop's echo and is dropped. */
  lemma AttributionLosesNoFailure(ctxErr: Error, returnedFirst: bool, exitErr: Error, local: Error)
    ensures var r := AttributeExit(ctxErr, returnedFirst, exitErr, local);
            var cancelled := returnedFirst && !exitErr.Nil? && !ctxErr.Nil? && Leaves(exitErr) <= {ctxErr};
            && (cancelled ==> r == ctxErr)
            && (!cancelled && returnedFirst && !exitErr.Nil? ==> Leaves(exitErr) <= Leaves(r))
            && (!cancelled && !local.Nil? ==> Leaves(local) <= Leaves(r))
            && (!returnedFirst || exitErr.Nil? ==> r == local)
            && (!cancelled && returnedFirst && local.Nil? ==> r == exitErr)
            && (!cancelled && returnedFirst && !exitErr.Nil? && !local.Nil? ==> Leaves(r) == Leaves(exitErr) + Leaves(local))
  {
    if !ctxErr.Nil? {
      LeavesMatchIsEveryLeaf(exitErr, {ctxErr});
    }
    if !exitErr.Nil? && !local.Nil? {
      JoinedKeepsLeaves(exitErr, local);
    }
  }

  const END_OF_STREAM := Leaf("end of event stream")

  /** A report once the context has ended, given what may be dropped beside it. */
  function JoinCancellation(ctxErr: Error, err: Error, benign: set<Error>): Error {
    if err.Nil? || LeavesMatch(err, benign) then ctxErr
    else if Mentions(err, ctxErr) then err
    else Joined(ctxErr, err)
  }

  /** The cancellation is always reported, alone exactly when nothing else failed;
      every leaf of an error with an independent failure in it is kept. */
  lemma CancellationLosesNoFailure(ctxErr: Error, err: Error, benign: set<Error>)
    requires ctxErr.Leaf? && Nil !in benign
    ensures var r := JoinCancellation(ctxErr, err, benign);
            && !r.Nil? && ctxErr in Leaves(r)
            && (err.Nil? || Leaves(err) <= benign ==> r == ctxErr)
            && (!err.Nil? && !(Leaves(err) <= benign) ==> Leaves(r) == Leaves(err) + {ctxErr})
  {
    LeavesMatchIsEveryLeaf(err, benign);
    MentionsIsALeaf(err, ctxErr);
    if !err.Nil? {
      JoinedKeepsLeaves(ctxErr, err);
    }
  }

  // ---------------------------------------------------------------------------
  // A worker's drain
  // ---------------------------------------------------------------------------

  /** What a read that cannot be opened reports. */
  function OpenReport(err: Error, canceled: bool, ctxErr: Error): Error {
    if !canceled then Wrap("reading events", err)
    else if LeavesMatch(err, {ctxErr}) then ctxErr
    else Joined(ctxErr, Wrap("reading events", err))
  }

  lemma OpeningLosesNoFailure(err: Error, canceled: bool, ctxErr: Error)
    requires ctxErr.Leaf? && !err.Nil?
    ensures var r := OpenReport(err, canceled, ctxErr);
            && !r.Nil? && Failures(r, ctxErr) == Failures(err, ctxErr)
            && (canceled ==> ctxErr in Leaves(r))
            && (canceled && Leaves(err) <= {ctxErr} ==> r == ctxErr)
  {
    LeavesMatchIsEveryLeaf(err, {ctxErr});
    WrappedLeaves("reading events", err);
    JoinedLeaves(ctxErr, Wrap("reading events", err));
  }

  /** What a failed request reports: nothing at a clean end, the bare cancellation
      when there is nothing else to it, and the failure otherwise. */
  function ReadReport(err: Error, canceled: bool, ctxErr: Error): Error {
    if canceled then
      if err.Nil? || LeavesMatch(err, {END_OF_STREAM, ctxErr}) then ctxErr else Joined(ctxErr, Wrap("reading event", err))
    else if LeavesMatch(err, {END_OF_STREAM}) then Nil
    else Wrap("reading event", err)
  }

  /** What a drain reports without delivering: its read, the cancellation, the close. */
  function CloseReport(readErr: Error, closeErr: Error, canceled: bool, ctxErr: Error): Error {
    var read := if canceled then JoinCancellation(ctxErr, readErr, {ctxErr}) else readErr;
    if closeErr.Nil? then read else Joined(read, Wrap("closing event iterator", closeErr))
  }

  /** The leaves of an error that tell of a failure. */
  ghost function Failures(e: Error, ctxErr: Error): set<Error> {
    (if e.Nil? then {} else Leaves(e)) - {END_OF_STREAM, ctxErr}
  }

  lemma WrappedLeaves(message: string, e: Error)
    requires !e.Nil?
    ensures Leaves(Wrap(message, e)) == Leaves(e)
  {
  }

  lemma JoinedLeaves(a: Error, b: Error)
    requires !b.Nil?
    ensures !Joined(a, b).Nil? && Leaves(Joined(a, b)) == (if a.Nil? then {} else Leaves(a)) + Leaves(b)
  {
    if a.Nil? {
      var j := Join([b]);
      assert j.children[0] == b;
      assert forall l :: l in Leaves(j) <==> exists i :: 0 <= i < 1 && l in Leaves(j.children[i]);
    } else {
      LeavesOfJoined(a, b);
    }
  }

  /** A request's failure is never lost: it is reported with the cancellation that
      raced it, and nothing is reported exactly when the stream merely ended. */
  lemma ReadsLoseNoFailure(err: Error, canceled: bool, ctxErr: Error)
    requires ctxErr.Leaf? && !err.Nil?
    ensures var r := ReadReport(err, canceled, ctxErr);
            && Failures(r, ctxErr) == Failures(err, ctxErr)
            && (r.Nil? <==> !canceled && Leaves(err) <= {END_OF_STREAM})
            && (canceled ==> ctxErr in Leaves(r))
  {
    LeavesMatchIsEveryLeaf(err, {END_OF_STREAM, ctxErr});
    LeavesMatchIsEveryLeaf(err, {END_OF_STREAM});
    WrappedLeaves("reading event", err);
    JoinedLeaves(ctxErr, Wrap("reading event", err));
  }

  /** Neither is a failure of the read or of the close, whichever race with each
      other and with a cancellation; nothing is reported exactly when there is
      nothing to report. */
  lemma ClosingLosesNoFailure(readErr: Error, closeErr: Error, canceled: bool, ctxErr: Error)
    requires ctxErr.Leaf?
    ensures var r := CloseReport(readErr, closeErr, canceled, ctxErr);
            && Failures(r, ctxErr) == Failures(readErr, ctxErr) + Failures(closeErr, ctxErr)
            && (r.Nil? <==> readErr.Nil? && closeErr.Nil? && !canceled)
            && (canceled ==> ctxErr in Leaves(r))
  {
    assert Leaves(ctxErr) == {ctxErr};
    hide JoinCancellation, Joined, Leaves;
    var read := if canceled then JoinCancellation(ctxErr, readErr, {ctxErr}) else readErr;
    CancellationLosesNoFailure(ctxErr, readErr, {ctxErr});
    assert Failures(read, ctxErr) == Failures(readErr, ctxErr);
    assert canceled ==> ctxErr in Leaves(read);
    if !closeErr.Nil? {
      WrappedLeaves("closing event iterator", closeErr);
      JoinedFailures(read, Wrap("closing event iterator", closeErr), ctxErr);
    }
  }

  lemma JoinedFailures(a: Error, b: Error, ctxErr: Error)
    requires !b.Nil?
    ensures !Joined(a, b).Nil? && Failures(Joined(a, b), ctxErr) == Failures(a, ctxErr) + Failures(b, ctxErr)
    ensures !a.Nil? && ctxErr in Leaves(a) ==> ctxErr in Leaves(Joined(a, b))
  {
    hide Joined, Leaves;
    JoinedLeaves(a, b);
  }
}
