/** The verdict a save error vouches for about its append
    (aggregatestore/aggregate_store.go): a level-order walk over the error tree,
    proved equal to its meaning over the whole tree, the unanimous marker of the
    shallowest marked depth. */
module SaveOutcomes {

  datatype AppendOutcome = Unknown | Appended | NothingAppended

  /** A node of an error tree, by what its Unwrap method offers. */
  datatype Error =
    | Nil
    | EventsAppended
    | NoEventsAppended
    | Marked(appended: bool, cause: Error)
    | Leaf(message: string)
    | Wrap(message: string, child: Error)
    | Join(children: seq<Error>)

  function WithSaveOutcome(appended: bool, err: Error): Error {
    Marked(appended, err)
  }

  // ---------------------------------------------------------------------------
  // What an error means
  // ---------------------------------------------------------------------------

  function Below(e: Error): seq<Error> {
    match e
    case Marked(_, cause) => [cause]
    case Wrap(_, child) => [child]
    case Join(children) => children
    case _ => []
  }

  predicate IsMarker(e: Error) {
    e.EventsAppended? || e.NoEventsAppended? || e.Marked?
  }

  function Says(e: Error): AppendOutcome
    requires IsMarker(e)
  {
    if e.EventsAppended? || (e.Marked? && e.appended) then Appended else NothingAppended
  }

  /** The error has a marker that says this at a depth of its whole tree. */
  ghost predicate Votes(e: Error, depth: nat, o: AppendOutcome)
    decreases depth
  {
    if depth == 0 then IsMarker(e) && Says(e) == o
    else exists i :: 0 <= i < |Below(e)| && Votes(Below(e)[i], depth - 1, o)
  }

  ghost predicate MarkedAt(e: Error, depth: nat) {
    Votes(e, depth, Appended) || Votes(e, depth, NothingAppended)
  }

  ghost predicate Shallowest(e: Error, depth: nat) {
    MarkedAt(e, depth) && forall d: nat :: d < depth ==> !MarkedAt(e, d)
  }

  /** The one outcome the error vouches for: that of the shallowest markers when
      they agree, unknown when they do not or there are none. */
  ghost predicate Means(e: Error, o: AppendOutcome) {
    match o
    case Appended => exists d: nat :: Shallowest(e, d) && !Votes(e, d, NothingAppended)
    case NothingAppended => exists d: nat :: Shallowest(e, d) && !Votes(e, d, Appended)
    case Unknown => forall d: nat :: Shallowest(e, d) ==> Votes(e, d, Appended) && Votes(e, d, NothingAppended)
  }

  lemma ShallowestIsUnique(e: Error, a: nat, b: nat)
    requires Shallowest(e, a) && Shallowest(e, b)
    ensures a == b
  {
  }

  /** Every error means exactly one outcome. */
  lemma MeansOne(e: Error, o: AppendOutcome, p: AppendOutcome)
    requires Means(e, o) && Means(e, p)
    ensures o == p
  {
    hide Votes;
    forall a: nat, b: nat | Shallowest(e, a) && Shallowest(e, b) ensures a == b {
      ShallowestIsUnique(e, a, b);
    }
  }

  // ---------------------------------------------------------------------------
  // The walk
  // ---------------------------------------------------------------------------

  function Size(e: Error): (n: nat)
    ensures n >= 1
    decreases e, if e.Join? then |e.children| + 1 else 0
  {
    match e
    case Marked(_, cause) => 1 + Size(cause)
    case Wrap(_, child) => 1 + Size(child)
    case Join(children) => 1 + SizeOfChildren(e, |children|)
    case _ => 1
  }

  function SizeOfChildren(e: Error, n: nat): nat
    requires e.Join? && n <= |e.children|
    decreases e, n
  {
    if n == 0 then 0 else SizeOfChildren(e, n - 1) + Size(e.children[n - 1])
  }

  function TotalSize(level: seq<Error>): nat {
    if level == [] then 0 else TotalSize(level[..|level| - 1]) + Size(level[|level| - 1])
  }

  lemma {:induction false} TotalSizeOfConcat(a: seq<Error>, b: seq<Error>)
    ensures TotalSize(a + b) == TotalSize(a) + TotalSize(b)
  {
    if b == [] {
      assert a + b == a;
    } else {
      TotalSizeOfConcat(a, b[..|b| - 1]);
      assert (a + b)[..|a + b| - 1] == a + b[..|b| - 1];
    }
  }

  lemma {:induction false} ChildrenAreSmaller(e: Error, n: nat)
    requires e.Join? && n <= |e.children|
    ensures TotalSize(e.children[..n]) == SizeOfChildren(e, n)
  {
    if n == 0 {
    } else {
      ChildrenAreSmaller(e, n - 1);
      assert e.children[..n][..n - 1] == e.children[..n - 1];
    }
  }

  ghost predicate LevelVotes(level: seq<Error>, depth: nat, o: AppendOutcome) {
    exists i :: 0 <= i < |level| && Votes(level[i], depth, o)
  }

  /** The nodes the walk goes on to from a node that is no marker. */
  function Next(node: Error): seq<Error> {
    match node
    case Wrap(_, child) => if child.Nil? then [] else [child]
    case Join(children) => children
    case _ => []
  }

  lemma {:induction false} NilSaysNothing(depth: nat, o: AppendOutcome)
    ensures !Votes(Nil, depth, o)
  {
  }

  lemma NextHoldsTheVotes(node: Error, depth: nat, o: AppendOutcome)
    requires !IsMarker(node)
    ensures LevelVotes(Next(node), depth, o) <==> Votes(node, depth + 1, o)
  {
    NilSaysNothing(depth, o);
    assert Votes(node, depth + 1, o) <==> LevelVotes(Below(node), depth, o);
    assert Next(node) == Below(node) || (node.Wrap? && node.child.Nil?);
  }

  lemma NextIsSmaller(node: Error)
    ensures TotalSize(Next(node)) < Size(node)
  {
    match node
    case Join(children) =>
      ChildrenAreSmaller(node, |children|);
      assert children[..|children|] == children;
    case Wrap(_, child) =>
      assert [child][..0] == [];
    case _ =>
  }

  lemma LevelVotesOfConcat(a: seq<Error>, b: seq<Error>, depth: nat, o: AppendOutcome)
    ensures LevelVotes(a + b, depth, o) <==> LevelVotes(a, depth, o) || LevelVotes(b, depth, o)
  {
    forall i | 0 <= i < |a| && Votes(a[i], depth, o) ensures LevelVotes(a + b, depth, o) {
      assert (a + b)[i] == a[i];
    }
    forall i | 0 <= i < |b| && Votes(b[i], depth, o) ensures LevelVotes(a + b, depth, o) {
      assert (a + b)[|a| + i] == b[i];
    }
  }

  /** The level holds the error's tree at and below a depth, and no marker is above. */
  ghost predicate Holds(err: Error, level: seq<Error>, depth: nat) {
    && (forall d: nat :: d < depth ==> !MarkedAt(err, d))
    && (forall k: nat, o: AppendOutcome :: LevelVotes(level, k, o) <==> Votes(err, depth + k, o))
  }

  /** What one level's nodes have voted, and where they lead. */
  ghost predicate Counted(level: seq<Error>, next: seq<Error>, outcome: AppendOutcome, voted: bool, contradicted: bool) {
    && (voted ==> outcome.Appended? || outcome.NothingAppended?)
    && (contradicted ==> voted)
    && (LevelVotes(level, 0, Appended) <==> voted && (outcome.Appended? || contradicted))
    && (LevelVotes(level, 0, NothingAppended) <==> voted && (outcome.NothingAppended? || contradicted))
    && (!voted ==> forall k: nat, o: AppendOutcome :: LevelVotes(next, k, o) <==> LevelVotes(level, k + 1, o))
  }

  method SaveOutcome(err: Error) returns (r: AppendOutcome)
    ensures Means(err, r)
  {
    var level := [err];
    ghost var depth := 0;
    StartHolds(err);
    while |level| > 0
      invariant Holds(err, level, depth)
      decreases TotalSize(level)
    {
      hide Votes, Holds, Means, Counted, TotalSize, Size;
      var next: seq<Error> := [];
      var outcome, voted, contradicted := Unknown, false, false;
      StartCounted();
      for i := 0 to |level|
        invariant Counted(level[..i], next, outcome, voted, contradicted)
        invariant TotalSize(next) + i <= TotalSize(level[..i])
      {
        var node := level[i];
        assert level[..i + 1] == level[..i] + [node];
        CountNode(level[..i], next, outcome, voted, contradicted, node);
        NextFits(level[..i], next, node);
        if IsMarker(node) {
          if voted && outcome != Says(node) {
            contradicted := true;
          } else {
            outcome, voted := Says(node), true;
          }
        } else {
          next := next + Next(node);
        }
      }
      assert level[..|level|] == level;
      if contradicted {
        Verdict(err, level, depth, next, outcome, voted, contradicted);
        return Unknown;
      }
      if voted {
        Verdict(err, level, depth, next, outcome, voted, contradicted);
        return outcome;
      }
      GoDeeper(err, level, depth, next, outcome);
      level := next;
      depth := depth + 1;
    }
    NothingLeft(err, depth);
    return Unknown;
  }

  lemma StartHolds(err: Error)
    ensures Holds(err, [err], 0)
  {
    forall k: nat, o: AppendOutcome ensures LevelVotes([err], k, o) <==> Votes(err, k, o) {
      assert [err][0] == err;
    }
  }

  lemma StartCounted()
    ensures Counted([], [], Unknown, false, false)
    ensures TotalSize([]) == 0
  {
  }

  lemma CountNode(level: seq<Error>, next: seq<Error>, outcome: AppendOutcome, voted: bool, contradicted: bool, node: Error)
    requires Counted(level, next, outcome, voted, contradicted)
    ensures IsMarker(node) && voted && outcome != Says(node) ==> Counted(level + [node], next, outcome, true, true)
    ensures IsMarker(node) && !(voted && outcome != Says(node)) ==> Counted(level + [node], next, Says(node), true, contradicted)
    ensures !IsMarker(node) ==> Counted(level + [node], next + Next(node), outcome, voted, contradicted)
  {
    hide LevelVotes;
    forall o: AppendOutcome ensures LevelVotes([node], 0, o) <==> IsMarker(node) && Says(node) == o {
      OneNode(node, 0, o);
    }
    LevelVotesOfConcat(level, [node], 0, Appended);
    LevelVotesOfConcat(level, [node], 0, NothingAppended);
    if !IsMarker(node) && !voted {
      forall k: nat, o: AppendOutcome
        ensures LevelVotes(next + Next(node), k, o) <==> LevelVotes(level + [node], k + 1, o)
      {
        LevelVotesOfConcat(next, Next(node), k, o);
        LevelVotesOfConcat(level, [node], k + 1, o);
        NextHoldsTheVotes(node, k, o);
        OneNode(node, k + 1, o);
      }
    }
  }

  lemma OneNode(node: Error, k: nat, o: AppendOutcome)
    ensures LevelVotes([node], k, o) <==> Votes(node, k, o)
  {
    assert [node][0] == node;
  }

  lemma NextFits(level: seq<Error>, next: seq<Error>, node: Error)
    requires TotalSize(next) + |level| <= TotalSize(level)
    ensures TotalSize(next + Next(node)) + |level| + 1 <= TotalSize(level + [node])
    ensures TotalSize(next) + |level| + 1 <= TotalSize(level + [node])
  {
    NextIsSmaller(node);
    TotalSizeOfConcat(next, Next(node));
    TotalSizeOfConcat(level, [node]);
    assert [node][..0] == [];
  }

  /** A level with markers decides. */
  lemma Verdict(err: Error, level: seq<Error>, depth: nat, next: seq<Error>, outcome: AppendOutcome, voted: bool,
                contradicted: bool)
    requires Holds(err, level, depth) && Counted(level, next, outcome, voted, contradicted) && voted
    ensures Means(err, if contradicted then Unknown else outcome)
  {
    hide Votes, LevelVotes;
    assert Shallowest(err, depth + 0);
    if contradicted {
      forall d: nat | Shallowest(err, d) ensures d == depth {
        ShallowestIsUnique(err, d, depth);
      }
    }
  }

  lemma GoDeeper(err: Error, level: seq<Error>, depth: nat, next: seq<Error>, outcome: AppendOutcome)
    requires Holds(err, level, depth) && Counted(level, next, outcome, false, false)
    ensures Holds(err, next, depth + 1)
  {
    hide Votes, LevelVotes;
    assert !MarkedAt(err, depth + 0);
    forall k: nat, o: AppendOutcome ensures LevelVotes(next, k, o) <==> Votes(err, depth + 1 + k, o) {
      assert LevelVotes(level, k + 1, o) <==> Votes(err, depth + (k + 1), o);
    }
  }

  lemma NothingLeft(err: Error, depth: nat)
    requires Holds(err, [], depth)
    ensures Means(err, Unknown)
  {
    hide Votes;
    forall d: nat ensures !MarkedAt(err, d) {
      if d >= depth {
        assert !LevelVotes([], d - depth, Appended) && !LevelVotes([], d - depth, NothingAppended);
      }
    }
  }

  // ---------------------------------------------------------------------------
  // What wrapping does
  // ---------------------------------------------------------------------------

  lemma WrapShifts(message: string, e: Error, depth: nat, o: AppendOutcome)
    ensures Votes(Wrap(message, e), depth, o) <==> depth > 0 && Votes(e, depth - 1, o)
  {
    assert Below(Wrap(message, e)) == [e];
    if depth > 0 {
      assert [e][0] == e;
    }
  }

  /** Wrapping an error in an unmarked one keeps its verdict. */
  lemma WrappingKeepsTheVerdict(message: string, e: Error, o: AppendOutcome)
    ensures Means(Wrap(message, e), o) <==> Means(e, o)
  {
    hide Votes;
    var w := Wrap(message, e);
    forall d: nat ensures Shallowest(w, d) <==> d > 0 && Shallowest(e, d - 1) {
      ShallowestShifts(message, e, d);
    }
    forall d: nat, p: AppendOutcome ensures Votes(w, d + 1, p) <==> Votes(e, d, p) {
      WrapShifts(message, e, d + 1, p);
    }
    assert forall d: nat :: Shallowest(e, d) <==> Shallowest(w, d + 1);
  }

  lemma ShallowestShifts(message: string, e: Error, depth: nat)
    ensures Shallowest(Wrap(message, e), depth) <==> depth > 0 && Shallowest(e, depth - 1)
  {
    hide Votes;
    var w := Wrap(message, e);
    forall d: nat ensures MarkedAt(w, d) <==> d > 0 && MarkedAt(e, d - 1) {
      WrapShifts(message, e, d, Appended);
      WrapShifts(message, e, d, NothingAppended);
    }
    assert forall d: nat :: MarkedAt(w, d + 1) <==> MarkedAt(e, d);
  }

  /** A marker put around an error shadows everything beneath it. */
  lemma MarkingShadows(appended: bool, e: Error)
    ensures Means(WithSaveOutcome(appended, e), if appended then Appended else NothingAppended)
  {
    assert Shallowest(WithSaveOutcome(appended, e), 0);
  }

  /** Joined errors: the one marked nearer the caller speaks for both, and at
      equal depth they speak together or not at all. */
  lemma JoiningTakesTheNearer(a: Error, b: Error, da: nat, o: AppendOutcome)
    requires Means(a, o) && Shallowest(a, da)
    requires forall d: nat :: d <= da ==> !MarkedAt(b, d)
    ensures Means(Join([a, b]), o) && Means(Join([b, a]), o)
  {
    JoinedShallowest(a, b, da);
    JoinedShallowest(b, a, da);
    forall d: nat | Shallowest(a, d) ensures d == da {
      ShallowestIsUnique(a, d, da);
    }
    hide Votes;
    forall d: nat | Shallowest(Join([a, b]), d) ensures d == da + 1 {
      ShallowestIsUnique(Join([a, b]), d, da + 1);
    }
    forall d: nat | Shallowest(Join([b, a]), d) ensures d == da + 1 {
      ShallowestIsUnique(Join([b, a]), d, da + 1);
    }
    assert !MarkedAt(b, da);
    forall p: AppendOutcome ensures Votes(Join([a, b]), da + 1, p) <==> Votes(a, da, p) || Votes(b, da, p) {
      JoinedVotes(a, b, da, p);
    }
    forall p: AppendOutcome ensures Votes(Join([b, a]), da + 1, p) <==> Votes(a, da, p) || Votes(b, da, p) {
      JoinedVotes(b, a, da, p);
    }
  }

  lemma JoinedVotes(a: Error, b: Error, depth: nat, o: AppendOutcome)
    ensures Votes(Join([a, b]), depth + 1, o) <==> Votes(a, depth, o) || Votes(b, depth, o)
  {
    assert Below(Join([a, b])) == [a, b];
    assert [a, b][0] == a && [a, b][1] == b;
  }

  lemma JoinedShallowest(a: Error, b: Error, depth: nat)
    requires MarkedAt(a, depth) || MarkedAt(b, depth)
    requires forall d: nat :: d < depth ==> !MarkedAt(a, d) && !MarkedAt(b, d)
    ensures Shallowest(Join([a, b]), depth + 1)
  {
    hide Votes;
    var j := Join([a, b]);
    forall d: nat ensures MarkedAt(j, d + 1) <==> MarkedAt(a, d) || MarkedAt(b, d) {
      JoinedVotes(a, b, d, Appended);
      JoinedVotes(a, b, d, NothingAppended);
    }
    assert !MarkedAt(j, 0) by { JoinIsNoMarker(a, b); }
    forall d: nat | d < depth + 1 ensures !MarkedAt(j, d) {
      if d > 0 {
        assert !MarkedAt(a, d - 1) && !MarkedAt(b, d - 1);
        assert MarkedAt(j, d - 1 + 1) <==> false;
      }
    }
  }

  lemma JoinIsNoMarker(a: Error, b: Error)
    ensures !MarkedAt(Join([a, b]), 0)
  {
  }

  /** Joined errors marked at the same depth that disagree vouch for nothing. */
  lemma ContradictionVouchesForNothing(a: Error, b: Error, d: nat)
    requires Means(a, Appended) && Means(b, NothingAppended) && Shallowest(a, d) && Shallowest(b, d)
    ensures Means(Join([a, b]), Unknown)
  {
    hide Votes;
    JoinedShallowest(a, b, d);
    JoinedVotes(a, b, d, Appended);
    JoinedVotes(a, b, d, NothingAppended);
    forall e: nat | Shallowest(Join([a, b]), e) ensures e == d + 1 {
      ShallowestIsUnique(Join([a, b]), e, d + 1);
    }
    forall e: nat | Shallowest(a, e) ensures e == d {
      ShallowestIsUnique(a, e, d);
    }
    forall e: nat | Shallowest(b, e) ensures e == d {
      ShallowestIsUnique(b, e, d);
    }
  }
}
