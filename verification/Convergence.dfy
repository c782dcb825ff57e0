/** Worker convergence: any number of workers, started, stopped and interleaved
    arbitrarily over one growing clean record, delivering to shared setters
    (projection/lifecycle/worker.go, projection/lifecycle/cutover.go). */
module Convergence {
  import opened Base
  import opened LifecycleState
  import opened LifecycleEvents
  import opened CleanHistories
  import opened Cutovers
  import opened Routers
  import opened Workers

  // ---------------------------------------------------------------------------
  // Recorded cutovers
  // ---------------------------------------------------------------------------

  /** The record, at some point, served exactly this cutover. */
  ghost predicate Recorded(log: seq<Envelope>, c: Cutover) {
    c.revision >= 1 && c.live.Valid() && exists k :: RecordedBy(log, k, c)
  }

  predicate RecordedBy(log: seq<Envelope>, k: int, c: Cutover) {
    0 <= k <= |log| && Cutover(StateOf(log[..k], c.live.name).live, StateOf(log[..k], c.live.name).revision) == c
  }

  /** One event moves the revision by at most one, and the route only with it. */
  lemma RevisionStep(s: State, e: Event)
    requires Valid(s) && CleanStep(s, e)
    ensures s.revision <= Apply(s, e).revision
    ensures s.revision == Apply(s, e).revision ==> s.live == Apply(s, e).live
  {
    hide RestAccepts, ValidName, CanonicalWitnesses, RetirementPolicy.Valid, ReceiptsAttest;
  }

  lemma CleanLogAt(log: seq<Envelope>, k: nat)
    requires CleanLog(log) && k <= |log|
    ensures CleanLog(log[..k])
    decreases |log|
  {
    if k == |log| {
      assert log[..k] == log;
    } else {
      var front := log[..|log| - 1];
      CleanLogPrefix(log);
      CleanLogAt(front, k);
      assert front[..k] == log[..k];
    }
  }

  /** Along the record a name's revision never decreases, and equal revisions
      mean equal routes. */
  lemma {:induction false} RevisionsGrow(log: seq<Envelope>, name: string, j: nat)
    requires CleanLog(log) && j <= |log|
    ensures StateOf(log[..j], name).revision <= StateOf(log, name).revision
    ensures StateOf(log[..j], name).revision == StateOf(log, name).revision ==>
              StateOf(log[..j], name).live == StateOf(log, name).live
    decreases |log|
  {
    hide FoldFrom, Apply, Valid, CleanStep, CleanStream, HistoryOf;
    if j == |log| {
      assert log[..j] == log;
    } else {
      var front := log[..|log| - 1];
      CleanLogPrefix(log);
      RevisionsGrow(front, name, j);
      assert front[..j] == log[..j];
      assert CleanStream(log, name);
      LogStep(log, name);
      if log[|log| - 1].address == LifecycleStream(name) && log[|log| - 1].payload.Lifecycle? {
        RevisionStep(StateOf(front, name), log[|log| - 1].payload.event);
      }
    }
  }

  /** Two recorded cutovers of one projection at one revision are the same. */
  lemma RevisionsIdentify(log: seq<Envelope>, c: Cutover, d: Cutover)
    requires CleanLog(log) && Recorded(log, c) && Recorded(log, d)
    requires c.live.name == d.live.name && c.revision == d.revision
    ensures c == d
  {
    hide FoldFrom, Apply, HistoryOf, ID.Valid;
    var i :| RecordedBy(log, i, c);
    var j :| RecordedBy(log, j, d);
    var (lo, hi) := if i <= j then (i, j) else (j, i);
    CleanLogAt(log, hi);
    assert log[..hi][..lo] == log[..lo];
    RevisionsGrow(log[..hi], c.live.name, lo);
  }

  lemma RecordedGrows(log: seq<Envelope>, more: seq<Envelope>, c: Cutover)
    requires Recorded(log, c)
    ensures Recorded(log + more, c)
  {
    var k :| RecordedBy(log, k, c);
    assert (log + more)[..k] == log[..k];
    assert RecordedBy(log + more, k, c);
  }

  /** The final cutover of a folded prefix is recorded. */
  lemma RouteIsRecorded(log: seq<Envelope>, k: nat, routes: Routes, name: string)
    requires CleanLog(log) && k <= |log| && FoldLog(map[], log[..k]) == Some(routes) && name in routes
    ensures Recorded(log, routes[name].current)
    ensures routes[name].current.live.name == name
    ensures routes[name].current.revision == StateOf(log[..k], name).revision
  {
    hide FoldFrom, Apply, HistoryOf;
    CleanLogAt(log, k);
    RouterRefinesLifecycle(log[..k]);
    assert RouteAgrees(routes, log[..k], name);
    LiveIsNamed(log[..k], name);
    assert RecordedBy(log, k, routes[name].current);
  }

  lemma LiveIsNamed(log: seq<Envelope>, name: string)
    requires CleanLog(log)
    ensures StateOf(log, name).revision > 0 ==>
              StateOf(log, name).live.Valid() && StateOf(log, name).live.name == name
    ensures StateOf(log, name).revision >= 0
  {
    hide Apply, RestReachable, ValidAttempt;
    assert CleanStream(log, name);
    CleanHistoryIsValid(HistoryOf(log, name));
  }

  /** Every cutover of a stretch of the record is recorded. */
  lemma {:induction false} StretchIsRecorded(log: seq<Envelope>, from: nat, c: Cutover)
    requires CleanLog(log) && from <= |log| && c in CutoversIn(log[from..])
    ensures Recorded(log, c)
    decreases |log|
  {
    hide FoldFrom, Apply, Valid, CleanStep, HistoryOf, Recorded;
    if from < |log| {
      var front := log[..|log| - 1];
      var last := log[|log| - 1];
      assert log[from..][..|log[from..]| - 1] == front[from..];
      CleanLogPrefix(log);
      if c in CutoversIn(front[from..]) {
        StretchIsRecorded(front, from, c);
        RecordedGrows(front, [last], c);
        assert front + [last] == log;
      } else {
        LastCutoverIsRecorded(log);
      }
    }
  }

  lemma LastCutoverIsRecorded(log: seq<Envelope>)
    requires CleanLog(log) && log != [] && Decode(log[|log| - 1]).Flip?
    ensures Recorded(log, Decode(log[|log| - 1]).raw.cutover)
  {
    hide FoldFrom, Apply, Valid, CleanStep, HistoryOf, Agrees;
    var front := log[..|log| - 1];
    var last := log[|log| - 1];
    var name := last.address.name;
    var c := Decode(last).raw.cutover;
    assert WellAddressed(last) && CleanStream(log, name);
    assert c.live.name == name;
    CleanLogPrefix(log);
    RouterRefinesLifecycle(log);
    assert FoldLog(map[], log).value[name].current == c;
    assert RouteAgrees(FoldLog(map[], log).value, log, name);
    AgreesCurrent(Route(FoldLog(map[], log).value, name), StateOf(log, name));
    assert log[..|log|] == log;
    assert RecordedBy(log, |log|, c);
  }

  lemma AgreesCurrent(f: CutoverFold, s: State)
    requires Agrees(f, s)
    ensures f.current == Cutover(s.live, s.revision)
  {
  }

  /** Folding a stretch leaves each route either untouched or at a cutover of
      the stretch. */
  lemma {:induction false} RoutesMoveByCutovers(routes: Routes, events: seq<Envelope>, name: string)
    requires FoldLog(routes, events).Some? && name in FoldLog(routes, events).value
    ensures var after := FoldLog(routes, events).value;
            || after[name].current in CutoversIn(events)
            || (name in routes && after[name] == routes[name])
  {
    if events == [] {
    } else {
      var front := events[..|events| - 1];
      var last := Decode(events[|events| - 1]);
      if !(last.Flip? && last.raw.cutover.live.name == name) {
        RoutesMoveByCutovers(routes, front, name);
      }
    }
  }

  // ---------------------------------------------------------------------------
  // The system
  // ---------------------------------------------------------------------------

  datatype Stage = Fresh | Initial | Tailing | Stopped

  /** A running worker: its fold, the length of the prefix it has read, the
      cutovers still to deliver, and the next setter for the first of them. */
  datatype Worker = Worker(stage: Stage, routes: Routes, mark: nat, queue: seq<Cutover>, setter: nat)

  datatype System = System(log: seq<Envelope>, setters: seq<Served>, workers: map<nat, Worker>)

  datatype Action =
    | Record(event: Envelope)
    | Start(worker: nat)
    | FoldAll(worker: nat, frontier: nat, order: seq<string>)
    | DeliverOne(worker: nat)
    | BecomeReady(worker: nat)
    | Tail(worker: nat, frontier: nat)
    | Stop(worker: nat)

  /** The names of a fold in ascending order. */
  predicate Enumerates(order: seq<string>, routes: Routes) {
    && (forall i :: 0 <= i < |order| ==> order[i] in routes)
    && (forall name :: name in routes ==> name in order)
    && forall i :: 0 < i < |order| ==> Before(order[i - 1], order[i])
  }

  function FinalCutovers(routes: Routes, order: seq<string>): seq<Cutover>
    requires forall i :: 0 <= i < |order| ==> order[i] in routes
  {
    seq(|order|, i requires 0 <= i < |order| => routes[order[i]].current)
  }

  ghost predicate Enabled(sys: System, a: Action) {
    match a
    case Record(event) => CleanLog(sys.log + [event])
    case Start(w) => w !in sys.workers
    case FoldAll(w, frontier, order) =>
      && w in sys.workers && sys.workers[w].stage == Fresh && frontier <= |sys.log|
      && (FoldLog(map[], sys.log[..frontier]).Some? ==> Enumerates(order, FoldLog(map[], sys.log[..frontier]).value))
    case DeliverOne(w) =>
      w in sys.workers && sys.workers[w].stage in {Initial, Tailing} && sys.workers[w].queue != []
    case BecomeReady(w) => w in sys.workers && sys.workers[w].stage == Initial && sys.workers[w].queue == []
    case Tail(w, frontier) =>
      && w in sys.workers && sys.workers[w].stage == Tailing && sys.workers[w].queue == []
      && sys.workers[w].mark <= frontier <= |sys.log|
    case Stop(w) => w in sys.workers
  }

  predicate Rejects(served: Served, c: Cutover) {
    !c.live.Valid() || c.revision < 1 || Conflicts(served, c)
  }

  function Act(sys: System, a: Action): System
    requires Enabled(sys, a)
  {
    match a
    case Record(event) => sys.(log := sys.log + [event])
    case Start(w) => sys.(workers := sys.workers[w := Worker(Fresh, map[], 0, [], 0)])
    case FoldAll(w, frontier, order) =>
      (match FoldLog(map[], sys.log[..frontier])
       case None => sys.(workers := sys.workers[w := sys.workers[w].(stage := Stopped)])
       case Some(routes) =>
         sys.(workers := sys.workers[w := Worker(Initial, routes, frontier, FinalCutovers(routes, order), 0)]))
    case DeliverOne(w) =>
      var worker := sys.workers[w];
      var c := worker.queue[0];
      if worker.setter >= |sys.setters| then
        sys.(workers := sys.workers[w := worker.(queue := worker.queue[1..], setter := 0)])
      else if Rejects(sys.setters[worker.setter], c) then
        sys.(workers := sys.workers[w := worker.(stage := Stopped)])
      else
        sys.(setters := sys.setters[worker.setter := ApplyIfNewer(sys.setters[worker.setter], c)],
             workers := sys.workers[w := worker.(setter := worker.setter + 1)])
    case BecomeReady(w) => sys.(workers := sys.workers[w := sys.workers[w].(stage := Tailing)])
    case Tail(w, frontier) =>
      var worker := sys.workers[w];
      var events := sys.log[worker.mark..frontier];
      (match FoldLog(worker.routes, events)
       case None => sys.(workers := sys.workers[w := worker.(stage := Stopped)])
       case Some(routes) =>
         sys.(workers := sys.workers[w := Worker(Tailing, routes, frontier, CutoversIn(events), 0)]))
    case Stop(w) => sys.(workers := sys.workers[w := sys.workers[w].(stage := Stopped)])
  }

  // ---------------------------------------------------------------------------
  // The invariant
  // ---------------------------------------------------------------------------

  /** What setter i has yet to be given from a worker's queue. */
  function Pending(worker: Worker, i: nat): seq<Cutover> {
    if i < worker.setter && worker.queue != [] then worker.queue[1..] else worker.queue
  }

  /** The setter serves the name at or past the revision. */
  predicate ServesPast(served: Served, name: string, revision: int) {
    name in served && served[name].revision >= revision
  }

  predicate HasPast(queue: seq<Cutover>, name: string, revision: int) {
    exists c :: c in queue && c.live.name == name && c.revision >= revision
  }

  predicate Covered(served: Served, queue: seq<Cutover>, name: string, revision: int) {
    ServesPast(served, name, revision) || HasPast(queue, name, revision)
  }

  ghost predicate SettersRecorded(sys: System) {
    forall i, name :: 0 <= i < |sys.setters| && name in sys.setters[i] ==>
      Recorded(sys.log, sys.setters[i][name]) && sys.setters[i][name].live.name == name
  }

  ghost predicate WorkerGood(log: seq<Envelope>, setters: seq<Served>, worker: Worker) {
    worker.stage in {Initial, Tailing} ==>
      && worker.mark <= |log|
      && FoldLog(map[], log[..worker.mark]) == Some(worker.routes)
      && (forall c :: c in worker.queue ==> Recorded(log, c))
      && forall i, name :: 0 <= i < |setters| && name in worker.routes ==>
           Covered(setters[i], Pending(worker, i), name, worker.routes[name].current.revision)
  }

  ghost predicate Good(sys: System) {
    && CleanLog(sys.log)
    && SettersRecorded(sys)
    && forall w :: w in sys.workers ==> WorkerGood(sys.log, sys.setters, sys.workers[w])
  }

  // ---------------------------------------------------------------------------
  // Preservation
  // ---------------------------------------------------------------------------

  lemma RecordKeeps(sys: System, event: Envelope)
    requires Good(sys) && Enabled(sys, Record(event))
    ensures Good(Act(sys, Record(event)))
  {
    hide CleanLog, Recorded, HistoryOf, Covered, FoldLog;
    var next := Act(sys, Record(event));
    forall c | Recorded(sys.log, c) ensures Recorded(next.log, c) {
      RecordedGrows(sys.log, [event], c);
    }
    forall w | w in sys.workers ensures WorkerGood(next.log, next.setters, next.workers[w]) {
      var worker := sys.workers[w];
      assert WorkerGood(sys.log, sys.setters, worker);
      if worker.mark <= |sys.log| {
        assert next.log[..worker.mark] == sys.log[..worker.mark];
      }
    }
  }

  lemma FoldAllKeeps(sys: System, w: nat, frontier: nat, order: seq<string>)
    requires Good(sys) && Enabled(sys, FoldAll(w, frontier, order))
    ensures Good(Act(sys, FoldAll(w, frontier, order)))
    ensures Act(sys, FoldAll(w, frontier, order)).workers[w].stage == Initial
  {
    hide CleanLog, Recorded, HistoryOf, FoldLog;
    var next := Act(sys, FoldAll(w, frontier, order));
    CleanLogAt(sys.log, frontier);
    RouterRefinesLifecycle(sys.log[..frontier]);
    var worker := next.workers[w];
    forall i | 0 <= i < |order|
      ensures Recorded(sys.log, worker.queue[i]) && worker.queue[i].live.name == order[i]
    {
      RouteIsRecorded(sys.log, frontier, worker.routes, order[i]);
    }
    forall i, name | 0 <= i < |sys.setters| && name in worker.routes
      ensures Covered(sys.setters[i], Pending(worker, i), name, worker.routes[name].current.revision)
    {
      assert name in order;
      var k :| 0 <= k < |order| && order[k] == name;
      assert worker.queue[k] in Pending(worker, i);
      assert HasPast(Pending(worker, i), name, worker.routes[name].current.revision);
    }
    assert WorkerGood(next.log, next.setters, worker);
  }

  /** A recorded cutover is never rejected by a setter that serves only recorded ones. */
  lemma NeverRejected(sys: System, i: nat, c: Cutover)
    requires Good(sys) && i < |sys.setters| && Recorded(sys.log, c)
    ensures !Rejects(sys.setters[i], c)
  {
    hide CleanLog, HistoryOf;
    if c.live.name in sys.setters[i] && sys.setters[i][c.live.name].revision == c.revision {
      RevisionsIdentify(sys.log, c, sys.setters[i][c.live.name]);
    }
  }

  lemma CoverageSurvives(served: Served, c: Cutover, queue: seq<Cutover>, name: string, revision: int)
    requires Covered(served, queue, name, revision)
    ensures Covered(ApplyIfNewer(served, c), queue, name, revision)
    ensures c.live.name == name && c.revision >= revision ==> ServesPast(ApplyIfNewer(served, c), name, revision)
  {
  }

  lemma DeliverKeeps(sys: System, w: nat)
    requires Good(sys) && Enabled(sys, DeliverOne(w))
    ensures Good(Act(sys, DeliverOne(w)))
    ensures Act(sys, DeliverOne(w)).workers[w].stage == sys.workers[w].stage
  {
    hide CleanLog, Recorded, HistoryOf, FoldLog, Covered, Conflicts;
    var next := Act(sys, DeliverOne(w));
    var worker := sys.workers[w];
    var c := worker.queue[0];
    assert WorkerGood(sys.log, sys.setters, worker) && Recorded(sys.log, c);
    if worker.setter >= |sys.setters| {
      assert forall i | 0 <= i < |sys.setters| :: Pending(next.workers[w], i) == Pending(worker, i);
      assert WorkerGood(next.log, next.setters, next.workers[w]);
    } else {
      var k := worker.setter;
      NeverRejected(sys, k, c);
      assert next.setters == sys.setters[k := ApplyIfNewer(sys.setters[k], c)];
      forall other | other in sys.workers ensures WorkerGood(next.log, next.setters, next.workers[other]) {
        assert WorkerGood(sys.log, sys.setters, sys.workers[other]);
        if sys.workers[other].stage in {Initial, Tailing} {
          if other == w {
            AdvanceKeepsCoverage(sys.setters, worker, c);
          } else {
            ApplyKeepsCoverage(sys.setters, k, c, sys.workers[other]);
          }
        }
      }
    }
  }

  predicate AllCovered(setters: seq<Served>, worker: Worker) {
    forall i, name :: 0 <= i < |setters| && name in worker.routes ==>
      Covered(setters[i], Pending(worker, i), name, worker.routes[name].current.revision)
  }

  lemma ApplyKeepsCoverage(setters: seq<Served>, k: nat, c: Cutover, worker: Worker)
    requires k < |setters| && AllCovered(setters, worker)
    ensures AllCovered(setters[k := ApplyIfNewer(setters[k], c)], worker)
  {
    hide Covered, ApplyIfNewer;
    forall i, name | 0 <= i < |setters| && name in worker.routes
      ensures Covered(setters[k := ApplyIfNewer(setters[k], c)][i], Pending(worker, i), name,
                      worker.routes[name].current.revision)
    {
      CoverageSurvives(setters[i], c, Pending(worker, i), name, worker.routes[name].current.revision);
    }
  }

  lemma AdvanceKeepsCoverage(setters: seq<Served>, worker: Worker, c: Cutover)
    requires worker.setter < |setters| && worker.queue != [] && c == worker.queue[0]
    requires AllCovered(setters, worker)
    ensures AllCovered(setters[worker.setter := ApplyIfNewer(setters[worker.setter], c)],
                       worker.(setter := worker.setter + 1))
  {
    hide ApplyIfNewer;
    var k := worker.setter;
    var after := worker.(setter := k + 1);
    ApplyKeepsCoverage(setters, k, c, worker);
    forall name | name in worker.routes
      ensures Covered(ApplyIfNewer(setters[k], c), after.queue[1..], name, worker.routes[name].current.revision)
    {
      var revision := worker.routes[name].current.revision;
      CoverageSurvives(setters[k], c, worker.queue, name, revision);
      assert Covered(setters[k], Pending(worker, k), name, revision);
      if HasPast(worker.queue, name, revision) && !(c.live.name == name && c.revision >= revision) {
        var d :| d in worker.queue && d.live.name == name && d.revision >= revision;
        assert d in worker.queue[1..];
        assert HasPast(worker.queue[1..], name, revision);
      }
    }
  }

  lemma TailKeeps(sys: System, w: nat, frontier: nat)
    requires Good(sys) && Enabled(sys, Tail(w, frontier))
    ensures Good(Act(sys, Tail(w, frontier)))
    ensures Act(sys, Tail(w, frontier)).workers[w].stage == Tailing
  {
    hide CleanLog, Recorded, HistoryOf, FoldLog, CutoversIn;
    var worker := sys.workers[w];
    var next := Act(sys, Tail(w, frontier));
    var events := sys.log[worker.mark..frontier];
    assert WorkerGood(sys.log, sys.setters, worker);
    CleanLogAt(sys.log, frontier);
    RouterRefinesLifecycle(sys.log[..frontier]);
    assert sys.log[..frontier] == sys.log[..worker.mark] + events;
    FoldIsIncremental(map[], sys.log[..worker.mark], events);
    var after := next.workers[w];
    forall c | c in after.queue ensures Recorded(sys.log, c) {
      assert sys.log[..frontier][worker.mark..] == events;
      StretchIsRecorded(sys.log[..frontier], worker.mark, c);
      RecordedGrows(sys.log[..frontier], sys.log[frontier..], c);
      assert sys.log[..frontier] + sys.log[frontier..] == sys.log;
    }
    forall i, name | 0 <= i < |sys.setters| && name in after.routes
      ensures Covered(sys.setters[i], Pending(after, i), name, after.routes[name].current.revision)
    {
      RoutesMoveByCutovers(worker.routes, events, name);
      RouteIsRecorded(sys.log, frontier, after.routes, name);
      if after.routes[name].current in CutoversIn(events) {
        assert HasPast(after.queue, name, after.routes[name].current.revision);
      } else {
        assert Covered(sys.setters[i], Pending(worker, i), name, worker.routes[name].current.revision);
      }
    }
    assert WorkerGood(next.log, next.setters, after);
  }

  lemma ActKeepsGood(sys: System, a: Action)
    requires Good(sys) && Enabled(sys, a)
    ensures Good(Act(sys, a))
  {
    match a
    case Record(event) => RecordKeeps(sys, event);
    case FoldAll(w, frontier, order) => FoldAllKeeps(sys, w, frontier, order);
    case DeliverOne(w) => DeliverKeeps(sys, w);
    case Tail(w, frontier) => TailKeeps(sys, w, frontier);
    case BecomeReady(w) =>
      hide Enabled, WorkerGood, CleanLog, Recorded;
      BecomeReadyKeeps(sys, w);
    case _ =>
      hide CleanLog, Recorded, FoldLog, Covered;
  }

  lemma BecomeReadyKeeps(sys: System, w: nat)
    requires Good(sys) && Enabled(sys, BecomeReady(w))
    ensures Good(Act(sys, BecomeReady(w)))
  {
    hide CleanLog, Recorded, FoldLog, Covered;
    var next := Act(sys, BecomeReady(w));
    var worker := sys.workers[w];
    assert WorkerGood(sys.log, sys.setters, worker);
    assert forall i | 0 <= i < |sys.setters| :: Pending(next.workers[w], i) == Pending(worker, i);
    assert WorkerGood(next.log, next.setters, next.workers[w]);
  }

  // ---------------------------------------------------------------------------
  // Runs
  // ---------------------------------------------------------------------------

  ghost predicate Runs(sys: System, actions: seq<Action>)
    decreases |actions|
  {
    actions != [] ==> Enabled(sys, actions[0]) && Runs(Act(sys, actions[0]), actions[1..])
  }

  ghost function Final(sys: System, actions: seq<Action>): System
    requires Runs(sys, actions)
    decreases |actions|
  {
    if actions == [] then sys else Final(Act(sys, actions[0]), actions[1..])
  }

  /** An empty store, unserved setters and no workers. */
  function Init(setters: nat): System {
    System([], seq(setters, i requires 0 <= i < setters => map[]), map[])
  }

  lemma {:induction false} RunsKeepGood(sys: System, actions: seq<Action>)
    requires Good(sys) && Runs(sys, actions)
    ensures Good(Final(sys, actions))
    decreases |actions|
  {
    hide Good, Enabled, Act;
    if actions == [] {
    } else {
      ActKeepsGood(sys, actions[0]);
      RunsKeepGood(Act(sys, actions[0]), actions[1..]);
    }
  }

  lemma InitIsGood(setters: nat)
    ensures Good(Init(setters))
  {
  }

  /** No step of any run makes a setter serve an older revision. */
  lemma StepNeverRegresses(sys: System, a: Action, i: nat, name: string)
    requires Good(sys) && Enabled(sys, a)
    requires i < |sys.setters| && name in sys.setters[i]
    ensures i < |Act(sys, a).setters| && name in Act(sys, a).setters[i]
    ensures Act(sys, a).setters[i][name].revision >= sys.setters[i][name].revision
  {
    hide Good, CleanLog, FoldLog, CutoversIn;
  }

  lemma {:induction false} RunsNeverRegress(sys: System, actions: seq<Action>, i: nat, name: string)
    requires Good(sys) && Runs(sys, actions)
    requires i < |sys.setters| && name in sys.setters[i]
    ensures i < |Final(sys, actions).setters| && name in Final(sys, actions).setters[i]
    ensures Final(sys, actions).setters[i][name].revision >= sys.setters[i][name].revision
    decreases |actions|
  {
    hide Good, Enabled, Act;
    if actions == [] {
    } else {
      ActKeepsGood(sys, actions[0]);
      StepNeverRegresses(sys, actions[0], i, name);
      RunsNeverRegress(Act(sys, actions[0]), actions[1..], i, name);
    }
  }

  /** Every route any setter serves is one the record served at some point. */
  ghost predicate ServesOnlyRecorded(sys: System) {
    forall i, name :: 0 <= i < |sys.setters| && name in sys.setters[i] ==>
      Recorded(sys.log, sys.setters[i][name]) && sys.setters[i][name].live.name == name
  }

  /** Every setter is at or past the final revision of the prefix the worker read. */
  ghost predicate Converged(sys: System, worker: Worker) {
    && worker.mark <= |sys.log|
    && forall i, name :: 0 <= i < |sys.setters| && StateOf(sys.log[..worker.mark], name).revision > 0 ==>
         ServesPast(sys.setters[i], name, StateOf(sys.log[..worker.mark], name).revision)
  }

  /** The moves that could stop a worker: folding and delivering. */
  predicate Moves(a: Action) {
    a.FoldAll? || a.DeliverOne? || a.Tail?
  }

  /** The stage a worker is in after one of its moves went through. */
  function Onward(sys: System, a: Action): Stage
    requires Moves(a) && a.worker in sys.workers
  {
    if a.FoldAll? then Initial else sys.workers[a.worker].stage
  }

  ghost predicate GoesThrough(sys: System, a: Action)
    requires Enabled(sys, a) && Moves(a)
  {
    Act(sys, a).workers[a.worker].stage == Onward(sys, a)
  }

  /** Convergence. In every run of any number of workers over a clean record:
      every route a setter serves is a recorded cutover; no worker is ever
      refused a fold or a delivery; and a worker that is ready, with nothing
      left to deliver, leaves every setter at or past the final revision of
      the prefix it has read. */
  lemma WorkersConverge(setters: nat, actions: seq<Action>)
    requires Runs(Init(setters), actions)
    ensures ServesOnlyRecorded(Final(Init(setters), actions))
    ensures forall a :: Enabled(Final(Init(setters), actions), a) && Moves(a) ==>
              GoesThrough(Final(Init(setters), actions), a)
    ensures forall w :: w in Final(Init(setters), actions).workers ==>
              var worker := Final(Init(setters), actions).workers[w];
              worker.stage == Tailing && worker.queue == [] ==> Converged(Final(Init(setters), actions), worker)
  {
    hide Good, Enabled, Act, Recorded, HistoryOf, Converged, GoesThrough, ServesOnlyRecorded;
    InitIsGood(setters);
    RunsKeepGood(Init(setters), actions);
    var sys := Final(Init(setters), actions);
    GoodServesOnlyRecorded(sys);
    forall a | Enabled(sys, a) && Moves(a) ensures GoesThrough(sys, a) {
      MoveSucceeds(sys, a);
    }
    forall w | w in sys.workers && sys.workers[w].stage == Tailing && sys.workers[w].queue == []
      ensures Converged(sys, sys.workers[w])
    {
      DrainedIsConverged(sys, w);
    }
  }

  lemma GoodServesOnlyRecorded(sys: System)
    requires Good(sys)
    ensures ServesOnlyRecorded(sys)
  {
    hide CleanLog, Recorded;
  }

  lemma DrainedIsConverged(sys: System, w: nat)
    requires Good(sys) && w in sys.workers && sys.workers[w].stage == Tailing && sys.workers[w].queue == []
    ensures Converged(sys, sys.workers[w])
  {
    hide CleanLog, Recorded, HistoryOf, FoldLog;
    var worker := sys.workers[w];
    var prefix := sys.log[..worker.mark];
    assert WorkerGood(sys.log, sys.setters, worker);
    CleanLogAt(sys.log, worker.mark);
    RouterRefinesLifecycle(prefix);
    forall i, name | 0 <= i < |sys.setters| && StateOf(prefix, name).revision > 0
      ensures ServesPast(sys.setters[i], name, StateOf(prefix, name).revision)
    {
      assert RouteAgrees(worker.routes, prefix, name);
      RouteIsRecorded(sys.log, worker.mark, worker.routes, name);
      assert Covered(sys.setters[i], Pending(worker, i), name, worker.routes[name].current.revision);
    }
  }

  lemma MoveSucceeds(sys: System, a: Action)
    requires Good(sys) && Enabled(sys, a) && Moves(a)
    ensures GoesThrough(sys, a)
  {
    hide Good, CleanLog, Recorded, FoldLog;
    match a
    case FoldAll(w, frontier, order) => FoldAllKeeps(sys, w, frontier, order);
    case DeliverOne(w) => DeliverKeeps(sys, w);
    case Tail(w, frontier) => TailKeeps(sys, w, frontier);
    case _ =>
  }
}
