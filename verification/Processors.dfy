/** The continuous projection runtime (projection/processor/processor.go): resume
    from the checkpoint, drain the global log in bounded batches, checkpoint every
    so many events, and signal once the head is handled and saved. Others append
    and delete throughout, any call may fail, and the process may stop anywhere. */
module Processors {
  import opened Base
  import opened EventLog

  // ---------------------------------------------------------------------------
  // What the runtime runs against
  // ---------------------------------------------------------------------------

  predicate LogOk(log: seq<LogEntry>, counter: int) {
    && counter >= 0
    && Ascending(log)
    && (forall i :: 0 <= i < |log| ==> 1 <= log[i].position <= counter && log[i] == Entry(log[i].data))
  }

  /** What others may do to the log: publish past the counter, and delete. */
  predicate Moves(log: seq<LogEntry>, counter: int, after: seq<LogEntry>, later: int) {
    && LogOk(after, later)
    && counter <= later
    && forall e :: e in after && e.position <= counter ==> e in log
  }

  /** Every event still in the log past `from` and up to `to` is among these. */
  ghost predicate Whole(log: seq<LogEntry>, from: int, to: int, events: seq<Event>) {
    forall e :: e in log && from < e.position <= to ==> e.data in events
  }

  ghost predicate InOrder(events: seq<Event>) {
    forall i, j :: 0 <= i < j < |events| ==> events[i].position < events[j].position
  }

  /** The events a read yields: in order past the position, none left out up to the last. */
  ghost predicate Page(log: seq<LogEntry>, position: int, events: seq<Event>) {
    && InOrder(events)
    && (forall e :: e in events ==> e.position > position && Entry(e) in log)
    && (events != [] ==> Whole(log, position, events[|events| - 1].position, events))
  }

  /** A read's events are a stretch of the log. */
  lemma ReadIsStretch(log: seq<LogEntry>, position: int, count: int, n: nat)
    requires n <= |log|
    requires forall i :: 0 <= i < n ==> log[i].position <= position
    requires forall i :: n <= i < |log| ==> log[i].position > position
    ensures Stretch(log, n, GlobalRead(log, position, count))
    ensures |GlobalRead(log, position, count)| == if 0 < count < |log| - n then count else |log| - n
  {
    hide Past;
    PastIsTail(log, position, n);
    var events := GlobalRead(log, position, count);
    forall i | 0 <= i < |events| ensures events[i] == log[n + i].data {
      assert Past(log, position)[n + i - n] == log[n + i].data;
    }
  }

  predicate Stretch(log: seq<LogEntry>, n: nat, events: seq<Event>) {
    n + |events| <= |log| && forall i :: 0 <= i < |events| ==> events[i] == log[n + i].data
  }

  /** Where an event of the log past the bound is found. */
  lemma StretchHolds(log: seq<LogEntry>, counter: int, n: nat, events: seq<Event>, i: nat)
    requires LogOk(log, counter) && Stretch(log, n, events) && n <= i < |log|
    requires n + |events| < |log| ==> events != [] && log[i].position <= events[|events| - 1].position
    ensures log[i].data in events
  {
    assert i < n + |events|;
    assert events[i - n] == log[i].data;
  }

  lemma StretchIsPage(log: seq<LogEntry>, counter: int, position: int, n: nat, events: seq<Event>)
    requires LogOk(log, counter) && Stretch(log, n, events) && n <= |log|
    requires forall i :: 0 <= i < n ==> log[i].position <= position
    requires forall i :: n <= i < |log| ==> log[i].position > position
    ensures Page(log, position, events)
    ensures n + |events| == |log| ==> Whole(log, position, counter, events)
  {
    forall e | && e in log && e.position > position
               && (n + |events| < |log| ==> events != [] && e.position <= events[|events| - 1].position)
      ensures e.data in events
    {
      var i :| 0 <= i < |log| && log[i] == e;
      StretchHolds(log, counter, n, events, i);
    }
    forall e | e in events ensures e.position > position && Entry(e) in log {
      var i :| 0 <= i < |events| && events[i] == e;
      assert log[n + i] == Entry(e);
    }
    assert forall i :: 0 <= i < |events| ==> events[i].position == log[n + i].position;
  }

  lemma ReadIsPage(log: seq<LogEntry>, counter: int, position: int, count: int, k: nat)
    requires LogOk(log, counter) && k <= |GlobalRead(log, position, count)|
    ensures Page(log, position, GlobalRead(log, position, count)[..k])
    ensures k == |GlobalRead(log, position, count)| && (k < count || count <= 0) ==>
              Whole(log, position, counter, GlobalRead(log, position, count)[..k])
  {
    var n := Bound(log, position);
    ReadIsStretch(log, position, count, n);
    hide GlobalRead, Bound, Page, Whole;
    StretchIsPage(log, counter, position, n, GlobalRead(log, position, count)[..k]);
  }

  // ---------------------------------------------------------------------------
  // A run, as a value
  // ---------------------------------------------------------------------------

  /** One run against its environment: where it started, what it handed over after
      `before`, its position, how many handled events it counts as unsaved, and
      what its caught-up signal certified. */
  datatype RunView = RunView(
    log: seq<LogEntry>, counter: int, saved: int, before: seq<Event>, run: seq<Event>,
    start: int, position: int, unsaved: int, every: int,
    caughtUp: bool, caughtUpPosition: int, frontier: int)
  {
    function Handed(): seq<Event> {
      before + run
    }
  }

  /** Every event still in the log at or below the saved checkpoint was handed over. */
  ghost predicate Delivered(v: RunView) {
    LogOk(v.log, v.counter) && 0 <= v.saved <= v.counter && Whole(v.log, 0, v.saved, v.Handed())
  }

  /** The signal certifies: its position is saved, and everything published when the
      head was read was handed over. */
  ghost predicate CaughtUpOk(v: RunView) {
    v.caughtUp ==> v.caughtUpPosition <= v.saved && v.frontier <= v.counter && Whole(v.log, 0, v.frontier, v.Handed())
  }

  ghost predicate UnsavedAtMost(v: RunView, n: int) {
    n >= 0 && forall i :: 0 <= i < |v.run| - n ==> v.run[i].position <= v.saved
  }

  /** Between steps: this run handed over, in order and without gap or repeat,
      exactly the events past its checkpoint up to its position, fewer than
      `every` of them unsaved. */
  ghost predicate Steady(v: RunView) {
    Handling(v) && v.unsaved < v.every
  }

  ghost predicate Handling(v: RunView) {
    && v.every >= 1 && Delivered(v) && 0 <= v.start <= v.saved <= v.position <= v.counter
    && InOrder(v.run) && (forall e :: e in v.run ==> v.start < e.position <= v.position)
    && Whole(v.log, v.start, v.position, v.run)
    && 0 <= v.unsaved <= v.every && UnsavedAtMost(v, v.unsaved)
    && CaughtUpOk(v)
  }

  /** However a run ends: at most the event in the handler's hands is beyond its
      position, and at most `every` events will be delivered again. */
  ghost predicate Ended(v: RunView) {
    && Delivered(v) && 0 <= v.start <= v.saved <= v.position
    && InOrder(v.run) && (forall e :: e in v.run ==> v.start < e.position)
    && (forall i :: 0 <= i < |v.run| - 1 ==> v.run[i].position <= v.position)
    && Whole(v.log, v.start, v.position, v.run)
    && UnsavedAtMost(v, v.every)
    && CaughtUpOk(v)
  }

  /** What is left of a batch: exactly the log's next events, deletions apart. */
  ghost predicate Pending(v: RunView, events: seq<Event>) {
    && InOrder(events)
    && (forall e :: e in events ==> v.position < e.position <= v.counter)
    && (events != [] ==> Whole(v.log, v.position, events[|events| - 1].position, events))
  }

  lemma WholeMoves(log: seq<LogEntry>, counter: int, after: seq<LogEntry>, later: int, from: int, to: int, events: seq<Event>)
    requires Moves(log, counter, after, later) && to <= counter && Whole(log, from, to, events)
    ensures Whole(after, from, to, events)
  {
  }

  /** Others may publish and delete without disturbing the run. */
  lemma OthersKeepSteady(v: RunView, log: seq<LogEntry>, counter: int, events: seq<Event>)
    requires Handling(v) && Pending(v, events) && Moves(v.log, v.counter, log, counter)
    ensures Handling(v.(log := log, counter := counter)) && Pending(v.(log := log, counter := counter), events)
  {
    hide Whole, InOrder, LogOk;
    WholeMoves(v.log, v.counter, log, counter, 0, v.saved, v.Handed());
    WholeMoves(v.log, v.counter, log, counter, v.start, v.position, v.run);
    if v.caughtUp {
      WholeMoves(v.log, v.counter, log, counter, 0, v.frontier, v.Handed());
    }
    if events != [] {
      WholeMoves(v.log, v.counter, log, counter, v.position, events[|events| - 1].position, events);
    }
  }

  lemma WholeGrows(log: seq<LogEntry>, from: int, to: int, events: seq<Event>, more: seq<Event>)
    requires Whole(log, from, to, events)
    ensures Whole(log, from, to, events + more)
  {
  }

  /** Handing an event over before advancing past it. */
  lemma HandedOver(v: RunView, events: seq<Event>)
    requires Steady(v) && events != [] && Pending(v, events)
    ensures Ended(v.(run := v.run + [events[0]]))
  {
    var w := v.(run := v.run + [events[0]]);
    assert w.Handed() == v.Handed() + [events[0]];
    WholeGrows(v.log, 0, v.saved, v.Handed(), [events[0]]);
    WholeGrows(v.log, v.start, v.position, v.run, [events[0]]);
    if v.caughtUp {
      WholeGrows(v.log, 0, v.frontier, v.Handed(), [events[0]]);
    }
    hide Whole, Pending;
  }

  /** Advancing past it: the rest of the batch is the log's next events again. */
  lemma AdvancedPast(v: RunView, events: seq<Event>)
    requires Steady(v) && events != [] && Pending(v, events)
    ensures var w := v.(run := v.run + [events[0]], position := events[0].position, unsaved := v.unsaved + 1);
            Handling(w) && Pending(w, events[1..])
  {
    HandedOver(v, events);
    var w := v.(run := v.run + [events[0]], position := events[0].position, unsaved := v.unsaved + 1);
    RestIsPending(v, events);
    WholeUpTo(v, events);
    assert w.Handed() == v.Handed() + [events[0]];
    hide Whole, Pending;
  }

  lemma FoundInBatch(v: RunView, events: seq<Event>, e: LogEntry) returns (i: nat)
    requires LogOk(v.log, v.counter) && Pending(v, events) && events != []
    requires e in v.log && v.position < e.position <= events[|events| - 1].position
    ensures i < |events| && events[i] == e.data && events[i].position == e.position
  {
    assert e.data in events;
    i :| 0 <= i < |events| && events[i] == e.data;
    var j :| 0 <= j < |v.log| && v.log[j] == e;
  }

  lemma RestIsPending(v: RunView, events: seq<Event>)
    requires LogOk(v.log, v.counter) && events != [] && Pending(v, events)
    ensures Pending(v.(run := v.run + [events[0]], position := events[0].position, unsaved := v.unsaved + 1), events[1..])
  {
    var rest := events[1..];
    if rest != [] {
      forall e | e in v.log && events[0].position < e.position <= rest[|rest| - 1].position ensures e.data in rest {
        var i := FoundInBatch(v, events, e);
        assert rest[i - 1] == e.data;
      }
    }
  }

  lemma WholeUpTo(v: RunView, events: seq<Event>)
    requires LogOk(v.log, v.counter) && events != [] && Pending(v, events) && Whole(v.log, v.start, v.position, v.run)
    ensures Whole(v.log, v.start, events[0].position, v.run + [events[0]])
  {
    forall e | e in v.log && v.start < e.position <= events[0].position ensures e.data in v.run + [events[0]] {
      if e.position > v.position {
        var i := FoundInBatch(v, events, e);
        assert i == 0;
      }
    }
  }

  /** Saving the checkpoint: everything up to the position has been handed over. */
  lemma SavedKeepsSteady(v: RunView)
    requires Handling(v) && v.every >= 1
    ensures Steady(v.(saved := v.position, unsaved := 0))
  {
    var w := v.(saved := v.position, unsaved := 0);
    assert Whole(v.log, 0, v.position, v.Handed());
  }

  lemma StartIsSteady(v: RunView)
    requires Delivered(v) && v.run == [] && v.start == v.saved == v.position && v.unsaved == 0 && v.every >= 1 && !v.caughtUp
    ensures Steady(v) && Ended(v)
  {
  }

  lemma SteadyCanEnd(v: RunView)
    requires Steady(v)
    ensures Ended(v)
  {
    HandlingCanEnd(v);
  }

  lemma SteadyIsHandling(v: RunView)
    requires Steady(v)
    ensures Handling(v)
  {
  }

  lemma EndedIsAtLeastOnce(v: RunView)
    requires Ended(v)
    ensures LogOk(v.log, v.counter) && 0 <= v.saved <= v.counter && Whole(v.log, 0, v.saved, v.Handed()) && v.start <= v.saved
    ensures v.caughtUp ==> v.caughtUpPosition <= v.saved && Whole(v.log, 0, v.frontier, v.Handed())
  {
  }

  /** The signal may be given once the head is covered and its position saved. */
  lemma Certifies(v: RunView, seen: int)
    requires Steady(v) && v.saved == v.position && seen <= v.counter && Whole(v.log, 0, seen, v.Handed())
    ensures Steady(v.(caughtUp := true, caughtUpPosition := v.position, frontier := seen))
    ensures Ended(v.(caughtUp := true, caughtUpPosition := v.position, frontier := seen))
  {
  }

  lemma StartBatch(v: RunView)
    requires Handling(v)
    ensures LogOk(v.log, v.counter) && Pending(v, []) && Ended(v)
  {
  }

  /** What a read that reached the head yields completes what was handed over. */
  lemma HeadIsCovered(v: RunView, events: seq<Event>)
    requires Handling(v) && Whole(v.log, v.position, v.counter, events)
    ensures Whole(v.log, 0, v.counter, v.Handed() + events)
  {
  }

  lemma SteadyMoves(v: RunView, log: seq<LogEntry>, counter: int, events: seq<Event>)
    requires Steady(v) && Pending(v, events) && Moves(v.log, v.counter, log, counter)
    ensures Steady(v.(log := log, counter := counter)) && Pending(v.(log := log, counter := counter), events)
  {
    OthersKeepSteady(v, log, counter, events);
  }

  lemma PendingIgnoresSaves(v: RunView, w: RunView, events: seq<Event>)
    requires Pending(v, events) && w.log == v.log && w.counter == v.counter && w.position == v.position
    ensures Pending(w, events)
  {
  }

  lemma HandlingCanEnd(v: RunView)
    requires Handling(v)
    ensures Ended(v)
  {
  }

  /** Everything up to this position is among what was handled. */
  ghost predicate HandledUpTo(run: seq<Event>, position: int, accepted: seq<Event>) {
    forall e :: e in run && e.position <= position ==> e in accepted
  }

  /** The next event lies past the position: handing it over changes nothing below,
      and once it is handled the run may advance past it. */
  lemma NextIsPast(v: RunView, events: seq<Event>, accepted: seq<Event>)
    requires Steady(v) && Pending(v, events) && events != []
    ensures v.every >= 1 && v.position < events[0].position
    ensures HandledUpTo(v.run, v.position, accepted) ==>
              && HandledUpTo(v.run + [events[0]], v.position, accepted)
              && HandledUpTo(v.run + [events[0]], events[0].position, accepted + [events[0]])
  {
    hide Whole;
  }

  lemma StartIsBehind(v: RunView)
    requires Steady(v)
    ensures v.start <= v.counter
  {
  }

  lemma SteadyReads(v: RunView)
    requires Steady(v)
    ensures LogOk(v.log, v.counter)
  {
  }

  /** A batch is read while others act. */
  lemma PageArrives(v: RunView, log: seq<LogEntry>, counter: int, accepted: seq<Event>)
    requires Steady(v) && Moves(v.log, v.counter, log, counter)
    ensures Steady(v.(log := log, counter := counter))
    ensures Whole(v.log, 0, v.start, accepted) ==> Whole(log, 0, v.start, accepted)
  {
    StartBatch(v);
    SteadyMoves(v, log, counter, []);
    if Whole(v.log, 0, v.start, accepted) {
      WholeMoves(v.log, v.counter, log, counter, 0, v.start, accepted);
    }
  }

  /** What earlier runs and this one had handled covers the saved checkpoint. */
  lemma EndedIsHandledOnce(v: RunView, accepted: seq<Event>)
    requires Ended(v)
    ensures Whole(v.log, 0, v.start, accepted) && HandledUpTo(v.run, v.position, accepted) ==>
              Whole(v.log, 0, v.saved, accepted)
  {
    if Whole(v.log, 0, v.start, accepted) && HandledUpTo(v.run, v.position, accepted) {
      forall e | e in v.log && 0 < e.position <= v.saved ensures e.data in accepted {
        if e.position > v.start {
          var i :| 0 <= i < |v.log| && v.log[i] == e;
          assert e.data in v.run && e.data.position == e.position;
        }
      }
    }
  }

  /** A batch just read, or the part of it read before the reader failed, is the
      log's next events. A short one that ended by itself reached the head. */
  lemma ReadIsPending(v: RunView, count: int, k: nat)
    requires LogOk(v.log, v.counter) && count >= 1 && k <= |GlobalRead(v.log, v.position, count)|
    ensures Pending(v, GlobalRead(v.log, v.position, count)[..k])
    ensures k == |GlobalRead(v.log, v.position, count)| < count ==>
              Whole(v.log, v.position, v.counter, GlobalRead(v.log, v.position, count)[..k])
  {
    ReadIsPage(v.log, v.counter, v.position, count, k);
    hide GlobalRead, Past;
    var events := GlobalRead(v.log, v.position, count)[..k];
    forall e | e in events ensures v.position < e.position <= v.counter {
      assert Entry(e) in v.log;
    }
  }

  // ---------------------------------------------------------------------------
  // The environment and the processor
  // ---------------------------------------------------------------------------

  /** The global log, the checkpoint store and the handler of one projection. */
  class Environment {
    var log: seq<LogEntry>
    var counter: int
    var checkpoint: Option<int>
    ghost var handed: seq<Event>     // every event ever handed to the handler
    ghost var accepted: seq<Event>   // those it handled without an error
    ghost var rejections: nat        // how often it returned one
    ghost var faults: nat            // failures of anything else, cancellations included

    function Saved(): int
      reads this`checkpoint
    {
      if checkpoint.Some? then checkpoint.value else 0
    }

    /** Every event still in the log at or below the saved checkpoint was handed over. */
    ghost predicate AtLeastOnce()
      reads this
    {
      LogOk(log, counter) && 0 <= Saved() <= counter && Whole(log, 0, Saved(), handed)
    }

    /** Every event still in the log at or below the saved checkpoint was handled. */
    ghost predicate HandledOnce()
      reads this
    {
      Whole(log, 0, Saved(), accepted)
    }

    /** Whether the context is cancelled by now, or an iterator fails. */
    method Fails() returns (failed: bool)
      modifies this`faults
      ensures faults == old(faults) + if failed then 1 else 0
    {
      failed := *;
      if failed {
        faults := faults + 1;
      }
    }

    method OthersAct()
      requires LogOk(log, counter)
      modifies this`log, this`counter
      ensures Moves(old(log), old(counter), log, counter)
    {
      var after: seq<LogEntry> := *;
      var later: int := *;
      if Moves(log, counter, after, later) {
        log, counter := after, later;
      }
    }

    method Load() returns (ok: bool, position: int)
      modifies this`faults
      ensures ok ==> position == Saved()
      ensures faults == old(faults) + if ok then 0 else 1
    {
      var failed := Fails();
      return !failed, Saved();
    }

    /** The save may take effect and lose its response. */
    method Save(position: int) returns (ok: bool)
      modifies this`checkpoint, this`faults
      ensures Saved() == position || (!ok && Saved() == old(Saved()))
      ensures faults == old(faults) + if ok then 0 else 1
    {
      var failed := Fails();
      var applied: bool := *;
      if !failed || applied {
        checkpoint := Some(position);
      }
      return !failed;
    }

    /** An iterator over the log as it is at the call. */
    method ReadAll(position: int, count: int) returns (ok: bool, page: seq<Event>)
      requires LogOk(log, counter)
      modifies this`log, this`counter, this`faults
      ensures Moves(old(log), old(counter), log, counter)
      ensures page == GlobalRead(log, position, count)
      ensures faults == old(faults) + if ok then 0 else 1
    {
      OthersAct();
      var failed := Fails();
      return !failed, GlobalRead(log, position, count);
    }

    method Handle(e: Event) returns (ok: bool)
      modifies this`handed, this`accepted, this`rejections
      ensures handed == old(handed) + [e]
      ensures accepted == old(accepted) + if ok then [e] else []
      ensures rejections == old(rejections) + if ok then 0 else 1
    {
      handed := handed + [e];
      ok := *;
      if ok {
        accepted := accepted + [e];
      } else {
        rejections := rejections + 1;
      }
    }
  }

  datatype Stop = AlreadyRun | Failed | Cancelled

  class Processor {
    const batchSize: int
    const checkpointEvery: int
    const continueOnHandlerError: bool
    var position: int
    var caughtUpPosition: int
    var caughtUp: bool
    var running: bool
    var sinceCheckpoint: int
    ghost var start: int            // the checkpoint the run resumed from
    ghost var run: seq<Event>       // what this run handed over, in order
    ghost var frontier: int         // the log's counter when the head was first read

    constructor (batchSize: int, checkpointEvery: int, continueOnHandlerError: bool)
      requires batchSize >= 1 && checkpointEvery >= 1
      ensures this.batchSize == batchSize && this.checkpointEvery == checkpointEvery
      ensures this.continueOnHandlerError == continueOnHandlerError
      ensures !running && !caughtUp && position == 0 && sinceCheckpoint == 0
    {
      this.batchSize := batchSize;
      this.checkpointEvery := checkpointEvery;
      this.continueOnHandlerError := continueOnHandlerError;
      position, caughtUpPosition, caughtUp, running, sinceCheckpoint := 0, 0, false, false, 0;
      start, run, frontier := 0, [], 0;
    }

    ghost function View(env: Environment, before: seq<Event>): RunView
      reads this, env
    {
      RunView(env.log, env.counter, env.Saved(), before, run, start, position, sinceCheckpoint, checkpointEvery,
              caughtUp, caughtUpPosition, frontier)
    }

    /** Unless told to go on after errors, the run only advances past what was handled. */
    ghost predicate Handled(env: Environment)
      reads this, env
    {
      !continueOnHandlerError ==> HandledUpTo(run, position, env.accepted)
    }

    /** What earlier runs had handled at the checkpoint this one resumed from. */
    ghost predicate Inherited(env: Environment)
      reads this, env
    {
      Whole(env.log, 0, start, env.accepted)
    }

    /** Nothing failed since, and no handler error that counts. */
    ghost predicate Unhindered(env: Environment, faults: nat, rejections: nat)
      reads env
    {
      env.faults == faults && (continueOnHandlerError || env.rejections == rejections)
    }

    /** A rejection that counts is of the run's last event, and the run stays before it. */
    ghost predicate Held(env: Environment, rejections: nat)
      reads this, env
    {
      !continueOnHandlerError && env.rejections != rejections ==> run != [] && position < run[|run| - 1].position
    }

    method SaveCheckpoint(env: Environment, ghost before: seq<Event>) returns (ok: bool)
      requires Handling(View(env, before))
      modifies env`checkpoint, env`faults, this`sinceCheckpoint
      ensures Handling(View(env, before))
      ensures ok ==> Steady(View(env, before)) && env.Saved() == position
      ensures env.faults == old(env.faults) + if ok then 0 else 1
    {
      ghost var v := View(env, before);
      SavedKeepsSteady(v);
      ok := env.Save(position);
      if ok {
        sinceCheckpoint := 0;
      }
      assert env.Saved() == v.position ==> Handling(v.(saved := v.position));
    }

    /** Hands one buffered event over and advances past it, which only a fault or, by
        default, the handler's error can prevent. */
    method HandleNext(env: Environment, events: seq<Event>, ghost before: seq<Event>) returns (ok: bool)
      requires Steady(View(env, before)) && Pending(View(env, before), events) && events != []
      requires env.handed == before + run && Handled(env)
      modifies env, this`position, this`sinceCheckpoint, this`run
      ensures env.handed == before + run && run == old(run) + [events[0]]
      ensures Ended(View(env, before)) && Handled(env)
      ensures ok ==> Steady(View(env, before)) && Pending(View(env, before), events[1..])
      ensures Moves(old(env.log), old(env.counter), env.log, env.counter)
      ensures old(Inherited(env)) ==> Inherited(env)
      ensures ok <==> Unhindered(env, old(env.faults), old(env.rejections))
      ensures env.faults >= old(env.faults) && env.rejections >= old(env.rejections)
      ensures Held(env, old(env.rejections))
    {
      hide Steady, Handling, Pending, Ended, Moves, LogOk, Whole, InOrder, HandledUpTo;
      Settle(env, events, before);
      ok := HandleSettled(env, events, before);
    }

    method HandleSettled(env: Environment, events: seq<Event>, ghost before: seq<Event>) returns (ok: bool)
      requires Steady(View(env, before)) && Pending(View(env, before), events) && events != []
      requires env.handed == before + run && Handled(env)
      modifies env`handed, env`accepted, env`rejections, env`checkpoint, env`faults
      modifies this`position, this`sinceCheckpoint, this`run
      ensures env.handed == before + run && run == old(run) + [events[0]]
      ensures Ended(View(env, before)) && Handled(env)
      ensures ok ==> Steady(View(env, before)) && Pending(View(env, before), events[1..])
      ensures old(Inherited(env)) ==> Inherited(env)
      ensures ok <==> Unhindered(env, old(env.faults), old(env.rejections))
      ensures env.faults >= old(env.faults) && env.rejections >= old(env.rejections)
      ensures Held(env, old(env.rejections))
    {
      hide Steady, Handling, Pending, Ended, LogOk, Whole, InOrder, HandledUpTo;
      ghost var v := View(env, before);
      NextIsPast(v, events, env.accepted);
      HandedOver(v, events);
      AdvancedPast(v, events);
      var handled := HandOver(env, events[0]);
      assert View(env, before) == v.(run := v.run + [events[0]]);
      ok := handled || continueOnHandlerError;
      if ok {
        ok := Advance(env, events, before);
      }
    }

    /** Hands one event over; what was handled before stays handled. */
    method HandOver(env: Environment, e: Event) returns (handled: bool)
      modifies env`handed, env`accepted, env`rejections, this`run
      ensures env.handed == old(env.handed) + [e] && run == old(run) + [e]
      ensures env.accepted == if handled then old(env.accepted) + [e] else old(env.accepted)
      ensures env.rejections == old(env.rejections) + if handled then 0 else 1
      ensures old(Inherited(env)) ==> Inherited(env)
    {
      hide Whole;
      handled := env.Handle(e);
      run := run + [e];
      if old(Inherited(env)) {
        WholeGrows(env.log, 0, start, old(env.accepted), if handled then [e] else []);
      }
    }

    /** Others act; the run stands where it stood. */
    method Settle(env: Environment, events: seq<Event>, ghost before: seq<Event>)
      requires Steady(View(env, before)) && Pending(View(env, before), events)
      modifies env`log, env`counter
      ensures Steady(View(env, before)) && Pending(View(env, before), events)
      ensures Moves(old(env.log), old(env.counter), env.log, env.counter)
      ensures old(Inherited(env)) ==> Inherited(env)
    {
      assert LogOk(env.log, env.counter);
      StartIsBehind(View(env, before));
      hide Steady, Handling, Pending, LogOk, Moves, Whole;
      ghost var v := View(env, before);
      env.OthersAct();
      if Whole(v.log, 0, start, env.accepted) {
        WholeMoves(v.log, v.counter, env.log, env.counter, 0, start, env.accepted);
      }
      SteadyMoves(v, env.log, env.counter, events);
      assert View(env, before) == v.(log := env.log, counter := env.counter);
    }

    method Advance(env: Environment, events: seq<Event>, ghost before: seq<Event>) returns (ok: bool)
      requires events != [] && checkpointEvery >= 1
      requires var w := View(env, before).(position := events[0].position, unsaved := sinceCheckpoint + 1);
               Handling(w) && Pending(w, events[1..])
      modifies env`checkpoint, env`faults, this`position, this`sinceCheckpoint
      ensures Ended(View(env, before)) && position == events[0].position
      ensures ok <==> env.faults == old(env.faults)
      ensures env.faults >= old(env.faults)
      ensures ok ==> Steady(View(env, before)) && Pending(View(env, before), events[1..])
    {
      hide Handling, Pending, Ended, LogOk;
      position := events[0].position;
      sinceCheckpoint := sinceCheckpoint + 1;
      ghost var v := View(env, before);
      HandlingCanEnd(v);
      ok := true;
      if sinceCheckpoint >= checkpointEvery {
        ok := SaveCheckpoint(env, before);
        HandlingCanEnd(View(env, before));
        PendingIgnoresSaves(v, View(env, before), events[1..]);
      }
    }

    /** Reads one batch, then hands it over. At the head, everything published when
        it was read has been handed over; short of it the batch was full. */
    method Drain(env: Environment, ghost before: seq<Event>) returns (ok: bool, atHead: bool, ghost seen: int)
      requires Steady(View(env, before)) && env.handed == before + run && Handled(env) && batchSize >= 1
      modifies env, this`position, this`sinceCheckpoint, this`run
      ensures env.handed == before + run && Ended(View(env, before)) && Handled(env)
      ensures ok ==> Steady(View(env, before))
      ensures ok && atHead ==> seen <= env.counter && Whole(env.log, 0, seen, env.handed)
      ensures ok && !atHead ==> |run| == |old(run)| + batchSize
      ensures old(Inherited(env)) ==> Inherited(env)
      ensures ok <==> Unhindered(env, old(env.faults), old(env.rejections))
      ensures Held(env, old(env.rejections))
    {
      hide Pending, Steady, Ended, Whole, LogOk, InOrder, Handling;
      SteadyCanEnd(View(env, before));
      var events, broken;
      ok, broken, events, seen := ReadBatch(env, before);
      SteadyCanEnd(View(env, before));
      atHead := |events| < batchSize;
      if !ok {
        return;
      }
      ghost var short := atHead && !broken;
      ok := HandleBatch(env, events, before, short, seen);
      ok := ok && !broken;
    }

    /** Buffers one batch and closes its iterator. What was read before the iterator
        broke is kept; a whole batch short of its size ends at the head. */
    method ReadBatch(env: Environment, ghost before: seq<Event>)
        returns (ok: bool, broken: bool, events: seq<Event>, ghost seen: int)
      requires Steady(View(env, before)) && env.handed == before + run && batchSize >= 1
      modifies env`log, env`counter, env`faults
      ensures Steady(View(env, before)) && seen == env.counter
      ensures ok ==> Pending(View(env, before), events) && |events| <= batchSize
      ensures ok && !broken && |events| < batchSize ==> Whole(env.log, 0, seen, env.handed + events)
      ensures old(Inherited(env)) ==> Inherited(env)
      ensures ok && !broken <==> env.faults == old(env.faults)
      ensures env.faults >= old(env.faults)
    {
      hide Pending, Steady, Whole, LogOk, InOrder, Handling, Moves, GlobalRead;
      broken, events := false, [];
      StartBatch(View(env, before)) by { SteadyIsHandling(View(env, before)); }
      var page;
      ok, page := env.ReadAll(position, batchSize);
      ghost var v := View(env, before);
      PageArrives(v.(log := old(env.log), counter := old(env.counter)), v.log, v.counter, env.accepted);
      seen := env.counter;
      if !ok {
        return;
      }
      var n := 0;
      while n < batchSize && !broken && n < |page|
        invariant 0 <= n <= |page| && n <= batchSize && View(env, before) == v
        invariant env.faults == old(env.faults) + if broken then 1 else 0
      {
        broken := env.Fails();
        if !broken {
          n := n + 1;
        }
      }
      var unclosed := env.Fails();
      if unclosed {
        return false, broken, [], seen;
      }
      events := page[..n];
      assert View(env, before) == v;
      ReadIsPending(v, batchSize, n) by { SteadyReads(v); }
      if n == |page| < batchSize {
        HeadIsCovered(v, events) by { SteadyIsHandling(v); }
      }
    }

    /** Hands a batch over, one event after the other. */
    method HandleBatch(env: Environment, events: seq<Event>, ghost before: seq<Event>, ghost short: bool, ghost seen: int)
        returns (ok: bool)
      requires Steady(View(env, before)) && Pending(View(env, before), events)
      requires env.handed == before + run && Handled(env)
      requires seen <= env.counter && (short ==> Whole(env.log, 0, seen, env.handed + events))
      modifies env, this`position, this`sinceCheckpoint, this`run
      ensures env.handed == before + run && Ended(View(env, before)) && Handled(env)
      ensures ok ==> Steady(View(env, before)) && run == old(run) + events
      ensures ok && short ==> seen <= env.counter && Whole(env.log, 0, seen, env.handed)
      ensures old(Inherited(env)) ==> Inherited(env)
      ensures ok <==> Unhindered(env, old(env.faults), old(env.rejections))
      ensures env.faults >= old(env.faults)
      ensures Held(env, old(env.rejections))
    {
      hide Steady, Ended, Whole, LogOk, InOrder, Handling, Pending;
      SteadyCanEnd(View(env, before));
      for i := 0 to |events|
        invariant Steady(View(env, before)) && Ended(View(env, before)) && env.handed == before + run && Handled(env)
        invariant Pending(View(env, before), events[i..])
        invariant seen <= env.counter && run == old(run) + events[..i]
        invariant short ==> Whole(env.log, 0, seen, env.handed + events[i..])
        invariant old(Inherited(env)) ==> Inherited(env)
        invariant Unhindered(env, old(env.faults), old(env.rejections))
      {
        var cancelled := env.Fails();
        if cancelled {
          return false;
        }
        ghost var log, counter, handed := env.log, env.counter, env.handed;
        ok := HandleNext(env, events[i..], before);
        if short {
          WholeMoves(log, counter, env.log, env.counter, 0, seen, handed + events[i..]);
          assert handed + events[i..] == env.handed + events[i + 1..];
        }
        if !ok {
          return false;
        }
        assert events[i..][1..] == events[i + 1..];
      }
      assert env.handed + events[|events|..] == env.handed;
      var cancelled := env.Fails();
      return !cancelled;
    }

    /** One run, observed for any number of drain cycles, from whatever checkpoint
        earlier runs left, wherever and for whatever reason it stops. */
    method Run(env: Environment, cycles: nat) returns (stop: Stop)
      requires batchSize >= 1 && checkpointEvery >= 1 && !caughtUp && sinceCheckpoint == 0 && env.AtLeastOnce()
      modifies env, this
      ensures env.AtLeastOnce() && old(env.Saved()) <= env.Saved()
      ensures old(running) ==> stop == AlreadyRun && env.handed == old(env.handed)
      ensures !stop.AlreadyRun? && env.handed != old(env.handed) ==>
                start == old(env.Saved()) && env.handed == old(env.handed) + run && Ended(View(env, old(env.handed)))
      ensures caughtUp ==> caughtUpPosition <= env.Saved() && Whole(env.log, 0, frontier, env.handed)
      ensures !continueOnHandlerError && old(env.HandledOnce()) ==> env.HandledOnce()
      ensures !stop.AlreadyRun? && !continueOnHandlerError && env.rejections != old(env.rejections) ==>
                run != [] && env.Saved() < run[|run| - 1].position
      ensures stop.Failed? ==> !Unhindered(env, old(env.faults), old(env.rejections))
    {
      if running {
        return AlreadyRun;
      }
      running := true;
      var loaded, checkpoint := env.Load();
      if !loaded {
        return Failed;
      }
      position, start, run := checkpoint, checkpoint, [];
      ghost var before := env.handed;
      assert env.handed == before + run;
      StartIsSteady(View(env, before));
      EndedIsAtLeastOnce(View(env, before));
      hide Steady, Ended, Delivered, CaughtUpOk, Whole, LogOk;
      stop := Observe(env, cycles, before);
      EndedIsAtLeastOnce(View(env, before));
      EndedIsHandledOnce(View(env, before), env.accepted);
    }

    /** The run's cycles, until something stops it or nobody looks any more. */
    method Observe(env: Environment, cycles: nat, ghost before: seq<Event>) returns (stop: Stop)
      requires Steady(View(env, before)) && Ended(View(env, before)) && env.handed == before + run && Handled(env)
      requires batchSize >= 1
      modifies env, this`position, this`sinceCheckpoint, this`run, this`caughtUp, this`caughtUpPosition, this`frontier
      ensures env.handed == before + run && Ended(View(env, before)) && Handled(env)
      ensures old(Inherited(env)) ==> Inherited(env)
      ensures Held(env, old(env.rejections)) && stop != AlreadyRun
      ensures stop.Failed? ==> !Unhindered(env, old(env.faults), old(env.rejections))
    {
      hide Steady, Ended, Whole, LogOk;
      stop := Cancelled;
      for c := 0 to cycles
        invariant Steady(View(env, before)) && Ended(View(env, before)) && env.handed == before + run && Handled(env)
        invariant stop == Cancelled
        invariant old(Inherited(env)) ==> Inherited(env)
        invariant Unhindered(env, old(env.faults), old(env.rejections))
      {
        var ok;
        ok, stop := Cycle(env, before);
        if !ok {
          return;
        }
      }
    }

    /** One drain, and at the head a save and, the first time, the signal. Unless
        something fails the run is caught up or a full batch further. */
    method Cycle(env: Environment, ghost before: seq<Event>) returns (ok: bool, stop: Stop)
      requires Steady(View(env, before)) && env.handed == before + run && Handled(env) && batchSize >= 1
      modifies env, this`position, this`sinceCheckpoint, this`run, this`caughtUp, this`caughtUpPosition, this`frontier
      ensures env.handed == before + run && Ended(View(env, before)) && Handled(env)
      ensures ok ==> Steady(View(env, before)) && stop == Cancelled
      ensures ok ==> caughtUp || |run| == |old(run)| + batchSize
      ensures old(Inherited(env)) ==> Inherited(env)
      ensures ok <==> Unhindered(env, old(env.faults), old(env.rejections))
      ensures Held(env, old(env.rejections)) && stop != AlreadyRun
    {
      hide Steady, Ended, Handling, Whole, LogOk;
      SteadyIsHandling(View(env, before));
      HandlingCanEnd(View(env, before));
      ok, stop := false, Cancelled;
      var cancelled := env.Fails();
      if cancelled {
        return;
      }
      var atHead;
      ghost var seen;
      ok, atHead, seen := Drain(env, before);
      if ok && atHead {
        ok := Signal(env, seen, before);
      }
      if !ok {
        stop := Failed;
      }
    }

    /** The head position is saved before anyone can act on being caught up. */
    method Signal(env: Environment, ghost seen: int, ghost before: seq<Event>) returns (ok: bool)
      requires Steady(View(env, before)) && env.handed == before + run
      requires seen <= env.counter && Whole(env.log, 0, seen, env.handed)
      modifies env`checkpoint, env`faults, this`sinceCheckpoint, this`caughtUp, this`caughtUpPosition, this`frontier
      ensures Ended(View(env, before))
      ensures ok ==> Steady(View(env, before)) && caughtUp
      ensures ok <==> env.faults == old(env.faults)
      ensures env.faults >= old(env.faults)
    {
      hide Steady, Ended, Handling, Whole, LogOk;
      SteadyIsHandling(View(env, before));
      var cancelled := env.Fails();
      if cancelled {
        HandlingCanEnd(View(env, before));
        return false;
      }
      ok := SaveCheckpoint(env, before);
      HandlingCanEnd(View(env, before));
      if !ok {
        return;
      }
      cancelled := env.Fails();
      if cancelled {
        return false;
      }
      if !caughtUp {
        Certifies(View(env, before), seen);
        caughtUpPosition, frontier, caughtUp := position, seen, true;
      }
    }
  }
}
