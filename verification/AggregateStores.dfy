/** Event-sourced aggregates and the stores that load and save them
    (aggregatestore/aggregate.go, aggregatestore/event_sourced_store.go,
    aggregatestore/snapshotting_store.go, aggregatestore/cached_store.go). A store
    is any stack of snapshotting and caching layers over the event-sourced one. An
    aggregate at version v holds the fold of its stream's events 1..v whatever
    succeeds, fails or is lost, and a save's error is truthful about its append. */
module AggregateStores {
  import opened Base
  import opened SaveOutcomes

  type AggregateID = nat

  const NIL_ID: AggregateID := 0

  // ---------------------------------------------------------------------------
  // Replay
  // ---------------------------------------------------------------------------

  /** The state that plain replay of the events reaches. */
  function Replay<S, E>(apply: (E, S) -> S, initial: S, events: seq<E>): S {
    if events == [] then initial
    else apply(events[|events| - 1], Replay(apply, initial, events[..|events| - 1]))
  }

  /** An event with the version the event store assigned it. */
  datatype Versioned<E> = Versioned(version: int, event: E)

  /** An event to save; `reserved` when its metadata uses a reserved key. */
  datatype Unsaved<E> = Unsaved(event: E, reserved: bool)

  function Payloads<E>(events: seq<Unsaved<E>>): (r: seq<E>)
    ensures |r| == |events| && forall i :: 0 <= i < |r| ==> r[i] == events[i].event
  {
    seq(|events|, i requires 0 <= i < |events| => events[i].event)
  }

  datatype ApplyResult = Applied | NothingToApply | CannotApply

  class Aggregate<S(!new), E(!new)> {
    const id: AggregateID
    var version: int
    var state: S
    var unsaved: seq<Unsaved<E>>
    var unapplied: seq<Versioned<E>>

    constructor (id: AggregateID, state: S, version: int)
      ensures this.id == id && this.state == state && this.version == version && unsaved == [] && unapplied == []
    {
      this.id := id;
      this.state := state;
      this.version := version;
      unsaved := [];
      unapplied := [];
    }

    method Append(events: seq<Unsaved<E>>)
      modifies this`unsaved
      ensures unsaved == old(unsaved) + events
    {
      unsaved := unsaved + events;
    }

    /** Drops what is queued, leaving version and state alone. */
    method DiscardUnsavedEvents()
      modifies this`unsaved
      ensures unsaved == []
    {
      unsaved := [];
    }

    /** Applies the oldest queued event, which must be the very next version. */
    method ApplyNext(apply: (E, S) -> S) returns (r: ApplyResult)
      modifies this`version, this`state, this`unapplied
      ensures r.NothingToApply? <==> old(unapplied) == []
      ensures r.Applied? <==> old(unapplied) != [] && old(version) != MAX_INT64 && old(unapplied)[0].version == old(version) + 1
      ensures r.Applied? ==>
                && version == old(version) + 1 && state == apply(old(unapplied)[0].event, old(state))
                && unapplied == old(unapplied)[1..]
      ensures !r.Applied? ==> version == old(version) && state == old(state) && unapplied == old(unapplied)
    {
      if |unapplied| == 0 {
        return NothingToApply;
      }
      if version == MAX_INT64 || unapplied[0].version != version + 1 {
        return CannotApply;
      }
      state := apply(unapplied[0].event, state);
      version := unapplied[0].version;
      unapplied := unapplied[1..];
      return Applied;
    }
  }

  // ---------------------------------------------------------------------------
  // What the stores share
  // ---------------------------------------------------------------------------

  /** A stream: everything ever appended, and how many leading events were truncated. */
  datatype Stream<E> = Stream(base: nat, all: seq<E>)

  type Streams<E> = map<AggregateID, Stream<E>>

  predicate Extends<E(==)>(a: Streams<E>, b: Streams<E>) {
    forall id :: id in a ==> id in b && a[id].all <= b[id].all && a[id].base <= b[id].base
  }

  /** A state and the version it reflects: a snapshot, or a cache's entry. */
  datatype Held<S> = Held(version: int, state: S)

  datatype ReadResult<E> =
    | NotFound
    | ReadFailed
    | Events(events: seq<Versioned<E>>, broken: bool)  // broken: the iterator failed after these

  datatype AppendResult = Written(count: int) | Mismatch | AppendFailed

  /** The version a whole read ends at. */
  function ReadEnd(tip: nat, after: int, count: int): int {
    if tip <= after then after else if 0 < count < tip - after then after + count else tip
  }

  /** The event store, snapshot stores and caches of one aggregate type. Every
      call on the event store may find that others have written first; any of them
      may fail, and an append may commit and lose its response. */
  class Storage<S(!new), E(==, !new)> {
    const initial: AggregateID -> S
    const apply: (E, S) -> S
    var streams: Streams<E>
    var shelves: map<nat, map<AggregateID, seq<Held<S>>>>
    var caches: map<nat, map<AggregateID, Held<S>>>
    ghost var faults: nat   // how often a call failed through no fault of its caller

    constructor (initial: AggregateID -> S, apply: (E, S) -> S)
      ensures this.initial == initial && this.apply == apply && Coherent()
    {
      this.initial := initial;
      this.apply := apply;
      streams, shelves, caches := map[], map[], map[];
      faults := 0;
    }

    function All(id: AggregateID): seq<E>
      reads this`streams
    {
      if id in streams then streams[id].all else []
    }

    function Base(id: AggregateID): nat
      reads this`streams
    {
      if id in streams then streams[id].base else 0
    }

    /** The held state is the replay of the stream's events up to its version. */
    ghost predicate Replays(id: AggregateID, version: int, state: S)
      reads this`streams
    {
      0 <= version <= |All(id)| && state == Replay(apply, initial(id), All(id)[..version])
    }

    /** Every snapshot and cache entry agrees with plain replay. */
    ghost predicate Coherent()
      reads this`streams, this`shelves, this`caches
    {
      && (forall n, id, h :: n in shelves && id in shelves[n] && h in shelves[n][id] ==> Replays(id, h.version, h.state))
      && (forall n, id :: n in caches && id in caches[n] ==> Replays(id, caches[n][id].version, caches[n][id].state))
    }

    /** The event is the stream's at its version. */
    ghost predicate Recorded(id: AggregateID, version: int, event: E)
      reads this`streams
    {
      1 <= version <= |All(id)| && event == All(id)[version - 1]
    }

    /** The aggregate is its stream's replay, and queues only events of the stream. */
    ghost predicate Honest(a: Aggregate<S, E>)
      reads this`streams, a
    {
      && Replays(a.id, a.version, a.state)
      && forall e :: e in a.unapplied ==> Recorded(a.id, e.version, e.event)
    }

    /** Whether something fails now. */
    method Fails() returns (failed: bool)
      modifies this`faults
      ensures faults == old(faults) + if failed then 1 else 0
    {
      failed := *;
      if failed {
        faults := faults + 1;
      }
    }

    /** Other writers, and truncation. */
    method OthersWrite()
      modifies this`streams
      ensures Extends(old(streams), streams)
      ensures old(Coherent()) ==> Coherent()
      ensures forall a: Aggregate<S, E> :: old(allocated(a) && Honest(a)) ==> Honest(a)
    {
      var next: Streams<E> := *;
      if Extends(streams, next) {
        ghost var was := streams;
        streams := next;
        forall id, version, state | old(Replays(id, version, state)) ensures Replays(id, version, state) {
          assert old(All(id)) <= All(id);
          assert All(id)[..version] == old(All(id))[..version];
        }
        forall id, version, event | old(Recorded(id, version, event)) ensures Recorded(id, version, event) {
          assert old(All(id)) <= All(id);
        }
      }
    }

    /** Up to `count` events (all when not positive) past a version, oldest first. */
    method ReadStream(id: AggregateID, after: int, count: int) returns (r: ReadResult<E>)
      requires after >= 0
      modifies this`streams, this`faults
      ensures Extends(old(streams), streams)
      ensures old(Coherent()) ==> Coherent()
      ensures forall a: Aggregate<S, E> :: old(allocated(a) && Honest(a)) ==> Honest(a)
      ensures r.NotFound? ==> All(id) == []
      ensures faults == old(faults) + if r.ReadFailed? || (r.Events? && r.broken) then 1 else 0
      ensures r.Events? && 0 < count ==> |r.events| <= count
      ensures r.Events? ==>
                && (forall i :: 0 <= i < |r.events| ==> Recorded(id, r.events[i].version, r.events[i].event))
                && (Base(id) <= after ==>
                      && (forall i :: 0 <= i < |r.events| ==> r.events[i].version == after + 1 + i)
                      && (!r.broken ==> after + |r.events| == ReadEnd(|All(id)|, after, count)))
    {
      OthersWrite();
      var fails := Fails();
      if fails {
        return ReadFailed;
      }
      if |All(id)| == 0 {
        return NotFound;
      }
      ghost var here := streams;
      var first := if after < Base(id) then Base(id) else after;
      var events: seq<Versioned<E>> := [];
      while first + |events| < |All(id)| && !(0 < count <= |events|)
        invariant forall i :: 0 <= i < |events| ==>
                    events[i].version == first + 1 + i && Recorded(id, events[i].version, events[i].event)
        invariant first + |events| <= |All(id)| || events == []
        invariant 0 < count ==> |events| <= count
        invariant streams == here && faults == old(faults)
        decreases |All(id)| - |events|
      {
        var breaks := Fails();
        if breaks {
          return Events(events, true);
        }
        events := events + [Versioned(first + |events| + 1, All(id)[first + |events|])];
      }
      return Events(events, false);
    }

    /** Appends under an expected version. A mismatch appends nothing; any other
        failure may have committed, and a store may report too few events. */
    method AppendStream(id: AggregateID, events: seq<E>, expected: int) returns (r: AppendResult, ghost added: seq<E>)
      modifies this`streams, this`faults
      ensures Extends(old(streams), streams)
      ensures old(Coherent()) ==> Coherent()
      ensures forall a: Aggregate<S, E> :: old(allocated(a) && Honest(a)) ==> Honest(a)
      ensures r.Written? ==> added == events
      ensures r.Mismatch? ==> added == [] && |All(id)| != expected
      ensures faults == old(faults) + if r.AppendFailed? || (r.Written? && r.count != |events|) then 1 else 0
      ensures added == [] || added == events
      ensures added != [] ==>
                0 <= expected && |All(id)| == expected + |added| && All(id)[expected..] == added && |old(All(id))| <= expected
    {
      OthersWrite();
      added := [];
      if |All(id)| != expected {
        return Mismatch, [];
      }
      var fails := Fails();
      if fails {
        return AppendFailed, [];
      }
      Extend(id, events);
      added := events;
      var loses := Fails();
      var count: int := *;
      r := if !loses then Written(|events|) else if count != |events| then Written(count) else AppendFailed;
    }

    method Extend(id: AggregateID, events: seq<E>)
      modifies this`streams
      ensures Extends(old(streams), streams) && All(id) == old(All(id)) + events
      ensures old(Coherent()) ==> Coherent()
      ensures forall a: Aggregate<S, E> :: old(allocated(a) && Honest(a)) ==> Honest(a)
    {
      streams := streams[id := Stream(Base(id), All(id) + events)];
      forall other, version, state | old(Replays(other, version, state)) ensures Replays(other, version, state) {
        assert All(other)[..version] == old(All(other))[..version];
      }
      forall other, version, event | old(Recorded(other, version, event)) ensures Recorded(other, version, event) {
      }
    }

    /** Some kept snapshot at or below a version (any when not positive), unless
        there is none, the read fails, or the payload cannot be used. */
    method ReadSnapshot(shelf: nat, id: AggregateID, max: int) returns (r: Option<Held<S>>)
      requires Coherent()
      modifies this`faults
      ensures r.Some? ==> Replays(id, r.value.version, r.value.state) && (max > 0 ==> r.value.version <= max)
      ensures Coherent() && faults >= old(faults)
    {
      var fails := Fails();
      if fails || shelf !in shelves || id !in shelves[shelf] {
        return None;
      }
      var i: int := *;
      if 0 <= i < |shelves[shelf][id]| && (max > 0 ==> shelves[shelf][id][i].version <= max) {
        assert shelves[shelf][id][i] in shelves[shelf][id];
        return Some(shelves[shelf][id][i]);
      }
      return None;
    }

    /** A snapshot of this version is kept. */
    ghost predicate Keeps(shelf: nat, id: AggregateID, version: int)
      reads this`shelves
    {
      shelf in shelves && id in shelves[shelf] && exists h :: h in shelves[shelf][id] && h.version == version
    }

    /** Keeps a snapshot, and perhaps only some of the earlier ones. */
    method WriteSnapshot(shelf: nat, id: AggregateID, version: int, state: S)
      requires Coherent() && Replays(id, version, state)
      modifies this`shelves, this`faults
      ensures Coherent() && faults >= old(faults)
      ensures faults == old(faults) ==> Keeps(shelf, id, version)
    {
      var fails := Fails();
      if fails {
        return;
      }
      var drop: int := *;
      var kept: map<AggregateID, seq<Held<S>>> := if shelf in shelves then shelves[shelf] else map[];
      var older := if id in kept then kept[id] else [];
      var retained := (if 0 <= drop <= |older| then older[drop..] else older) + [Held(version, state)];
      shelves := shelves[shelf := kept[id := retained]];
    }

    function Entry(cache: nat, id: AggregateID): Option<Held<S>>
      reads this`caches
    {
      if cache in caches && id in caches[cache] then Some(caches[cache][id]) else None
    }

    method GetAggregate(cache: nat, id: AggregateID) returns (r: Option<Held<S>>)
      requires Coherent()
      modifies this`faults
      ensures Coherent() && faults >= old(faults)
      ensures r.Some? ==> Replays(id, r.value.version, r.value.state) && Entry(cache, id) == r
      ensures r.None? && faults == old(faults) ==> Entry(cache, id).None?
    {
      var fails := Fails();
      if fails || cache !in caches || id !in caches[cache] {
        return None;
      }
      return Some(caches[cache][id]);
    }

    method PutAggregate(cache: nat, id: AggregateID, version: int, state: S)
      requires Coherent() && Replays(id, version, state)
      modifies this`caches, this`faults
      ensures Coherent() && faults >= old(faults)
      ensures faults == old(faults) ==> Entry(cache, id) == Some(Held(version, state))
    {
      hide Replay;
      var fails := Fails();
      if fails {
        return;
      }
      caches := caches[cache := (if cache in caches then caches[cache] else map[])[id := Held(version, state)]];
    }
  }

  // ---------------------------------------------------------------------------
  // The stores
  // ---------------------------------------------------------------------------

  datatype HydrateResult =
    | Hydrated
    | NilAggregate
    | InvalidTarget
    | NoReader
    | PastTarget
    | AggregateNotFound
    | HydrateFailed

  datatype LoadResult<S(!new), E(!new)> = Loaded(aggregate: Aggregate<S, E>) | LoadFailed(why: HydrateResult)

  function SaveError(operation: string, err: Error): Error {
    Wrap(operation, err)
  }

  /** A refusal raised before anything was appended, or a failure after everything was. */
  function SaveFailure(operation: string, appended: bool): Error {
    SaveError(operation, WithSaveOutcome(appended, Leaf(operation)))
  }

  lemma SaveFailureMeans(operation: string, appended: bool)
    ensures Means(SaveFailure(operation, appended), if appended then Appended else NothingAppended)
  {
    MarkingShadows(appended, Leaf(operation));
    WrappingKeepsTheVerdict(operation, WithSaveOutcome(appended, Leaf(operation)),
                            if appended then Appended else NothingAppended);
  }

  /** An append error the event store vouches nothing for. */
  lemma UnmarkedMeansUnknown(operation: string, message: string)
    ensures Means(SaveError(operation, Leaf(message)), Unknown)
  {
    forall d: nat ensures !MarkedAt(Leaf(message), d) {
    }
    assert Means(Leaf(message), Unknown);
    WrappingKeepsTheVerdict(operation, Leaf(message), Unknown);
  }

  /** The verdict of the error a save of no aggregate raises: that nothing was
      appended exactly when the store marks it, and unknown otherwise. */
  ghost predicate NilMeans(err: Error, marks: bool) {
    (Means(err, NothingAppended) <==> marks) && (Means(err, Unknown) <==> !marks)
  }

  lemma NilIsMarked(operation: string)
    ensures NilMeans(SaveFailure(operation, false), true)
  {
    SaveFailureMeans(operation, false);
    if Means(SaveFailure(operation, false), Unknown) {
      MeansOne(SaveFailure(operation, false), Unknown, NothingAppended);
    }
  }

  lemma NilIsUnmarked(operation: string, message: string)
    ensures NilMeans(SaveError(operation, Leaf(message)), false)
  {
    UnmarkedMeansUnknown(operation, message);
    if Means(SaveError(operation, Leaf(message)), NothingAppended) {
      MeansOne(SaveError(operation, Leaf(message)), Unknown, NothingAppended);
    }
  }

  /** What a save's error says is what the save did. */
  ghost predicate Truthful<E>(r: Option<Error>, added: seq<E>, events: seq<E>) {
    && (r.None? ==> added == events)
    && (r.Some? ==>
          && (Means(r.value, Appended) ==> added == events)
          && (Means(r.value, NothingAppended) ==> added == []))
  }

  /** What any save leaves: an honest aggregate, a truthful result, and the events
      appended, if any, right after the prefix the aggregate was the fold of. */
  ghost predicate Saved<S(!new), E(!new)>(w: Storage<S, E>, a: Aggregate<S, E>, r: Option<Error>, added: seq<E>,
                                              before: seq<E>, version: int, unsaved: seq<Unsaved<E>>,
                                              unapplied: seq<Versioned<E>>)
    reads w`streams, a
  {
    && w.Honest(a)
    && Truthful(r, added, Payloads(unsaved))
    && (added == [] || added == Payloads(unsaved))
    && (added != [] ==> |before| == version && w.All(a.id) == before + added)
    && (r.None? ==> a.unsaved == [])
    && (r.None? && added != [] ==> a.version + |a.unapplied| == version + |unapplied| + |added|)
    && (r.None? && added != [] && a.unapplied == [] ==> a.version == |w.All(a.id)|)
    && (r.Some? && a.unsaved != [] ==> a.unsaved == unsaved && a.version == version)
    && (r.Some? ==> a.unsaved == unsaved || (a.unsaved == [] && added != []))
  }

  lemma TruthfulFailure<E>(operation: string, appended: bool, added: seq<E>, events: seq<E>)
    requires added == if appended then events else []
    ensures Truthful(Some(SaveFailure(operation, appended)), added, events)
  {
    SaveFailureMeans(operation, appended);
    var e := SaveFailure(operation, appended);
    if Means(e, Appended) && Means(e, NothingAppended) {
      MeansOne(e, Appended, NothingAppended);
    }
    if Means(e, if appended then NothingAppended else Appended) {
      MeansOne(e, Appended, NothingAppended);
    }
  }

  lemma TruthfulSuccess<E>(added: seq<E>)
    ensures Truthful(None, added, added)
  {
  }

  lemma TruthfulNone<E>(added: seq<E>, events: seq<E>)
    requires Truthful(None, added, events)
    ensures added == events
  {
  }

  lemma TruthfulUnknown<E>(operation: string, added: seq<E>, events: seq<E>)
    ensures Truthful(Some(SaveError(operation, Leaf(operation))), added, events)
  {
    UnmarkedMeansUnknown(operation, operation);
    var e := SaveError(operation, Leaf(operation));
    if Means(e, Appended) {
      MeansOne(e, Appended, Unknown);
    }
    if Means(e, NothingAppended) {
      MeansOne(e, NothingAppended, Unknown);
    }
  }

  lemma TruthfulWrapped<E>(operation: string, inner: Error, added: seq<E>, events: seq<E>)
    requires Truthful(Some(inner), added, events)
    ensures Truthful(Some(SaveError(operation, inner)), added, events)
  {
    WrappingKeepsTheVerdict(operation, inner, Appended);
    WrappingKeepsTheVerdict(operation, inner, NothingAppended);
  }

  /** Applying the next event of the stream is one more step of its replay. */
  lemma ReplayStep<S, E>(apply: (E, S) -> S, initial: S, events: seq<E>, version: nat)
    requires version < |events|
    ensures Replay(apply, initial, events[..version + 1]) == apply(events[version], Replay(apply, initial, events[..version]))
  {
    assert events[..version + 1][..version] == events[..version];
  }

  /** Events queued at the versions right after this one. */
  function Queued<E>(version: int, added: seq<E>): (r: seq<Versioned<E>>)
    ensures |r| == |added| && forall i :: 0 <= i < |r| ==> r[i] == Versioned(version + 1 + i, added[i])
  {
    seq(|added|, i requires 0 <= i < |added| => Versioned(version + 1 + i, added[i]))
  }

  /** What is queued can be applied to the end: it continues the version, without
      exhausting it. */
  predicate InStep<E>(version: int, unapplied: seq<Versioned<E>>) {
    && (unapplied == [] || version + |unapplied| <= MAX_INT64)
    && forall i :: 0 <= i < |unapplied| ==> unapplied[i].version == version + 1 + i
  }

  lemma InStepAfter<E>(version: int, unapplied: seq<Versioned<E>>)
    requires InStep(version, unapplied) && unapplied != []
    ensures unapplied[0].version == version + 1 && version < MAX_INT64 && InStep(version + 1, unapplied[1..])
  {
  }

  lemma NothingQueuedIsInStep<E>(version: int)
    ensures InStep<E>(version, [])
  {
  }

  lemma ExtendsItself<E>(streams: Streams<E>)
    ensures Extends(streams, streams)
  {
  }

  lemma HonestIsWithin<S(!new), E(!new)>(w: Storage<S, E>, a: Aggregate<S, E>)
    requires w.Honest(a)
    ensures 0 <= a.version <= |w.All(a.id)|
  {
  }

  lemma QueuedInStep<E>(version: int, added: seq<E>)
    requires version + |added| <= MAX_INT64
    ensures InStep(version, Queued(version, added))
  {
  }

  /** Why a hydration may fail when no call does: the request cannot be met, or the
      aggregate was left with events of its own, or the stream is truncated. */
  predicate Unreachable(target: int, version: int, leftover: bool, readable: bool, base: nat, tip: nat) {
    target < 0 || 0 < target < version || leftover || !readable || base > 0 || tip == 0 || tip > MAX_INT64
  }

  /** Why a save may fail when no call does: there is nothing it may append, somebody
      else wrote first, or the aggregate was left with events to apply. */
  predicate Unsavable<E>(writable: bool, version: int, unsaved: seq<Unsaved<E>>, leftover: bool, appended: bool, tip: nat) {
    || leftover
    || (!appended
        && (|| !writable || (unsaved == [] && version == 0) || |unsaved| > MAX_INT64 - version
            || (exists i :: 0 <= i < |unsaved| && unsaved[i].reserved) || tip != version))
  }

  method ApplyHonestly<S(!new), E(==, !new)>(w: Storage<S, E>, a: Aggregate<S, E>) returns (r: ApplyResult)
    requires w.Honest(a)
    modifies a`version, a`state, a`unapplied
    ensures w.Honest(a)
    ensures r.NothingToApply? <==> old(a.unapplied) == []
    ensures r.Applied? ==> a.version == old(a.version) + 1 && a.unapplied == old(a.unapplied)[1..]
    ensures !r.Applied? ==> a.version == old(a.version) && a.unapplied == old(a.unapplied)
    ensures old(a.unapplied) != [] && old(a.unapplied)[0].version == old(a.version) + 1 && old(a.version) < MAX_INT64 ==> r.Applied?
  {
    ghost var was := a.unapplied;
    r := a.ApplyNext(w.apply);
    if r.Applied? {
      assert was[0] in was;
      ReplayStep(w.apply, w.initial(a.id), w.All(a.id), old(a.version));
    }
  }

  /** Where a whole hydration ends: at the target, or at the tip when there is no
      target below it. Only truncation can hide a stretch of events. */
  predicate Reached(target: int, version: int, base: nat, tip: nat) {
    && (target > 0 ==> version <= target)
    && (base == 0 ==> version == if 0 < target < tip then target else tip)
  }

  /** Queues and applies the events read, each at once. */
  method ApplyRead<S(!new), E(==, !new)>(w: Storage<S, E>, a: Aggregate<S, E>, events: seq<Versioned<E>>) returns (ok: bool)
    requires w.Honest(a)
    requires forall i :: 0 <= i < |events| ==> w.Recorded(a.id, events[i].version, events[i].event)
    modifies a`version, a`state, a`unapplied
    ensures w.Honest(a)
    ensures ok ==> a.version == old(a.version) + |events|
    ensures ok && old(a.unapplied) == [] ==> a.unapplied == []
    ensures old(a.unapplied) == [] && InStep(old(a.version), events) ==> ok
  {
    for i := 0 to |events|
      invariant w.Honest(a)
      invariant a.version == old(a.version) + i
      invariant old(a.unapplied) == [] ==> a.unapplied == []
    {
      a.unapplied := a.unapplied + [events[i]];
      var applied := ApplyHonestly(w, a);
      if !applied.Applied? {
        return false;
      }
    }
    return true;
  }

  /** A stack of stores: snapshotting and caching layers over the event-sourced one. */
  datatype Store =
    | EventSourced(readable: bool, writable: bool)
    | Snapshotting(shelf: nat, readable: bool, inner: Store)
    | Cached(cache: nat, inner: Store)
  {
    predicate Readable() {
      match this
      case EventSourced(readable, _) => readable
      case Snapshotting(_, readable, inner) => readable && inner.Readable()
      case Cached(_, inner) => inner.Readable()
    }

    predicate Writable() {
      match this
      case EventSourced(_, writable) => writable
      case Snapshotting(_, _, inner) => inner.Writable()
      case Cached(_, inner) => inner.Writable()
    }

    /** Whether a save can leave what it appended queued: a snapshotting layer applies it. */
    predicate Defers() {
      match this
      case EventSourced(_, _) => true
      case Snapshotting(_, _, _) => false
      case Cached(_, inner) => inner.Defers()
    }

    method New<S(!new), E(==, !new)>(w: Storage<S, E>, id: AggregateID) returns (a: Aggregate<S, E>)
      ensures fresh(a) && a.id == id && a.version == 0 && a.unsaved == [] && a.unapplied == [] && w.Honest(a)
    {
      a := new Aggregate(id, w.initial(id), 0);
    }

    /** Events already queued on the aggregate do not change how far it gets. */
    method Hydrate<S(!new), E(==, !new)>(w: Storage<S, E>, a: Aggregate?<S, E>, target: Int64) returns (r: HydrateResult)
      requires w.Coherent() && (a != null ==> w.Honest(a))
      modifies w`streams, w`faults, if a == null then {} else {a}
      ensures w.Coherent() && Extends(old(w.streams), w.streams)
      ensures a != null ==> w.Honest(a) && a.unsaved == old(a.unsaved)
      ensures r.Hydrated? ==> a != null && target >= 0 && Reached(target, a.version, w.Base(a.id), |w.All(a.id)|)
      ensures w.faults >= old(w.faults)
      ensures a != null && !r.Hydrated? && w.faults == old(w.faults) ==>
                Unreachable(target, old(a.version), old(a.unapplied) != [], Readable(), w.Base(a.id), |w.All(a.id)|)
      decreases this
    {
      if a == null {
        return NilAggregate;
      }
      match this
      case EventSourced(_, _) => r := HydrateFromEvents(w, a, target);
      case Snapshotting(_, _, _) => r := HydrateFromSnapshot(w, a, target);
      case Cached(_, inner) => r := inner.Hydrate(w, a, target);
    }

    method HydrateFromEvents<S(!new), E(==, !new)>(w: Storage<S, E>, a: Aggregate<S, E>, target: Int64) returns (r: HydrateResult)
      requires EventSourced? && w.Coherent() && w.Honest(a)
      modifies w`streams, w`faults, a
      ensures w.Coherent() && Extends(old(w.streams), w.streams)
      ensures w.Honest(a) && a.unsaved == old(a.unsaved)
      ensures r.Hydrated? ==> target >= 0 && Reached(target, a.version, w.Base(a.id), |w.All(a.id)|)
      ensures w.faults >= old(w.faults)
      ensures !r.Hydrated? && w.faults == old(w.faults) ==>
                Unreachable(target, old(a.version), old(a.unapplied) != [], Readable(), w.Base(a.id), |w.All(a.id)|)
      decreases this, 0
    {
      if !readable {
        return NoReader;
      }
      if target < 0 {
        return InvalidTarget;
      }
      var count := 0;
      if target > 0 {
        if a.version == target {
          return Hydrated;
        }
        if a.version > target {
          return PastTarget;
        }
        count := target - a.version;
      }
      var after := a.version;
      var read := w.ReadStream(a.id, after, count);
      match read
      case NotFound =>
        return if after > 0 then Hydrated else AggregateNotFound;
      case ReadFailed =>
        return HydrateFailed;
      case Events(events, broken) =>
        var ok := ApplyRead(w, a, events);
        return if ok && !broken then Hydrated else HydrateFailed;
    }

    method HydrateFromSnapshot<S(!new), E(==, !new)>(w: Storage<S, E>, a: Aggregate<S, E>, target: Int64) returns (r: HydrateResult)
      requires Snapshotting? && w.Coherent() && w.Honest(a)
      modifies w`streams, w`faults, a
      ensures w.Coherent() && Extends(old(w.streams), w.streams)
      ensures w.Honest(a) && a.unsaved == old(a.unsaved)
      ensures r.Hydrated? ==> target >= 0 && Reached(target, a.version, w.Base(a.id), |w.All(a.id)|)
      ensures w.faults >= old(w.faults)
      ensures !r.Hydrated? && w.faults == old(w.faults) ==>
                Unreachable(target, old(a.version), old(a.unapplied) != [], Readable(), w.Base(a.id), |w.All(a.id)|)
      decreases this, 0
    {
      if target < 0 {
        return InvalidTarget;
      }
      if !readable {
        return NoReader;
      }
      if target > 0 && a.version >= target {
        r := inner.Hydrate(w, a, target);
        return;
      }
      var snapshot := w.ReadSnapshot(shelf, a.id, target);
      if snapshot.Some? {
        a.version, a.state := snapshot.value.version, snapshot.value.state;
        if target > 0 && a.version == target {
          return Hydrated;
        }
      }
      r := inner.Hydrate(w, a, target);
    }

    method Load<S(!new), E(==, !new)>(w: Storage<S, E>, id: AggregateID, target: Int64) returns (r: LoadResult<S, E>)
      requires w.Coherent()
      modifies w`streams, w`caches, w`faults
      ensures target > 0 || !Cached? ==> w.caches == old(w.caches)
      ensures w.Coherent() && Extends(old(w.streams), w.streams)
      ensures r.Loaded? ==> fresh(r.aggregate) && r.aggregate.id == id && w.Honest(r.aggregate) && r.aggregate.unsaved == []
      ensures r.Loaded? && (target > 0 || !Cached?) ==> Reached(target, r.aggregate.version, w.Base(id), |w.All(id)|)
      ensures w.faults >= old(w.faults)
      ensures !r.Loaded? && w.faults == old(w.faults) ==>
                id == NIL_ID || Unreachable(target, 0, false, Readable(), w.Base(id), |w.All(id)|)
      ensures r.Loaded? && Cached? && target <= 0 && w.faults == old(w.faults) ==>
                w.Entry(cache, id) == Some(Held(r.aggregate.version, r.aggregate.state))
      decreases this
    {
      match this
      case EventSourced(_, _) =>
        if id == NIL_ID || target < 0 {
          return LoadFailed(InvalidTarget);
        }
        r := LoadByHydrating(w, id, target);
      case Snapshotting(_, _, _) =>
        r := LoadByHydrating(w, id, target);
      case Cached(cache, inner) =>
        if target > 0 {
          r := inner.Load(w, id, target);
          return;
        }
        var entry := w.GetAggregate(cache, id);
        if entry.Some? {
          var hit := new Aggregate<S, E>(id, entry.value.state, entry.value.version);
          return Loaded(hit);
        }
        r := inner.Load(w, id, target);
        if r.Loaded? {
          w.PutAggregate(cache, r.aggregate.id, r.aggregate.version, r.aggregate.state);
        }
    }

    method LoadByHydrating<S(!new), E(==, !new)>(w: Storage<S, E>, id: AggregateID, target: Int64) returns (r: LoadResult<S, E>)
      requires w.Coherent() && !Cached?
      modifies w`streams, w`faults
      ensures w.Coherent() && Extends(old(w.streams), w.streams)
      ensures r.Loaded? ==> fresh(r.aggregate) && r.aggregate.id == id && w.Honest(r.aggregate) && r.aggregate.unsaved == []
      ensures r.Loaded? && (target > 0 || !Cached?) ==> Reached(target, r.aggregate.version, w.Base(id), |w.All(id)|)
      ensures w.faults >= old(w.faults)
      ensures !r.Loaded? && w.faults == old(w.faults) ==>
                Unreachable(target, 0, false, Readable(), w.Base(id), |w.All(id)|)
      decreases this, 0
    {
      var a := New(w, id);
      var h := Hydrate(w, a, target);
      return if h.Hydrated? then Loaded(a) else LoadFailed(h);
    }

    /** A failed save is truthful about its append, and what a save appends comes
        right after exactly the events folded into the aggregate. */
    method Save<S(!new), E(==, !new)>(w: Storage<S, E>, a: Aggregate?<S, E>, skipApply: bool)
        returns (r: Option<Error>, ghost added: seq<E>)
      requires w.Coherent() && (a != null ==> w.Honest(a))
      modifies w, if a == null then {} else {a}
      ensures w.Coherent() && Extends(old(w.streams), w.streams)
      ensures a == null || r.Some? || a.unapplied != [] ==> w.caches == old(w.caches)
      ensures a == null ==> r.Some? && added == [] && NilMeans(r.value, !Cached?)
      ensures a != null ==> Saved(w, a, r, added, old(w.All(a.id)), old(a.version), old(a.unsaved), old(a.unapplied))
      ensures a != null && r.None? && !skipApply && old(a.unsaved) != [] ==> a.unapplied == []
      ensures a != null && r.None? && skipApply && Defers() ==>
                a.version == old(a.version) && a.state == old(a.state)
                && a.unapplied == old(a.unapplied) + Queued(a.version, added)
      ensures a != null && r.None? && old(a.unapplied) == [] ==> InStep(a.version, a.unapplied)
      ensures w.faults >= old(w.faults)
      ensures a != null && r.Some? && w.faults == old(w.faults) ==>
                Unsavable(Writable(), old(a.version), old(a.unsaved), old(a.unapplied) != [], added != [], |w.All(a.id)|)
      decreases this
    {
      added := [];
      match this
      case EventSourced(_, _) =>
        if a == null {
          NilIsMarked("nil aggregate");
          return Some(SaveFailure("nil aggregate", false)), [];
        }
        r, added := SaveEvents(w, a, skipApply);
      case Snapshotting(_, _, _) =>
        if a == null {
          NilIsMarked("nil aggregate");
          return Some(SaveFailure("nil aggregate", false)), [];
        }
        r, added := SaveAndSnapshot(w, a);
      case Cached(_, _) =>
        if a == null {
          NilIsUnmarked("", "nil aggregate");
          return Some(SaveError("", Leaf("nil aggregate"))), [];
        }
        r, added := SaveAndCache(w, a, skipApply);
    }

    method SaveEvents<S(!new), E(==, !new)>(w: Storage<S, E>, a: Aggregate<S, E>, skipApply: bool)
        returns (r: Option<Error>, ghost added: seq<E>)
      requires EventSourced? && w.Coherent() && w.Honest(a)
      modifies w`streams, w`faults, a
      ensures w.Coherent() && Extends(old(w.streams), w.streams)
      ensures r.None? && skipApply ==>
                a.version == old(a.version) && a.state == old(a.state)
                && a.unapplied == old(a.unapplied) + Queued(a.version, added)
      ensures r.None? && old(a.unapplied) == [] ==> InStep(a.version, a.unapplied)
      ensures w.faults >= old(w.faults)
      ensures r.Some? && w.faults == old(w.faults) ==>
                Unsavable(writable, old(a.version), old(a.unsaved), old(a.unapplied) != [], added != [], |w.All(a.id)|)
      ensures Saved(w, a, r, added, old(w.All(a.id)), old(a.version), old(a.unsaved), old(a.unapplied))
      ensures r.None? && !skipApply && old(a.unsaved) != [] ==> a.unapplied == []
    {
      hide Truthful, SaveFailure, SaveError, Extends, Storage.Coherent, Storage.Honest, Storage.Replays, InStep;
      ExtendsItself(w.streams);
      NothingQueuedIsInStep<E>(a.version);
      added := [];
      ghost var events := Payloads(a.unsaved);
      TruthfulSuccess(events);
      if !writable {
        TruthfulFailure("no writer", false, added, events);
        return Some(SaveFailure("no writer", false)), [];
      }
      if |a.unsaved| == 0 {
        if a.version == 0 {
          TruthfulFailure("new aggregate has no events to save", false, added, events);
          return Some(SaveFailure("new aggregate has no events to save", false)), [];
        }
        return None, [];
      }
      r, added := WriteUnsaved(w, a);
      if r.Some? {
        return;
      }
      var ok := TakeUp(w, a, added, skipApply);
      if !ok {
        TruthfulFailure("applying aggregate event", true, added, events);
        return Some(SaveFailure("applying aggregate event", true)), added;
      }
      return None, added;
    }

    /** Saves without applying, so that snapshots are taken at exact versions. */
    method SaveAndSnapshot<S(!new), E(==, !new)>(w: Storage<S, E>, a: Aggregate<S, E>)
        returns (r: Option<Error>, ghost added: seq<E>)
      requires Snapshotting? && w.Coherent() && w.Honest(a)
      modifies w, a
      ensures w.Coherent() && Extends(old(w.streams), w.streams)
      ensures r.Some? || a.unapplied != [] ==> w.caches == old(w.caches)
      ensures Saved(w, a, r, added, old(w.All(a.id)), old(a.version), old(a.unsaved), old(a.unapplied))
      ensures r.None? ==> a.unapplied == []
      ensures w.faults >= old(w.faults) && (r.None? && old(a.unapplied) == [] ==> InStep(a.version, a.unapplied))
      ensures r.Some? && w.faults == old(w.faults) ==>
                Unsavable(Writable(), old(a.version), old(a.unsaved), old(a.unapplied) != [], added != [], |w.All(a.id)|)
      decreases this, 0
    {
      hide Truthful, SaveFailure, SaveError, NilMeans, Extends;
      ghost var events := Payloads(a.unsaved);
      r, added := inner.Save(w, a, true);
      if r.Some? {
        TruthfulWrapped("saving aggregate using inner store", r.value, added, events);
        return Some(SaveError("saving aggregate using inner store", r.value)), added;
      }
      TruthfulNone(added, events);
      var ok, _ := ApplyAndSnapshot(w, a);
      if !ok {
        TruthfulFailure("applying next aggregate event", true, added, events);
        return Some(SaveFailure("applying next aggregate event", true)), added;
      }
      return None, added;
    }

    /** Applies whatever is queued, taking a snapshot wherever the policy asks for one;
        the last one asked for is kept unless a write fails. */
    method ApplyAndSnapshot<S(!new), E(==, !new)>(w: Storage<S, E>, a: Aggregate<S, E>)
        returns (ok: bool, ghost asked: Option<int>)
      requires Snapshotting? && w.Coherent() && w.Honest(a)
      modifies w`shelves, w`faults, a`version, a`state, a`unapplied
      ensures w.Coherent() && w.Honest(a)
      ensures a.version + |a.unapplied| == old(a.version) + |old(a.unapplied)|
      ensures ok <==> a.unapplied == []
      ensures !ok ==> old(a.unapplied) != []
      ensures w.faults >= old(w.faults)
      ensures InStep(old(a.version), old(a.unapplied)) ==> ok && InStep(a.version, a.unapplied)
      ensures asked.Some? && w.faults == old(w.faults) ==> w.Keeps(shelf, a.id, asked.value)
    {
      asked := None;
      while true
        invariant asked.Some? && w.faults == old(w.faults) ==> w.Keeps(shelf, a.id, asked.value)
        invariant w.Coherent() && w.Honest(a)
        invariant w.faults >= old(w.faults)
        invariant InStep(old(a.version), old(a.unapplied)) ==> InStep(a.version, a.unapplied)
        invariant a.version + |a.unapplied| == old(a.version) + |old(a.unapplied)|
        invariant old(a.unapplied) == [] ==> a.unapplied == []
        decreases |a.unapplied|
      {
        var applied := ApplyHonestly(w, a);
        if applied.NothingToApply? {
          return true, asked;
        }
        if applied.CannotApply? {
          return false, asked;
        }
        var due: bool := *;
        if due {
          asked := Some(a.version);
          w.WriteSnapshot(shelf, a.id, a.version, a.state);
        }
      }
    }

    method SaveAndCache<S(!new), E(==, !new)>(w: Storage<S, E>, a: Aggregate<S, E>, skipApply: bool)
        returns (r: Option<Error>, ghost added: seq<E>)
      requires Cached? && w.Coherent() && w.Honest(a)
      modifies w, a
      ensures w.Coherent() && Extends(old(w.streams), w.streams)
      ensures r.Some? || a.unapplied != [] ==> w.caches == old(w.caches)
      ensures Saved(w, a, r, added, old(w.All(a.id)), old(a.version), old(a.unsaved), old(a.unapplied))
      ensures r.None? && !skipApply && old(a.unsaved) != [] ==> a.unapplied == []
      ensures r.None? && skipApply && Defers() ==>
                a.version == old(a.version) && a.state == old(a.state)
                && a.unapplied == old(a.unapplied) + Queued(a.version, added)
      ensures w.faults >= old(w.faults) && (r.None? && old(a.unapplied) == [] ==> InStep(a.version, a.unapplied))
      ensures r.Some? && w.faults == old(w.faults) ==>
                Unsavable(Writable(), old(a.version), old(a.unsaved), old(a.unapplied) != [], added != [], |w.All(a.id)|)
      ensures r.None? && a.unapplied == [] && w.faults == old(w.faults) ==>
                w.Entry(cache, a.id) == Some(Held(a.version, a.state))
      decreases this, 0
    {
      ghost var events := Payloads(a.unsaved);
      r, added := inner.Save(w, a, skipApply);
      if r.Some? {
        TruthfulWrapped("saving to inner aggregate store", r.value, added, events);
        return Some(SaveError("saving to inner aggregate store", r.value)), added;
      }
      if |a.unapplied| > 0 {
        return None, added;
      }
      w.PutAggregate(cache, a.id, a.version, a.state);
      return None, added;
    }
  }

  /** Encodes every event, refusing reserved metadata. */
  method Marshal<S(!new), E(==, !new)>(w: Storage<S, E>, events: seq<Unsaved<E>>) returns (r: Option<seq<E>>)
    modifies w`faults
    ensures r.Some? ==> r.value == Payloads(events) && w.faults == old(w.faults)
    ensures w.faults >= old(w.faults)
    ensures r.None? ==> w.faults > old(w.faults) || exists i :: 0 <= i < |events| && events[i].reserved
  {
    var payloads: seq<E> := [];
    for i := 0 to |events|
      invariant payloads == Payloads(events)[..i] && w.faults == old(w.faults)
    {
      if events[i].reserved {
        return None;
      }
      var fails := w.Fails();
      if fails {
        return None;
      }
      payloads := payloads + [events[i].event];
    }
    return Some(payloads);
  }

  /** Validates, encodes and appends what is unsaved, under the aggregate's version. */
  method WriteUnsaved<S(!new), E(==, !new)>(w: Storage<S, E>, a: Aggregate<S, E>)
      returns (r: Option<Error>, ghost added: seq<E>)
    requires w.Coherent() && w.Honest(a) && a.unsaved != []
    modifies w`streams, w`faults
    ensures w.Coherent() && Extends(old(w.streams), w.streams) && w.Honest(a)
    ensures Truthful(r, added, Payloads(a.unsaved)) && (added == [] || added == Payloads(a.unsaved))
    ensures r.None? ==> added == Payloads(a.unsaved) && a.version + |added| <= MAX_INT64
    ensures added != [] ==> |old(w.All(a.id))| == a.version && w.All(a.id) == old(w.All(a.id)) + added
    ensures w.faults >= old(w.faults)
    ensures r.Some? && w.faults == old(w.faults) ==>
              added == [] && Unsavable(true, a.version, a.unsaved, false, false, |w.All(a.id)|)
  {
    hide Truthful, SaveFailure, SaveError;
    added := [];
    ghost var events := Payloads(a.unsaved);
    TruthfulSuccess(events);
    if a.version < 0 || |a.unsaved| > MAX_INT64 - a.version {
      TruthfulFailure("validating aggregate version", false, added, events);
      return Some(SaveFailure("validating aggregate version", false)), [];
    }
    var payloads := Marshal(w, a.unsaved);
    if payloads.None? {
      TruthfulFailure("marshaling event data", false, added, events);
      return Some(SaveFailure("marshaling event data", false)), [];
    }
    var appended;
    appended, added := w.AppendStream(a.id, payloads.value, a.version);
    assert added != [] ==> w.All(a.id) == old(w.All(a.id)) + added;
    if appended.Mismatch? {
      TruthfulFailure("saving events to stream", false, added, events);
      return Some(SaveFailure("saving events to stream", false)), added;
    }
    if appended.AppendFailed? {
      TruthfulUnknown("saving events to stream", added, events);
      return Some(SaveError("saving events to stream", Leaf("saving events to stream"))), added;
    }
    if appended.count != |a.unsaved| {
      TruthfulFailure("confirming appended events", true, added, events);
      return Some(SaveFailure("confirming appended events", true)), added;
    }
    return None, added;
  }

  /** Queues a save's events at the versions the store assigned them. */
  method QueueWritten<S(!new), E(==, !new)>(w: Storage<S, E>, a: Aggregate<S, E>, ghost added: seq<E>)
    requires w.Honest(a) && added == Payloads(a.unsaved)
    requires |w.All(a.id)| == a.version + |added| && w.All(a.id)[a.version..] == added
    modifies a`unsaved, a`unapplied
    ensures w.Honest(a) && a.unsaved == []
    ensures a.unapplied == old(a.unapplied) + Queued(a.version, added)
  {
    hide Replay;
    for i := 0 to |a.unsaved|
      invariant w.Honest(a) && a.unsaved == old(a.unsaved)
      invariant a.unapplied == old(a.unapplied) + Queued(a.version, added)[..i]
    {
      assert w.All(a.id)[a.version + i] == w.All(a.id)[a.version..][i] == added[i] == a.unsaved[i].event;
      assert Queued(a.version, added)[..i + 1] == Queued(a.version, added)[..i] + [Queued(a.version, added)[i]];
      a.unapplied := a.unapplied + [Versioned(a.version + 1 + i, a.unsaved[i].event)];
    }
    a.unsaved := [];
  }

  /** Takes up what was just appended: queued, and unless told otherwise applied. Only
      events left over from before can keep it from being applied. */
  method TakeUp<S(!new), E(==, !new)>(w: Storage<S, E>, a: Aggregate<S, E>, ghost added: seq<E>, skipApply: bool)
      returns (ok: bool)
    requires w.Honest(a) && added == Payloads(a.unsaved) && a.version + |added| <= MAX_INT64
    requires |w.All(a.id)| == a.version + |added| && w.All(a.id)[a.version..] == added
    modifies a`version, a`state, a`unsaved, a`unapplied
    ensures w.Honest(a) && a.unsaved == []
    ensures skipApply ==> ok && a.version == old(a.version) && a.state == old(a.state)
                          && a.unapplied == old(a.unapplied) + Queued(a.version, added)
    ensures ok && !skipApply ==> a.unapplied == []
    ensures ok ==> a.version + |a.unapplied| == old(a.version) + |old(a.unapplied)| + |added|
    ensures ok && a.unapplied == [] ==> a.version == |w.All(a.id)|
    ensures old(a.unapplied) == [] ==> ok && InStep(a.version, a.unapplied)
  {
    hide Storage.Honest, Storage.Replays, Payloads;
    QueueWritten(w, a, added);
    QueuedInStep(a.version, added);
    assert old(a.unapplied) == [] ==> a.unapplied == Queued(a.version, added);
    ok := true;
    if !skipApply {
      ok := ApplyQueued(w, a);
    }
    HonestIsWithin(w, a);
  }

  /** Applies whatever is queued. */
  method ApplyQueued<S(!new), E(==, !new)>(w: Storage<S, E>, a: Aggregate<S, E>) returns (ok: bool)
    requires w.Honest(a)
    modifies a`version, a`state, a`unapplied
    ensures w.Honest(a)
    ensures ok ==> a.unapplied == [] && a.version == old(a.version) + |old(a.unapplied)|
    ensures InStep(old(a.version), old(a.unapplied)) ==> ok
  {
    while true
      invariant w.Honest(a)
      invariant InStep(old(a.version), old(a.unapplied)) ==> InStep(a.version, a.unapplied)
      invariant a.version + |a.unapplied| == old(a.version) + |old(a.unapplied)|
      decreases |a.unapplied|
    {
      var applied := ApplyHonestly(w, a);
      if applied.NothingToApply? {
        return true;
      }
      if applied.CannotApply? {
        return false;
      }
    }
  }

  /** A save retried after an error never appends its events twice, even when the
      first append committed and lost its response. */
  method RetriedSave<S(!new), E(==, !new)>(store: Store, w: Storage<S, E>, a: Aggregate<S, E>)
      returns (first: Option<Error>, second: Option<Error>, ghost once: seq<E>, ghost again: seq<E>)
    requires w.Coherent() && w.Honest(a)
    modifies w, a
    ensures w.Coherent() && w.Honest(a)
    ensures once == [] || again == []
    ensures second.Some? && Means(second.value, NothingAppended) ==> again == []
  {
    first, once := store.Save(w, a, false);
    second, again := store.Save(w, a, false);
  }

  /** Queues events, after discarding what a failed save left. */
  method Requeue<S(!new), E(==, !new)>(w: Storage<S, E>, a: Aggregate<S, E>, failed: bool, next: seq<Unsaved<E>>)
    requires w.Honest(a) && (!failed ==> a.unsaved == [])
    modifies a`unsaved
    ensures w.Honest(a) && a.unsaved == next
  {
    if failed {
      a.DiscardUnsavedEvents();
    }
    a.Append(next);
  }

  /** Discarding after a failed save keeps its events out of any later save: the
      next one appends exactly what is queued after the discard. */
  method SaveAfterDiscard<S(!new), E(==, !new)>(store: Store, w: Storage<S, E>, a: Aggregate<S, E>, next: seq<Unsaved<E>>)
      returns (first: Option<Error>, second: Option<Error>, ghost once: seq<E>, ghost later: seq<E>)
    requires w.Coherent() && w.Honest(a)
    modifies w, a
    ensures w.Coherent() && w.Honest(a)
    ensures once == [] || once == Payloads(old(a.unsaved))
    ensures later == [] || later == Payloads(next)
    ensures second.None? ==> later == Payloads(next)
  {
    hide Means, NilMeans, Extends, Storage.Coherent, Storage.Honest;
    first, once := store.Save(w, a, false);
    Requeue(w, a, first.Some?, next);
    second, later := store.Save(w, a, false);
  }
}
