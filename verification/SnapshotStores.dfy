/** The two snapshot stores: one keeps snapshots as events of a parallel stream of
    an event store (snapshotstore/eventstream/event_stream_store.go), the other in
    memory under a retention policy (snapshotstore/memory/snapshot_store.go). */
module SnapshotStores {
  import opened Base
  import opened EventLog
  import opened MemoryStore

  datatype Snapshot = Snapshot(version: int, data: string)

  // ---------------------------------------------------------------------------
  // Snapshots as events
  // ---------------------------------------------------------------------------

  predicate Readable(e: Event, max: int) {
    e.payload.snapshotVersion.Some? && (max > 0 ==> e.payload.snapshotVersion.value <= max)
  }

  function AsSnapshot(e: Event): Snapshot
    requires e.payload.snapshotVersion.Some?
  {
    Snapshot(e.payload.snapshotVersion.value, e.payload.data)
  }

  /** The first event of a walk that can be read within the bound. */
  function First(walk: seq<Event>, max: int): (r: Option<Snapshot>) {
    if walk == [] then None
    else if Readable(walk[0], max) then Some(AsSnapshot(walk[0]))
    else First(walk[1..], max)
  }

  function Walk(events: seq<Event>, max: int): seq<Event> {
    StreamRead(events, Reverse, 0, if max <= 0 then 1 else 0)
  }

  /** How many events a walk asks for, its end included. */
  function Requests(walk: seq<Event>, max: int): (n: nat)
    ensures 1 <= n <= |walk| + 1
  {
    if walk == [] || Readable(walk[0], max) then 1 else 1 + Requests(walk[1..], max)
  }

  /** Reads through an event store that may fail to open the stream, or after any
      number of requests. A read that succeeds is exact, and one fails only if the
      event store did before the walk was over. */
  method ReadSnapshot(store: EventStore, id: StreamID, max: int, opens: bool, requests: nat)
    returns (ok: bool, r: Option<Snapshot>)
    requires store.Valid() && WellFormed(store.Value())
    requires store.Value().Stream(id).Tip() <= MAX_INT64
    ensures var stream := store.Value().Stream(id);
            && (ok <==> opens && (stream.NeverWritten() || Requests(Walk(stream.events, max), max) <= requests))
            && r == if ok then First(Walk(stream.events, max), max) else None
  {
    hide WellFormed, StreamRead, First, Requests, StreamIterator.Remaining, StreamOk;
    if !opens {
      return false, None;
    }
    var read := store.ReadStream(id, Reverse, 0, if max <= 0 then 1 else 0);
    if read.Err? {
      NothingToWalk(max);
      return true, None;
    }
    ok, r := WalkBack(read.value, max, requests);
  }

  /** Walks an iterator to the first event that can be read within the bound. */
  method WalkBack(it: StreamIterator, max: int, requests: nat) returns (ok: bool, r: Option<Snapshot>)
    requires it.Valid() && it.events.Some?
    modifies it
    ensures ok <==> old(Requests(it.Remaining(), max)) <= requests
    ensures r == if ok then old(First(it.Remaining(), max)) else None
  {
    hide Rest, InRange, StreamIterator.Remaining, StreamIterator.Valid;
    ghost var walk := it.Remaining();
    var made := 0;
    while made < requests
      invariant it.Valid() && it.events.Some?
      invariant First(it.Remaining(), max) == First(walk, max)
      invariant made + Requests(it.Remaining(), max) == Requests(walk, max) && made <= requests
    {
      made := made + 1;
      var next := it.Next();
      if next.EndOfStream? {
        return true, None;
      }
      if next.Yielded? && Readable(next.event, max) {
        return true, Some(AsSnapshot(next.event));
      }
    }
    return false, None;
  }

  lemma NothingToWalk(max: int)
    ensures First(Walk([], max), max) == None
  {
  }

  /** What a bounded read promises: the newest event that can be read within the
      bound, if any can. */
  ghost predicate NewestWithin(events: seq<Event>, max: int, r: Option<Snapshot>) {
    match r
    case None => forall i :: 0 <= i < |events| ==> !Readable(events[i], max)
    case Some(snapshot) =>
      exists i :: 0 <= i < |events| && Readable(events[i], max) && snapshot == AsSnapshot(events[i])
                  && forall j :: i < j < |events| ==> !Readable(events[j], max)
  }

  lemma {:induction false} FirstOfReversed(events: seq<Event>, max: int)
    ensures NewestWithin(events, max, First(Reversed(events), max))
  {
    hide Readable;
    if events == [] {
    } else {
      var front := events[..|events| - 1];
      FirstOfReversed(front, max);
      assert Reversed(events)[1..] == Reversed(front);
      if !Readable(events[|events| - 1], max) {
        OneUnreadable(front, events[|events| - 1], max, First(Reversed(front), max));
        assert front + [events[|events| - 1]] == events;
      }
    }
  }

  lemma OneUnreadable(front: seq<Event>, last: Event, max: int, r: Option<Snapshot>)
    requires NewestWithin(front, max, r) && !Readable(last, max)
    ensures NewestWithin(front + [last], max, r)
  {
    var events := front + [last];
    assert forall i :: 0 <= i < |front| ==> events[i] == front[i];
    if r.Some? {
      var i :| 0 <= i < |front| && Readable(front[i], max) && r.value == AsSnapshot(front[i])
               && forall j :: i < j < |front| ==> !Readable(front[j], max);
      assert Readable(events[i], max) && r.value == AsSnapshot(events[i]);
    }
  }

  /** A bounded read walks back to the newest snapshot within the bound. */
  lemma BoundedReadIsNewest(events: seq<Event>, max: int)
    requires max > 0
    ensures NewestWithin(events, max, First(Walk(events, max), max))
  {
    FirstOfReversed(events, max);
  }

  /** An unbounded read looks at the newest event only: it is the newest snapshot
      exactly when that event can be read or none can. */
  lemma UnboundedReadIsNewestExactly(events: seq<Event>)
    ensures NewestWithin(events, 0, First(Walk(events, 0), 0)) <==>
            events == [] || Readable(events[|events| - 1], 0) || (forall i :: 0 <= i < |events| ==> !Readable(events[i], 0))
  {
    if events != [] {
      var last := events[|events| - 1];
      assert Reversed(events)[0] == last;
      assert Walk(events, 0) == [last];
      assert [last][1..] == [];
    }
  }

  /** The exception is real: a snapshot followed by an event that carries none, as an
      earlier version of the store wrote them, is found by a bounded read only. */
  lemma UnreadableNewestHidesOlder(id: StreamID)
    ensures var s := Run(EMPTY, [Append(id, [Writable(Payload("state", Some(7)), true)], UNGUARDED),
                                 Append(id, [Writable(Payload("envelope", None), true)], UNGUARDED)]);
            var events := s.Stream(id).events;
            && First(Walk(events, 0), 0) == None
            && First(Walk(events, 7), 7) == Some(Snapshot(7, "state"))
            && !NewestWithin(events, 0, First(Walk(events, 0), 0))
  {
    hide Walk, First, NewestWithin, Appended;
    var older, newer := Writable(Payload("state", Some(7)), true), Writable(Payload("envelope", None), true);
    var first, second := Append(id, [older], UNGUARDED), Append(id, [newer], UNGUARDED);
    OneWritten(EMPTY, id, older);
    var t := Do(EMPTY, first);
    OneWritten(t, id, newer);
    TwoOps(EMPTY, first, second);
    var events := Do(t, second).Stream(id).events;
    var a, b := Event(id, 1, 1, older.payload), Event(id, 2, t.counter + 1, newer.payload);
    assert events == [a, b];
    HiddenWalk(a, b);
  }

  lemma HiddenWalk(a: Event, b: Event)
    requires a.payload == Payload("state", Some(7)) && b.payload == Payload("envelope", None)
    ensures First(Walk([a, b], 0), 0) == None
    ensures First(Walk([a, b], 7), 7) == Some(Snapshot(7, "state"))
    ensures !NewestWithin([a, b], 0, None)
  {
    assert [a, b][..1] == [a] && [a][..0] == [];
    assert Reversed([a]) == [a];
    assert Reversed([a, b]) == [b, a];
    assert [b, a][..1] == [b] && [b, a][1..] == [a] && [b][1..] == [];
    assert Readable([a, b][0], 0);
  }

  // ---------------------------------------------------------------------------
  // Writing and pruning
  // ---------------------------------------------------------------------------

  function AsWritable(snapshot: Snapshot, encodable: bool): Writable {
    Writable(Payload(snapshot.data, Some(snapshot.version)), encodable)
  }

  const UNGUARDED := Guard(None, false)

  /** Keeps the newest `keep` snapshots when it is positive. A pruning failure is not
      the write's. */
  method WriteSnapshot(store: EventStore, id: StreamID, snapshot: Snapshot, encodable: bool, keep: int) returns (ok: bool)
    requires store.Valid() && WellFormed(store.Value())
    modifies store, store.Buffers(), store.globalLog.buf
    ensures store.Valid()
    ensures store.Value() == AfterWrite(old(store.Value()), id, snapshot, encodable, keep) && ok == encodable
  {
    hide WellFormed, Appended, Deleted, Store.Stream, Recorded.Tip, EventStore.Value, EventStore.Serves,
      StreamIterator.Remaining, Separate, Apart;
    ghost var s := store.Value();
    OneWritten(s, id, AsWritable(snapshot, encodable));
    var written := store.AppendStream(id, [AsWritable(snapshot, encodable)], UNGUARDED);
    ok := written.Ok?;
    if ok && keep > 0 && |written.value| == 1 && written.value[0].version - keep > 0 {
      var pruned := store.DeleteStream(id, written.value[0].version - keep);
    }
  }

  /** An unguarded append of one event. */
  lemma OneWritten(s: Store, id: StreamID, w: Writable)
    ensures var (t, written) := Appended(s, id, [w], UNGUARDED);
            && (written.Ok? <==> w.encodable)
            && (written.Ok? ==>
                  var e := Event(id, s.Stream(id).Tip() + 1, s.counter + 1, w.payload);
                  && written.value == [e] && t.Stream(id).Tip() == e.version
                  && t.Stream(id) == Recorded(s.Stream(id).firstVersion, s.Stream(id).events + [e])
                  && forall other :: other != id ==> t.Stream(other) == s.Stream(other))
  {
    OneEncodable(w);
    if w.encodable {
      assert Written(id, s.Stream(id).Tip(), s.counter, [w]) == [Event(id, s.Stream(id).Tip() + 1, s.counter + 1, w.payload)];
    }
  }

  lemma OneEncodable(w: Writable)
    ensures Encodable([w]) == if w.encodable then 1 else 0
  {
    assert [w][1..] == [];
  }

  function AfterWrite(s: Store, id: StreamID, snapshot: Snapshot, encodable: bool, keep: int): Store {
    var (t, written) := Appended(s, id, [AsWritable(snapshot, encodable)], UNGUARDED);
    if written.Ok? && keep > 0 && t.Stream(id).Tip() - keep > 0 then Deleted(t, id, t.Stream(id).Tip() - keep).0 else t
  }

  function Newest(events: seq<Event>, keep: int): seq<Event> {
    if 0 < keep < |events| then events[|events| - keep..] else events
  }

  /** A successful write leaves exactly the newest snapshots, the one written last
      among them, with every other stream untouched. */
  lemma WriteKeepsTheNewest(s: Store, id: StreamID, snapshot: Snapshot, keep: int)
    requires WellFormed(s)
    ensures var t := AfterWrite(s, id, snapshot, true, keep);
            && WellFormed(t)
            && t.Stream(id).events == Newest(s.Stream(id).events + [WrittenEvent(s, id, snapshot)], keep)
            && (forall other :: other != id ==> t.Stream(other) == s.Stream(other))
  {
    hide Appended, WellFormed, Deleted, Newest, Store.Stream, Recorded.Tip;
    var w := AsWritable(snapshot, true);
    OneWritten(s, id, w);
    AppendKeepsWellFormed(s, id, [w], UNGUARDED);
    PruningKeepsNewest(Appended(s, id, [w], UNGUARDED).0, id, keep);
  }

  function WrittenEvent(s: Store, id: StreamID, snapshot: Snapshot): Event {
    Event(id, s.Stream(id).Tip() + 1, s.counter + 1, Payload(snapshot.data, Some(snapshot.version)))
  }

  /** Reading it back, unbounded or to any bound at or past its version, gives it back. */
  lemma WrittenSnapshotIsRead(s: Store, id: StreamID, snapshot: Snapshot, keep: int, max: int)
    requires WellFormed(s) && (max <= 0 || snapshot.version <= max)
    ensures First(Walk(AfterWrite(s, id, snapshot, true, keep).Stream(id).events, max), max) == Some(snapshot)
  {
    WriteKeepsTheNewest(s, id, snapshot, keep);
    hide AfterWrite, WellFormed, First, Walk;
    LastIsFirst(AfterWrite(s, id, snapshot, true, keep).Stream(id).events, WrittenEvent(s, id, snapshot), max);
  }

  lemma PruningKeepsNewest(t: Store, id: StreamID, keep: int)
    requires WellFormed(t) && t.Stream(id).events != []
    ensures var cut := t.Stream(id).Tip() - keep;
            var u := if keep > 0 && cut > 0 then Deleted(t, id, cut).0 else t;
            && WellFormed(u) && u.Stream(id).events == Newest(t.Stream(id).events, keep)
            && (forall other :: other != id ==> u.Stream(other) == t.Stream(other))
  {
    var cut := t.Stream(id).Tip() - keep;
    assert StreamOk(t.Stream(id), id) && t.Stream(id).firstVersion >= 1;
    if keep > 0 && cut > 0 {
      DeleteKeepsWellFormed(t, id, cut);
    }
    hide WellFormed, Without;
  }

  lemma LastIsFirst(events: seq<Event>, e: Event, max: int)
    requires events != [] && events[|events| - 1] == e && Readable(e, max)
    ensures First(Walk(events, max), max) == Some(AsSnapshot(e))
  {
    assert Reversed(events)[0] == e;
    assert Walk(events, max)[0] == e;
  }

  // ---------------------------------------------------------------------------
  // Snapshots in memory
  // ---------------------------------------------------------------------------

  predicate AscendingVersions(kept: seq<Snapshot>) {
    forall i, j :: 0 <= i < j < |kept| ==> kept[i].version < kept[j].version
  }

  type Retention = (Snapshot, int, int) -> bool

  /** The snapshots a policy retains, each judged by its index among them all. */
  function Retained(policy: Retention, all: seq<Snapshot>, n: nat): (r: seq<Snapshot>)
    requires n <= |all|
  {
    if n == 0 then []
    else
      var front := Retained(policy, all, n - 1);
      if policy(all[n - 1], n - 1, |all|) then front + [all[n - 1]] else front
  }

  lemma {:induction false} RetainedIsAscending(policy: Retention, all: seq<Snapshot>, n: nat)
    requires n <= |all| && AscendingVersions(all)
    ensures AscendingVersions(Retained(policy, all, n))
    ensures forall x :: x in Retained(policy, all, n) ==> x in all[..n]
    ensures forall i :: 0 <= i < n && policy(all[i], i, |all|) ==> all[i] in Retained(policy, all, n)
  {
    if n == 0 {
    } else {
      RetainedIsAscending(policy, all, n - 1);
      assert all[..n] == all[..n - 1] + [all[n - 1]];
      forall x | x in Retained(policy, all, n - 1) ensures x.version < all[n - 1].version {
        assert x in all[..n - 1];
      }
    }
  }

  /** The default policy: the last N. */
  function LastN(keep: int): Retention {
    (snapshot, index, total) => keep == 0 || index >= total - keep
  }

  lemma {:induction false} LastNRetains(keep: int, all: seq<Snapshot>, n: nat)
    requires n <= |all| && keep > 0
    ensures Retained(LastN(keep), all, n) == if |all| - keep <= 0 then all[..n] else if n <= |all| - keep then [] else all[|all| - keep..n]
  {
    if n == 0 {
    } else {
      LastNRetains(keep, all, n - 1);
      assert all[..n] == all[..n - 1] + [all[n - 1]];
    }
  }

  /** The newest version within the bound. */
  ghost predicate HighestWithin(kept: seq<Snapshot>, max: int, r: Option<Snapshot>) {
    match r
    case None => forall x :: x in kept ==> max > 0 && x.version > max
    case Some(snapshot) =>
      && snapshot in kept && (max > 0 ==> snapshot.version <= max)
      && forall x :: x in kept && (max > 0 ==> x.version <= max) ==> x.version <= snapshot.version
  }

  class MemorySnapshotStore {
    var snapshots: map<StreamID, seq<Snapshot>>
    const retention: Retention

    ghost predicate Valid()
      reads this`snapshots
    {
      forall id :: id in snapshots ==> AscendingVersions(snapshots[id])
    }

    constructor (retention: Retention)
      ensures Valid() && snapshots == map[] && this.retention == retention
    {
      snapshots := map[];
      this.retention := retention;
    }

    function Kept(id: StreamID): seq<Snapshot>
      reads this`snapshots
    {
      if id in snapshots then snapshots[id] else []
    }

    method ReadSnapshot(id: StreamID, max: int) returns (r: Option<Snapshot>)
      requires Valid()
      ensures HighestWithin(Kept(id), max, r)
    {
      if id !in snapshots || |snapshots[id]| == 0 {
        return None;
      }
      var kept := snapshots[id];
      if max > 0 {
        var i := |kept| - 1;
        while i >= 0
          invariant -1 <= i < |kept|
          invariant forall j :: i < j < |kept| ==> kept[j].version > max
        {
          if kept[i].version <= max {
            return Some(kept[i]);
          }
          i := i - 1;
        }
        return None;
      }
      return Some(kept[|kept| - 1]);
    }

    /** Versions must grow; the policy then decides what stays. */
    method WriteSnapshot(id: StreamID, snapshot: Snapshot) returns (ok: bool)
      requires Valid()
      modifies this`snapshots
      ensures Valid()
      ensures ok <==> forall x :: x in old(Kept(id)) ==> x.version < snapshot.version
      ensures snapshots == if !ok then old(snapshots)
                           else old(snapshots)[id := Retained(retention, old(Kept(id)) + [snapshot], |old(Kept(id))| + 1)]
    {
      var kept := Kept(id);
      if |kept| > 0 && snapshot.version <= kept[|kept| - 1].version {
        return false;
      }
      var all := kept + [snapshot];
      var retained: seq<Snapshot> := [];
      for i := 0 to |all|
        invariant retained == Retained(retention, all, i)
      {
        if retention(all[i], i, |all|) {
          retained := retained + [all[i]];
        }
      }
      RetainedIsAscending(retention, all, |all|);
      snapshots := snapshots[id := retained];
      return true;
    }
  }
}
