/** The in-memory event store and its iterators in their mutable form
    (eventstore/memory/event_store.go, eventstore/memory/stream_iterator.go):
    slices share backing arrays, appends write past every slice's end, the global
    log is compacted in place. Each method is proved against the store as a value,
    and every open iterator keeps yielding what it was opened on. */
module MemoryStore {
  import opened Base
  import opened EventLog

  /** A slice: a window of a backing array. */
  datatype Slice<!T> = Slice(buf: array<T>, from: nat, to: nat) {
    predicate Valid() {
      from <= to <= buf.Length
    }

    function Items(): (r: seq<T>)
      reads buf
      requires Valid()
    {
      buf[from..to]
    }
  }

  /** Appends to a slice: in place past its end when there is room, otherwise to a
      fresh backing array. */
  method Grow<T(0)>(s: Slice<T>, x: T) returns (r: Slice<T>)
    requires s.Valid()
    modifies s.buf
    ensures r.Valid() && r.Items() == old(s.Items()) + [x]
    ensures r.buf == s.buf || fresh(r.buf)
    ensures if r.buf == s.buf then r.from == s.from && r.to == s.to + 1 else r.from == 0
    ensures forall k :: 0 <= k < s.to ==> s.buf[k] == old(s.buf[k])
  {
    if s.to < s.buf.Length {
      s.buf[s.to] := x;
      r := Slice(s.buf, s.from, s.to + 1);
      assert s.buf[s.from..s.to] == old(s.buf[s.from..s.to]);
    } else {
      var n := s.to - s.from;
      var buf := new T[2 * n + 1];
      for i := 0 to n
        invariant s.buf[..] == old(s.buf[..])
        invariant buf[..i] == s.buf[s.from..s.from + i]
      {
        buf[i] := s.buf[s.from + i];
      }
      buf[n] := x;
      r := Slice(buf, 0, n + 1);
      assert buf[..n + 1] == buf[..n] + [x];
      assert forall k :: 0 <= k < s.to ==> s.buf[k] == s.buf[..][k];
      assert s.buf[s.from..s.to] == old(s.buf[s.from..s.to]);
    }
  }

  /** Appends several, one at a time. Nothing below the slice's end is written. */
  method GrowAll<T(0)>(s: Slice<T>, xs: seq<T>) returns (r: Slice<T>)
    requires s.Valid()
    modifies s.buf
    ensures r.Valid() && r.Items() == old(s.Items()) + xs
    ensures r.buf == s.buf || fresh(r.buf)
    ensures if r.buf == s.buf then r.from == s.from && s.to <= r.to else r.from == 0
    ensures forall k :: 0 <= k < s.to ==> s.buf[k] == old(s.buf[k])
  {
    r := s;
    ghost var was := s.Items();
    for i := 0 to |xs|
      invariant r.Valid() && r.Items() == was + xs[..i]
      invariant r.buf == s.buf || fresh(r.buf)
      invariant if r.buf == s.buf then r.from == s.from && s.to <= r.to else r.from == 0
      invariant forall k :: 0 <= k < s.to ==> s.buf[k] == old(s.buf[k])
    {
      assert was + xs[..i] + [xs[i]] == was + xs[..i + 1];
      r := Grow(r, xs[i]);
    }
    assert xs[..|xs|] == xs;
  }

  /** Compacts the log in place: entries kept move down over the entries dropped. */
  method Compact(log: Slice<LogEntry>, id: StreamID, through: Option<int>) returns (r: Slice<LogEntry>)
    requires log.Valid() && log.from == 0
    modifies log.buf
    ensures r.Valid() && r.buf == log.buf && r.from == 0
    ensures r.Items() == Without(old(log.Items()), id, through)
  {
    var buf, n := log.buf, log.to;
    ghost var was := log.Items();
    var kept := 0;
    for i := 0 to n
      invariant kept <= i
      invariant forall j :: i <= j < n ==> buf[j] == was[j]
      invariant buf[..kept] == Without(was[..i], id, through)
    {
      var entry := buf[i];
      assert was[..i + 1][..i] == was[..i];
      if !(entry.stream == id && (through.None? || entry.version <= through.value)) {
        buf[kept] := entry;
        assert buf[..kept + 1] == buf[..kept] + [entry];
        kept := kept + 1;
      }
    }
    assert was[..n] == was;
    r := Slice(buf, 0, kept);
  }

  /** Encodes every event before any is committed. Each one tried spends a
      position, the one that fails too. */
  method EncodeAll(id: StreamID, tip: int, counter: int, events: seq<Writable>)
      returns (ok: bool, last: int, tx: seq<LogEntry>, written: seq<Event>)
    ensures ok <==> Encodable(events) == |events|
    ensures last == counter + (if ok then |events| else Encodable(events) + 1)
    ensures ok ==> written == Written(id, tip, counter, events) && tx == Entries(written)
  {
    hide Encodable;
    last, tx, written := counter, [], [];
    for i := 0 to |events|
      invariant last == counter + i
      invariant forall j :: 0 <= j < i ==> events[j].encodable
      invariant written == Written(id, tip, counter, events)[..i]
      invariant |tx| == i && forall j :: 0 <= j < i ==> tx[j] == Entry(written[j])
    {
      last := last + 1;
      if !events[i].encodable {
        EncodableIs(events, i);
        return false, last, [], [];
      }
      var event := Event(id, tip + i + 1, last, events[i].payload);
      tx := tx + [LogEntry(event.position, id, event.version, event)];
      written := written + [event];
    }
    EncodableIs(events, |events|);
    ok := true;
  }

  lemma EmptyLimited(count: int)
    ensures Limited<Event>([], if count > 0 then count else 0) == []
  {
  }

  datatype StreamData = StreamData(firstVersion: int, events: Slice<Event>)

  type Streams = map<StreamID, StreamData>

  /** No two streams share a backing array. */
  ghost predicate Separate(streams: Streams) {
    && (forall id :: id in streams ==> streams[id].events.Valid())
    && (forall a, b :: a in streams && b in streams && a != b ==> streams[a].events.buf != streams[b].events.buf)
  }

  /** No append to the streams can write inside the slice. */
  ghost predicate Apart(streams: Streams, s: Slice<Event>) {
    forall id :: id in streams && streams[id].events.buf == s.buf ==> s.to <= streams[id].events.to
  }

  predicate Foreign(streams: Streams, id: StreamID, buf: array<Event>) {
    forall other :: other in streams && other != id ==> streams[other].events.buf != buf
  }

  lemma RemovalKeeps(streams: Streams, id: StreamID)
    requires Separate(streams)
    ensures Separate(streams - {id})
    ensures forall s: Slice<Event> :: Apart(streams, s) ==> Apart(streams - {id}, s)
  {
  }

  lemma UpdateKeepsSeparate(streams: Streams, id: StreamID, stream: StreamData)
    requires Separate(streams) && stream.events.Valid() && Foreign(streams, id, stream.events.buf)
    ensures Separate(streams[id := stream])
  {
  }

  /** The streams' own slices are among them. */
  lemma OwnSlicesAreApart(streams: Streams)
    requires Separate(streams)
    ensures forall id :: id in streams ==> streams[id].events.Valid() && Apart(streams, streams[id].events)
  {
  }

  lemma ApartIsBelow(streams: Streams, id: StreamID, s: Slice<Event>)
    requires Apart(streams, s) && id in streams && streams[id].events.buf == s.buf
    ensures s.to <= streams[id].events.to
  {
  }

  lemma UpdateKeepsApart(streams: Streams, id: StreamID, stream: StreamData, s: Slice<Event>)
    requires Apart(streams, s)
    requires stream.events.buf == s.buf ==> id in streams && streams[id].events.buf == s.buf && streams[id].events.to <= stream.events.to
    ensures Apart(streams[id := stream], s)
  {
  }

  datatype NextResult = Yielded(event: Event) | EndOfStream | Closed

  // ---------------------------------------------------------------------------
  // The iterator
  // ---------------------------------------------------------------------------

  class StreamIterator {
    var events: Option<Slice<Event>>
    var cursor: int
    var direction: Direction
    var limit: int
    var retrieved: int

    predicate Valid() reads this {
      events.Some? ==>
        && events.value.Valid()
        && InRange(events.value.to - events.value.from, direction, cursor, limit, retrieved)
    }

    ghost function Footprint(): (r: set<array<Event>>)
      reads this
    {
      if events.Some? then {events.value.buf} else {}
    }

    /** What it is still to yield. */
    function Remaining(): (r: seq<Event>)
      reads this, Footprint()
      requires Valid() && events.Some?
    {
      Rest(events.value.Items(), direction, cursor, limit, retrieved)
    }

    constructor (events: Slice<Event>, cursor: int, direction: Direction, limit: int)
      requires events.Valid() && limit >= 0
      requires direction.Forward? ==> cursor >= 0
      requires direction.Reverse? ==> cursor < events.to - events.from
      ensures Valid() && this.events == Some(events) && this.cursor == cursor
      ensures this.direction == direction && this.limit == limit && retrieved == 0
      ensures Remaining() == Limited(From(events.Items(), direction, cursor), limit)
    {
      this.events := Some(events);
      this.cursor := cursor;
      this.direction := direction;
      this.limit := limit;
      retrieved := 0;
    }

    method Next() returns (r: NextResult)
      requires Valid()
      modifies this
      ensures Valid() && events == old(events)
      ensures match r
              case Closed => old(events).None?
              case EndOfStream => old(events).Some? && old(Remaining()) == [] && Remaining() == []
              case Yielded(event) => old(events).Some? && old(Remaining()) == [event] + Remaining()
    {
      if events.None? {
        return Closed;
      }
      hide Rest, InRange, Exhausted, Advanced, StreamIterator.Remaining;
      var s := events.value;
      Stands();
      RestStep(s.Items(), direction, cursor, limit, retrieved);
      if Exhausted(s.to - s.from, direction, cursor, limit, retrieved) {
        return EndOfStream;
      }
      var event := Advance();
      return Yielded(event);
    }

    /** Takes the event at the cursor. */
    method Advance() returns (event: Event)
      requires Valid() && events.Some? && Remaining() != []
      modifies this`cursor, this`retrieved
      ensures Valid() && old(Remaining()) == [event] + Remaining()
    {
      hide Rest, InRange, Exhausted, Advanced, StreamIterator.Remaining;
      var s := events.value;
      ghost var items, rest := s.Items(), Remaining();
      Stands();
      RestStep(items, direction, cursor, limit, retrieved);
      event := s.buf[s.from + cursor];
      cursor := Advanced(direction, cursor);
      retrieved := retrieved + 1;
      Unread(items, rest, event);
    }

    /** Where an open iterator stands in what it was opened on. */
    lemma Stands()
      requires Valid() && events.Some?
      ensures var items := events.value.Items();
              && |items| == events.value.to - events.value.from
              && InRange(|items|, direction, cursor, limit, retrieved)
              && Remaining() == Rest(items, direction, cursor, limit, retrieved)
              && (0 <= cursor < |items| ==> events.value.buf[events.value.from + cursor] == items[cursor])
    {
    }

    lemma Unread(items: seq<Event>, rest: seq<Event>, event: Event)
      requires Valid() && events.Some? && items == events.value.Items()
      requires rest == [event] + Rest(items, direction, cursor, limit, retrieved)
      ensures rest == [event] + Remaining()
    {
    }

    method Close()
      requires Valid()
      modifies this
      ensures Valid() && events == None
    {
      events := None;
    }
  }

  // ---------------------------------------------------------------------------
  // The store
  // ---------------------------------------------------------------------------

  class EventStore {
    var streams: map<StreamID, StreamData>
    var globalLog: Slice<LogEntry>
    var globalCounter: int

    ghost predicate StreamsValid()
      reads this`streams
    {
      Separate(streams)
    }

    ghost predicate LogValid()
      reads this`globalLog
    {
      globalLog.Valid() && globalLog.from == 0
    }

    ghost predicate Valid()
      reads this`streams, this`globalLog
    {
      StreamsValid() && LogValid()
    }

    ghost function Buffers(): (r: set<array<Event>>)
      reads this`streams
    {
      set id | id in streams :: streams[id].events.buf
    }

    ghost function Contents(): (r: map<StreamID, Recorded>)
      reads this`streams, Buffers()
      requires StreamsValid()
      ensures r.Keys == streams.Keys
    {
      map id | id in streams :: Recorded(streams[id].firstVersion, streams[id].events.Items())
    }

    ghost function Value(): (r: Store)
      reads this, Buffers(), globalLog.buf
      requires Valid()
    {
      Store(Contents(), globalLog.Items(), globalCounter)
    }

    lemma EntryIs(id: StreamID)
      requires StreamsValid() && id in streams
      ensures streams[id].events.Valid()
      ensures Contents()[id] == Recorded(streams[id].firstVersion, streams[id].events.Items())
      ensures |Contents()[id].events| == streams[id].events.to - streams[id].events.from
    {
    }

    constructor ()
      ensures Valid() && Value() == EMPTY && fresh(globalLog.buf) && streams == map[]
    {
      streams := map[];
      var log := new LogEntry[0];
      globalLog := Slice(log, 0, 0);
      globalCounter := 0;
    }

    /** An open iterator the store no longer disturbs. */
    ghost predicate Serves(it: StreamIterator)
      reads this`streams, it
    {
      it.Valid() && it.events.Some? && Apart(streams, it.events.value)
    }

    /** Puts a stream's record in the map. */
    method Install(id: StreamID, stream: StreamData)
      requires StreamsValid() && stream.events.Valid() && Foreign(streams, id, stream.events.buf)
      modifies this`streams
      ensures StreamsValid() && streams == old(streams)[id := stream]
      ensures Contents() == old(Contents())[id := Recorded(stream.firstVersion, stream.events.Items())]
    {
      UpdateKeepsSeparate(streams, id, stream);
      streams := streams[id := stream];
    }

    /** Appends events to a stream's slice. */
    method Publish(id: StreamID, events: seq<Event>)
      requires StreamsValid() && id in streams
      modifies this`streams, streams[id].events.buf
      ensures StreamsValid()
      ensures forall b :: b in Buffers() ==> b in old(Buffers()) || fresh(b)
      ensures var stream := old(Contents())[id];
              Contents() == old(Contents())[id := Recorded(stream.firstVersion, stream.events + events)]
      ensures forall s: Slice<Event> :: old(allocated(s)) && s.Valid() && old(Apart(streams, s)) ==> Apart(streams, s) && s.Items() == old(s.Items())
    {
      var stream := streams[id];
      ghost var before := streams;
      EntryIs(id);
      var grown := GrowStream(id, events);
      hide Separate, Apart, Foreign, Contents;
      ghost var after := stream.(events := grown);
      Install(id, stream.(events := grown));
      forall s: Slice<Event> | old(allocated(s)) && s.Valid() && old(Apart(streams, s))
        ensures Apart(streams, s)
      {
        if s.buf == stream.events.buf {
          ApartIsBelow(before, id, s);
        }
        UpdateKeepsApart(before, id, after, s);
      }
    }

    /** Writes past a slice's end change no stream. */
    method GrowStream(id: StreamID, events: seq<Event>) returns (grown: Slice<Event>)
      requires StreamsValid() && id in streams
      modifies streams[id].events.buf
      ensures grown.Valid() && grown.Items() == old(streams[id].events.Items()) + events
      ensures grown.buf == streams[id].events.buf || fresh(grown.buf)
      ensures grown.buf == streams[id].events.buf ==> streams[id].events.to <= grown.to
      ensures Foreign(streams, id, grown.buf)
      ensures Contents() == old(Contents())
      ensures forall s: Slice<Event> :: old(allocated(s)) && s.Valid() && Apart(streams, s) ==> s.Items() == old(s.Items())
    {
      ghost var was := Contents();
      var stream := streams[id].events;
      grown := GrowAll(stream, events);
      forall s: Slice<Event> | old(allocated(s)) && s.Valid() && Apart(streams, s) ensures s.Items() == old(s.Items()) {
        assert forall k :: s.from <= k < s.to ==> s.buf[k] == old(s.buf[k]);
      }
      OwnSlicesAreApart(streams);
      hide Separate, Apart, Slice.Items;
      forall other | other in streams ensures Contents()[other] == was[other] {
        assert streams[other].events.Items() == old(streams[other].events.Items());
      }
      assert Contents() == was;
    }

    /** Encodes against the store's counter. */
    method Encode(id: StreamID, tip: int, events: seq<Writable>) returns (ok: bool, tx: seq<LogEntry>, written: seq<Event>)
      requires StreamsValid()
      modifies this`globalCounter
      ensures Contents() == old(Contents())
      ensures ok <==> Encodable(events) == |events|
      ensures globalCounter == old(globalCounter) + (if ok then |events| else Encodable(events) + 1)
      ensures ok ==> written == Written(id, tip, old(globalCounter), events) && tx == Entries(written)
    {
      hide Encodable;
      var last;
      ok, last, tx, written := EncodeAll(id, tip, globalCounter, events);
      globalCounter := last;
    }

    /** The entry of a stream, made on first use. */
    method Enter(id: StreamID)
      requires StreamsValid()
      modifies this`streams
      ensures StreamsValid() && id in streams
      ensures Contents() == if id in old(streams) then old(Contents()) else old(Contents())[id := Recorded(1, [])]
      ensures forall b :: b in Buffers() ==> b in old(Buffers()) || fresh(b)
      ensures forall s: Slice<Event> :: old(allocated(s)) && s.Valid() && old(Apart(streams, s)) ==> Apart(streams, s) && s.Items() == old(s.Items())
    {
      ghost var before := streams;
      if id !in streams {
        ghost var was := Contents();
        var none := new Event[0];
        assert Foreign(streams, id, none);
        assert Contents() == was;
        hide Contents, Separate, Apart, Foreign;
        Install(id, StreamData(1, Slice(none, 0, 0)));
        assert streams[id].events.Items() == [];
        forall s: Slice<Event> | old(allocated(s)) && s.Valid() && old(Apart(streams, s)) ensures Apart(streams, s) {
          assert s.buf != none;
          UpdateKeepsApart(before, id, streams[id], s);
        }
      }
    }

    method GrowLog(entries: seq<LogEntry>)
      requires LogValid() && StreamsValid()
      modifies this`globalLog, globalLog.buf
      ensures LogValid() && Contents() == old(Contents())
      ensures globalLog.buf == old(globalLog).buf || fresh(globalLog.buf)
      ensures globalLog.Items() == old(globalLog.Items()) + entries
    {
      globalLog := GrowAll(globalLog, entries);
    }

    method AppendStream(id: StreamID, events: seq<Writable>, guard: Guard) returns (r: Result<seq<Event>>)
      requires Valid()
      modifies this, Buffers(), globalLog.buf
      ensures Valid()
      ensures forall b :: b in Buffers() ==> b in old(Buffers()) || fresh(b)
      ensures globalLog.buf == old(globalLog).buf || fresh(globalLog.buf)
      ensures (Value(), r) == Appended(old(Value()), id, events, guard)
      ensures forall it: StreamIterator :: old(allocated(it)) && old(Serves(it)) ==> Serves(it) && it.Remaining() == old(it.Remaining())
    {
      hide Appended, Contents, Separate, Apart, Rest;
      r := Append(id, events, guard);
      forall it: StreamIterator | old(allocated(it)) && old(Serves(it))
        ensures Serves(it) && it.Remaining() == old(it.Remaining())
      {
        assert old(Apart(streams, it.events.value));
      }
    }

    method Append(id: StreamID, events: seq<Writable>, guard: Guard) returns (r: Result<seq<Event>>)
      requires Valid()
      modifies this, Buffers(), globalLog.buf
      ensures Valid()
      ensures forall b :: b in Buffers() ==> b in old(Buffers()) || fresh(b)
      ensures globalLog.buf == old(globalLog).buf || fresh(globalLog.buf)
      ensures (Value(), r) == Appended(old(Value()), id, events, guard)
      ensures forall s: Slice<Event> :: old(allocated(s)) && s.Valid() && old(Apart(streams, s)) ==> Apart(streams, s) && s.Items() == old(s.Items())
    {
      hide Apart, Contents, StreamsValid, Encodable, Written, Entries, Slice.Items;
      if guard.expectVersion.Some? && guard.mustNotExist {
        return Err(ExclusiveOptions);
      }
      Enter(id);
      EntryIs(id);
      ghost var was := old(Value());
      assert was.streams.Keys == old(streams).Keys;
      ghost var stream := was.Stream(id);
      assert Contents() == was.streams[id := stream];
      var entry := streams[id];
      var tip := entry.firstVersion + (entry.events.to - entry.events.from) - 1;
      assert tip == stream.Tip();
      if guard.mustNotExist && tip > 0 {
        return Err(VersionMismatch(0, tip));
      }
      if guard.expectVersion.Some? && guard.expectVersion.value != tip {
        return Err(VersionMismatch(guard.expectVersion.value, tip));
      }
      var ok, tx, written := Encode(id, tip, events);
      if !ok {
        return Err(MarshalFailed);
      }
      Publish(id, written);
      assert Contents() == was.streams[id := Recorded(stream.firstVersion, stream.events + written)];
      GrowLog(tx);
      return Ok(written);
    }

    /** Removes a stream's entries at or below a version, or all of them, from the log. */
    method DropFromGlobalLog(id: StreamID, through: Option<int>)
      requires LogValid() && StreamsValid()
      modifies this`globalLog, globalLog.buf
      ensures Contents() == old(Contents())
      ensures LogValid() && globalLog.buf == old(globalLog).buf
      ensures globalLog.Items() == Without(old(globalLog.Items()), id, through)
    {
      hide Without;
      globalLog := Compact(globalLog, id, through);
    }

    /** The first index of the log past a position, by binary search. */
    method Search(position: int) returns (start: nat)
      requires Valid() && Ascending(globalLog.Items())
      ensures start <= globalLog.to
      ensures forall i :: 0 <= i < start ==> globalLog.buf[i].position <= position
      ensures forall i :: start <= i < globalLog.to ==> globalLog.buf[i].position > position
    {
      ghost var log := globalLog.Items();
      assert forall i :: 0 <= i < |log| ==> log[i] == globalLog.buf[i];
      var low, high := 0, globalLog.to;
      while low < high
        invariant low <= high <= globalLog.to
        invariant forall i :: 0 <= i < low ==> log[i].position <= position
        invariant forall i :: high <= i < globalLog.to ==> log[i].position > position
      {
        var middle := (low + high) / 2;
        if globalLog.buf[middle].position > position {
          high := middle;
        } else {
          low := middle + 1;
        }
      }
      start := low;
    }

    /** The log's events from an index on, copied out of it. */
    method CopyTail(start: nat) returns (events: array<Event>)
      requires globalLog.Valid() && globalLog.from == 0 && start <= globalLog.to
      ensures fresh(events) && events.Length == globalLog.to - start
      ensures forall j :: 0 <= j < events.Length ==> events[j] == globalLog.Items()[start + j].data
    {
      var n := globalLog.to - start;
      events := new Event[n];
      for i := 0 to n
        invariant forall j :: 0 <= j < i ==> events[j] == globalLog.buf[start + j].data
      {
        events[i] := globalLog.buf[start + i].data;
      }
    }

    method ReadAll(position: int, count: int) returns (it: StreamIterator)
      requires Valid() && WellFormed(Value())
      ensures fresh(it) && Serves(it)
      ensures it.Remaining() == GlobalRead(Value().log, position, count)
    {
      ghost var log := globalLog.Items();
      assert Ascending(log);
      hide WellFormed, Past;
      var start := Search(position);
      assert forall i :: 0 <= i < |log| ==> log[i] == globalLog.buf[i];
      var events := CopyTail(start);
      PastIsTail(log, position, start);
      assert events[..] == Past(log, position) by {
        assert forall j :: 0 <= j < events.Length ==> events[..][j] == Past(log, position)[start + j - start];
      }
      it := new StreamIterator(Slice(events, 0, events.Length), 0, Forward, if count > 0 then count else 0);
      assert it.events.value.Items() == events[..];
    }

    method ReadStream(id: StreamID, direction: Direction, version: Int64, count: int)
        returns (r: Result<StreamIterator>)
      requires Valid() && WellFormed(Value())
      requires Value().Stream(id).Tip() <= MAX_INT64
      ensures if Value().Stream(id).NeverWritten() then r == Err(StreamNotFound) else r.Ok? && fresh(r.value) && Serves(r.value)
      ensures r.Ok? ==> r.value.Remaining() ==
                        if Overflows(Value().Stream(id).firstVersion, direction, version) then []
                        else StreamRead(Value().Stream(id).events, direction, version, count)
    {
      ghost var stream := Value().Stream(id);
      assert StreamOk(stream, id);
      hide StreamOk, StreamRead, From, Above, UpTo, Reversed, StartCursor, Limited, WellFormed;
      if id !in streams {
        return Err(StreamNotFound);
      }
      var entry := streams[id];
      if entry.events.to == entry.events.from && entry.firstVersion == 1 {
        return Err(StreamNotFound);
      }
      var size := entry.events.to - entry.events.from;
      var cursor := StartCursor(entry.firstVersion, size, direction, version);
      CursorSelects(stream, id, direction, version);
      assert |entry.events.Items()| == size;
      CountCutsTheRead(stream.events, direction, version, count);
      assert Limited<Event>([], if count > 0 then count else 0) == [] by { EmptyLimited(count); }
      var it := new StreamIterator(entry.events, cursor, direction, if count > 0 then count else 0);
      return Ok(it);
    }

    /** Drops a stream's events up to a version from both indexes. */
    method Truncate(id: StreamID, toVersion: int)
      requires Valid() && id in streams && toVersion > 0 && !Contents()[id].NeverWritten()
      modifies this`streams, this`globalLog, globalLog.buf
      ensures globalLog.buf == old(globalLog).buf
      ensures forall b :: b in Buffers() ==> b in old(Buffers()) || fresh(b)
      ensures Valid() && Value() == Deleted(old(Value()), id, toVersion).0
      ensures forall s: Slice<Event> :: old(allocated(s)) && s.Valid() && old(Apart(streams, s)) ==> Apart(streams, s) && s.Items() == old(s.Items())
    {
      hide Apart, Without, Contents, StreamsValid;
      var entry := streams[id];
      var size := entry.events.to - entry.events.from;
      EntryIs(id);
      var tip := entry.firstVersion + size - 1;
      var cut := if toVersion < tip then toVersion else tip;
      var removed := cut - entry.firstVersion + 1;
      if removed <= 0 {
        return;
      }
      Cut(id, removed, cut);
      DropFromGlobalLog(id, Some(cut));
    }

    /** Takes a stream out of the map. */
    method Forget(id: StreamID)
      requires StreamsValid() && id in streams
      modifies this`streams
      ensures forall b :: b in Buffers() ==> b in old(Buffers()) || fresh(b)
      ensures StreamsValid() && Contents() == old(Contents()) - {id}
      ensures forall s: Slice<Event> :: old(allocated(s)) && s.Valid() && old(Apart(streams, s)) ==> Apart(streams, s) && s.Items() == old(s.Items())
    {
      RemovalKeeps(streams, id);
      ghost var was := Contents();
      hide Separate, Apart;
      streams := streams - {id};
      assert Contents() == was - {id};
    }

    /** Cuts a stream's leading events off its slice. */
    method Cut(id: StreamID, removed: nat, cut: int)
      requires StreamsValid() && id in streams && removed <= streams[id].events.to - streams[id].events.from
      modifies this`streams
      ensures forall b :: b in Buffers() ==> b in old(Buffers()) || fresh(b)
      ensures StreamsValid()
      ensures Contents() == old(Contents())[id := Recorded(cut + 1, old(Contents())[id].events[removed..])]
      ensures forall s: Slice<Event> :: old(allocated(s)) && s.Valid() && old(Apart(streams, s)) ==> Apart(streams, s) && s.Items() == old(s.Items())
    {
      var entry := streams[id];
      EntryIs(id);
      var events := Slice(entry.events.buf, entry.events.from + removed, entry.events.to);
      assert events.Items() == entry.events.Items()[removed..];
      Install(id, StreamData(cut + 1, events));
    }

    method DeleteStream(id: StreamID, toVersion: int) returns (r: Result<()>)
      requires Valid()
      modifies this`streams, this`globalLog, globalLog.buf
      ensures Valid()
      ensures globalLog.buf == old(globalLog).buf
      ensures forall b :: b in Buffers() ==> b in old(Buffers()) || fresh(b)
      ensures (Value(), r) == Deleted(old(Value()), id, toVersion)
      ensures forall it: StreamIterator :: old(allocated(it)) && old(Serves(it)) ==> Serves(it) && it.Remaining() == old(it.Remaining())
    {
      hide Deleted, Contents, Separate, Apart, Rest;
      r := Delete(id, toVersion);
      forall it: StreamIterator | old(allocated(it)) && old(Serves(it))
        ensures Serves(it) && it.Remaining() == old(it.Remaining())
      {
        assert old(Apart(streams, it.events.value));
      }
    }

    method Delete(id: StreamID, toVersion: int) returns (r: Result<()>)
      requires Valid()
      modifies this`streams, this`globalLog, globalLog.buf
      ensures Valid()
      ensures globalLog.buf == old(globalLog).buf
      ensures forall b :: b in Buffers() ==> b in old(Buffers()) || fresh(b)
      ensures (Value(), r) == Deleted(old(Value()), id, toVersion)
      ensures forall s: Slice<Event> :: old(allocated(s)) && s.Valid() && old(Apart(streams, s)) ==> Apart(streams, s) && s.Items() == old(s.Items())
    {
      hide Apart, Without, Contents, StreamsValid;
      if toVersion < 0 {
        return Err(NegativeVersion);
      }
      if id !in streams {
        return Err(StreamNotFound);
      }
      var entry := streams[id];
      EntryIs(id);
      var size := entry.events.to - entry.events.from;
      if size == 0 && entry.firstVersion == 1 {
        return Err(StreamNotFound);
      }
      if toVersion == 0 {
        Forget(id);
        DropFromGlobalLog(id, None);
        return Ok(());
      }
      Truncate(id, toVersion);
      return Ok(());
    }
  }
}
