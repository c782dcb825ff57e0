/** What an event store holds, as values: per-stream events with a moving first
    version, and one log in global order (eventstore/memory/event_store.go,
    eventstore/event_store.go). Proves that the two indexes agree after every run
    of appends, failed appends, truncations and deletions, and that the log's
    prefix is stable. */
module EventLog {
  import opened Base

  type StreamID = string

  /** An event's body, and the snapshot version its metadata carries, if any it can be read from. */
  datatype Payload = Payload(data: string, snapshotVersion: Option<int>)

  /** A committed event. Encoding and decoding are an identity on these. */
  datatype Event = Event(stream: StreamID, version: int, position: int, payload: Payload)

  datatype LogEntry = LogEntry(position: int, stream: StreamID, version: int, data: Event)

  /** An event to write; `encodable` is false when its encoding fails. */
  datatype Writable = Writable(payload: Payload, encodable: bool)

  datatype Guard = Guard(expectVersion: Option<int>, mustNotExist: bool)

  datatype StoreError =
    | ExclusiveOptions
    | VersionMismatch(expected: int, actual: int)
    | MarshalFailed
    | NegativeVersion
    | StreamNotFound

  datatype Result<T> = Ok(value: T) | Err(error: StoreError)

  /** One stream. An entry with no events and first version 1 was never written;
      one with a higher first version was truncated empty. */
  datatype Recorded = Recorded(firstVersion: int, events: seq<Event>) {
    function Tip(): int {
      firstVersion + |events| - 1
    }

    predicate NeverWritten() {
      events == [] && firstVersion == 1
    }
  }

  datatype Store = Store(streams: map<StreamID, Recorded>, log: seq<LogEntry>, counter: int) {
    function Stream(id: StreamID): Recorded {
      if id in streams then streams[id] else Recorded(1, [])
    }

    /** The map entry an append leaves even when it is refused. */
    function Touched(id: StreamID): Store {
      this.(streams := streams[id := Stream(id)])
    }
  }

  const EMPTY := Store(map[], [], 0)

  // ---------------------------------------------------------------------------
  // Appending
  // ---------------------------------------------------------------------------

  function Refusal(tip: int, guard: Guard): Option<StoreError> {
    if guard.mustNotExist && tip > 0 then Some(VersionMismatch(0, tip))
    else if guard.expectVersion.Some? && guard.expectVersion.value != tip
    then Some(VersionMismatch(guard.expectVersion.value, tip))
    else None
  }

  /** How many events are encoded before the first that cannot be. */
  function Encodable(events: seq<Writable>): (n: nat)
    ensures n <= |events|
    ensures forall i :: 0 <= i < n ==> events[i].encodable
    ensures n < |events| ==> !events[n].encodable
  {
    if events == [] || !events[0].encodable then 0 else 1 + Encodable(events[1..])
  }

  lemma {:induction false} EncodableIs(events: seq<Writable>, n: nat)
    requires n <= |events| && (forall i :: 0 <= i < n ==> events[i].encodable)
    requires n < |events| ==> !events[n].encodable
    ensures Encodable(events) == n
  {
    if n == 0 {
    } else {
      EncodableIs(events[1..], n - 1);
    }
  }

  function Written(id: StreamID, tip: int, counter: int, events: seq<Writable>): (r: seq<Event>)
    ensures |r| == |events|
    ensures forall i :: 0 <= i < |r| ==> r[i] == Event(id, tip + i + 1, counter + i + 1, events[i].payload)
  {
    seq(|events|, i requires 0 <= i < |events| => Event(id, tip + i + 1, counter + i + 1, events[i].payload))
  }

  function Entry(e: Event): LogEntry {
    LogEntry(e.position, e.stream, e.version, e)
  }

  function Entries(events: seq<Event>): (r: seq<LogEntry>)
    ensures |r| == |events| && forall i :: 0 <= i < |r| ==> r[i] == Entry(events[i])
  {
    seq(|events|, i requires 0 <= i < |events| => Entry(events[i]))
  }

  /** An append either refuses, or fails with positions spent, or commits all. */
  function Appended(s: Store, id: StreamID, events: seq<Writable>, guard: Guard): (Store, Result<seq<Event>>) {
    if guard.expectVersion.Some? && guard.mustNotExist then (s, Err(ExclusiveOptions))
    else
      var stream := s.Stream(id);
      var refusal := Refusal(stream.Tip(), guard);
      if refusal.Some? then (s.Touched(id), Err(refusal.value))
      else if Encodable(events) < |events| then
        (s.Touched(id).(counter := s.counter + Encodable(events) + 1), Err(MarshalFailed))
      else
        var written := Written(id, stream.Tip(), s.counter, events);
        (Store(s.streams[id := Recorded(stream.firstVersion, stream.events + written)],
               s.log + Entries(written), s.counter + |events|),
         Ok(written))
  }

  // ---------------------------------------------------------------------------
  // Deleting
  // ---------------------------------------------------------------------------

  /** The log without a stream's entries at or below a version; everything when None. */
  function Without(log: seq<LogEntry>, id: StreamID, through: Option<int>): (r: seq<LogEntry>)
    ensures |r| <= |log|
  {
    if log == [] then []
    else
      var front := Without(log[..|log| - 1], id, through);
      var last := log[|log| - 1];
      if last.stream == id && (through.None? || last.version <= through.value) then front else front + [last]
  }

  function Deleted(s: Store, id: StreamID, toVersion: int): (Store, Result<()>) {
    if toVersion < 0 then (s, Err(NegativeVersion))
    else
      var stream := s.Stream(id);
      if stream.NeverWritten() then (s, Err(StreamNotFound))
      else if toVersion == 0 then
        (s.(streams := s.streams - {id}, log := Without(s.log, id, None)), Ok(()))
      else
        var cut := if toVersion < stream.Tip() then toVersion else stream.Tip();
        var removed := cut - stream.firstVersion + 1;
        if removed <= 0 then (s, Ok(()))
        else
          (Store(s.streams[id := Recorded(cut + 1, stream.events[removed..])], Without(s.log, id, Some(cut)), s.counter),
           Ok(()))
  }

  // ---------------------------------------------------------------------------
  // The two indexes agree
  // ---------------------------------------------------------------------------

  /** The events of one stream in a log. */
  function Of(log: seq<LogEntry>, id: StreamID): (r: seq<Event>) {
    if log == [] then []
    else
      var front := Of(log[..|log| - 1], id);
      var last := log[|log| - 1];
      if last.stream == id then front + [last.data] else front
  }

  predicate Ascending(log: seq<LogEntry>) {
    forall i, j :: 0 <= i < j < |log| ==> log[i].position < log[j].position
  }

  predicate StreamOk(stream: Recorded, id: StreamID) {
    && stream.firstVersion >= 1
    && forall i :: 0 <= i < |stream.events| ==>
         stream.events[i].stream == id && stream.events[i].version == stream.firstVersion + i
  }

  ghost predicate Agree(s: Store) {
    forall id :: Of(s.log, id) == s.Stream(id).events
  }

  ghost predicate WellFormed(s: Store) {
    && s.counter >= 0
    && (forall id :: id in s.streams ==> StreamOk(s.streams[id], id))
    && (forall i :: 0 <= i < |s.log| ==> 1 <= s.log[i].position <= s.counter && s.log[i] == Entry(s.log[i].data))
    && Ascending(s.log)
    && Agree(s)
  }

  lemma {:induction false} OfConcat(a: seq<LogEntry>, b: seq<LogEntry>, id: StreamID)
    ensures Of(a + b, id) == Of(a, id) + Of(b, id)
  {
    if b == [] {
      assert a + b == a;
    } else {
      var front := b[..|b| - 1];
      OfConcat(a, front, id);
      assert (a + b)[..|a + b| - 1] == a + front;
    }
  }

  lemma OfNone(id: StreamID)
    ensures Of([], id) == []
  {
  }

  lemma OfOne(e: LogEntry, id: StreamID)
    ensures Of([e], id) == if e.stream == id then [e.data] else []
  {
    assert [e][..0] == [];
  }

  lemma {:induction false} OfEntries(events: seq<Event>, id: StreamID, owner: StreamID)
    requires forall e :: e in events ==> e.stream == owner
    ensures Of(Entries(events), id) == if id == owner then events else []
  {
    hide Of;
    if events == [] {
      OfNone(id);
    } else {
      var front, last := events[..|events| - 1], events[|events| - 1];
      OfEntries(front, id, owner);
      assert Entries(events) == Entries(front) + [Entry(last)];
      OfConcat(Entries(front), [Entry(last)], id);
      OfOne(Entry(last), id);
      assert events == front + [last];
    }
  }

  /** The events past a version, by testing each. */
  function Above(events: seq<Event>, version: int): (r: seq<Event>) {
    if events == [] then []
    else
      var front := Above(events[..|events| - 1], version);
      var last := events[|events| - 1];
      if last.version > version then front + [last] else front
  }

  lemma AboveOneMore(front: seq<Event>, last: Event, version: int)
    ensures Above(front + [last], version) == Above(front, version) + if last.version > version then [last] else []
  {
    assert (front + [last])[..|front|] == front;
  }

  /** On consecutive versions the test selects a suffix. */
  lemma {:induction false} AboveIsSuffix(events: seq<Event>, version: int, first: int)
    requires forall i :: 0 <= i < |events| ==> events[i].version == first + i
    ensures version < first ==> Above(events, version) == events
    ensures version >= first + |events| ==> Above(events, version) == []
    ensures first - 1 <= version < first + |events| ==> Above(events, version) == events[version - first + 1..]
  {
    if events == [] {
    } else {
      hide Above;
      var front, last := events[..|events| - 1], events[|events| - 1];
      AboveIsSuffix(front, version, first);
      assert events == front + [last];
      AboveOneMore(front, last, version);
      if first - 1 <= version < first + |front| {
        assert events[version - first + 1..] == front[version - first + 1..] + [last];
      }
    }
  }

  /** Dropping entries of one stream keeps exactly its later events, and every
      other stream's. */
  lemma {:induction false} WithoutOf(log: seq<LogEntry>, id: StreamID, through: Option<int>, other: StreamID)
    requires forall i :: 0 <= i < |log| ==> log[i] == Entry(log[i].data)
    ensures other != id ==> Of(Without(log, id, through), other) == Of(log, other)
    ensures Of(Without(log, id, through), id) == if through.None? then [] else Above(Of(log, id), through.value)
  {
    if log == [] {
    } else {
      var front := log[..|log| - 1];
      var last := log[|log| - 1];
      WithoutOf(front, id, through, other);
      assert Without(log, id, through)[..] == Without(log, id, through);
      var kept := Without(front, id, through);
      assert (kept + [last])[..|kept + [last]| - 1] == kept;
      if last.stream == id {
        assert Of(log, id) == Of(front, id) + [last.data];
        assert Of(log, id)[..|Of(log, id)| - 1] == Of(front, id);
      }
    }
  }

  /** The entries left are entries of the log, in its order. */
  lemma {:induction false} WithoutKeepsOrder(log: seq<LogEntry>, id: StreamID, through: Option<int>)
    requires Ascending(log)
    ensures Ascending(Without(log, id, through))
    ensures forall e :: e in Without(log, id, through) <==>
              e in log && !(e.stream == id && (through.None? || e.version <= through.value))
  {
    if log == [] {
    } else {
      var front := log[..|log| - 1];
      assert log == front + [log[|log| - 1]];
      WithoutKeepsOrder(front, id, through);
    }
  }

  lemma RefusalKeepsWellFormed(s: Store, id: StreamID, counter: int)
    requires WellFormed(s) && s.counter <= counter
    ensures WellFormed(s.Touched(id).(counter := counter))
  {
    var t := s.Touched(id).(counter := counter);
    assert forall other :: t.Stream(other) == s.Stream(other);
    hide Of, Ascending;
  }

  lemma CommitKeepsAgree(s: Store, id: StreamID, written: seq<Event>, t: Store)
    requires Agree(s) && (forall e :: e in written ==> e.stream == id)
    requires t.log == s.log + Entries(written)
    requires t.streams == s.streams[id := Recorded(s.Stream(id).firstVersion, s.Stream(id).events + written)]
    ensures Agree(t)
  {
    hide Of, Entries;
    forall other ensures Of(t.log, other) == t.Stream(other).events {
      OfConcat(s.log, Entries(written), other);
      OfEntries(written, other, id);
      assert other != id ==> t.Stream(other) == s.Stream(other);
    }
  }

  lemma CommitKeepsAscending(s: Store, written: seq<Event>, t: Store)
    requires Ascending(s.log) && (forall i :: 0 <= i < |s.log| ==> s.log[i].position <= s.counter)
    requires forall i :: 0 <= i < |written| ==> written[i].position == s.counter + i + 1
    requires t.log == s.log + Entries(written)
    ensures Ascending(t.log)
  {
  }

  lemma AppendKeepsWellFormed(s: Store, id: StreamID, events: seq<Writable>, guard: Guard)
    requires WellFormed(s)
    ensures WellFormed(Appended(s, id, events, guard).0)
  {
    hide Agree, Of, Encodable, Refusal, Ascending;
    var (t, r) := Appended(s, id, events, guard);
    if r.Ok? {
      CommitKeepsAgree(s, id, r.value, t);
      CommitKeepsAscending(s, r.value, t);
    } else if guard.expectVersion.None? || !guard.mustNotExist {
      RefusalKeepsWellFormed(s, id, t.counter);
    }
  }

  /** What a deletion that takes effect leaves. */
  lemma DeletionLeaves(s: Store, id: StreamID, toVersion: int)
    requires WellFormed(s)
    ensures var t := Deleted(s, id, toVersion).0;
            var through := if toVersion == 0 then None else Some(t.Stream(id).firstVersion - 1);
            || t == s
            || (&& t.log == Without(s.log, id, through) && t.counter == s.counter
                && (forall other :: other != id ==> t.Stream(other) == s.Stream(other))
                && (forall other :: other in t.streams && other != id ==> other in s.streams)
                && StreamOk(t.Stream(id), id)
                && t.Stream(id).events == if through.None? then [] else Above(s.Stream(id).events, through.value))
  {
    hide Ascending, Without, Of;
    var t := Deleted(s, id, toVersion).0;
    var stream := s.Stream(id);
    if t != s && toVersion > 0 {
      AboveIsSuffix(stream.events, t.streams[id].firstVersion - 1, stream.firstVersion);
    }
  }

  lemma DeleteKeepsWellFormed(s: Store, id: StreamID, toVersion: int)
    requires WellFormed(s)
    ensures WellFormed(Deleted(s, id, toVersion).0)
  {
    hide Ascending, Without, Of, StreamOk;
    var t := Deleted(s, id, toVersion).0;
    DeletionLeaves(s, id, toVersion);
    hide Deleted;
    if t != s {
      var through := if toVersion == 0 then None else Some(t.Stream(id).firstVersion - 1);
      WithoutKeepsOrder(s.log, id, through);
      forall i | 0 <= i < |t.log| ensures 1 <= t.log[i].position <= t.counter && t.log[i] == Entry(t.log[i].data) {
        assert t.log[i] in t.log && t.log[i] in s.log;
      }
      forall other ensures Of(t.log, other) == t.Stream(other).events {
        WithoutOf(s.log, id, through, other);
      }
    }
  }

  // ---------------------------------------------------------------------------
  // Runs
  // ---------------------------------------------------------------------------

  datatype Op =
    | Append(id: StreamID, events: seq<Writable>, guard: Guard)
    | Delete(id: StreamID, toVersion: int)

  function Do(s: Store, op: Op): Store {
    match op
    case Append(id, events, guard) => Appended(s, id, events, guard).0
    case Delete(id, toVersion) => Deleted(s, id, toVersion).0
  }

  function Run(s: Store, ops: seq<Op>): Store
    decreases |ops|
  {
    if ops == [] then s else Run(Do(s, ops[0]), ops[1..])
  }

  lemma TwoOps(s: Store, first: Op, second: Op)
    ensures Run(s, [first, second]) == Do(Do(s, first), second)
  {
    hide Do;
    var t := Do(s, first);
    assert [first, second][1..] == [second] && [second][1..] == [];
    assert Run(s, [first, second]) == Run(t, [second]);
    assert Run(t, [second]) == Run(Do(t, second), []);
  }

  lemma DoKeepsWellFormed(s: Store, op: Op)
    requires WellFormed(s)
    ensures WellFormed(Do(s, op))
  {
    hide WellFormed, Appended, Deleted;
    match op
    case Append(id, events, guard) => AppendKeepsWellFormed(s, id, events, guard);
    case Delete(id, toVersion) => DeleteKeepsWellFormed(s, id, toVersion);
  }

  lemma {:induction false} RunKeepsWellFormed(s: Store, ops: seq<Op>)
    requires WellFormed(s)
    ensures WellFormed(Run(s, ops))
    decreases |ops|
  {
    hide WellFormed, Do;
    if ops == [] {
    } else {
      DoKeepsWellFormed(s, ops[0]);
      RunKeepsWellFormed(Do(s, ops[0]), ops[1..]);
    }
  }

  /** After any operations the global log filtered by stream is that stream's
      events, at its versions, and positions strictly increase up to the counter. */
  lemma IndexesAgree(ops: seq<Op>, id: StreamID)
    ensures var s := Run(EMPTY, ops);
            && Of(s.log, id) == s.Stream(id).events && StreamOk(s.Stream(id), id)
            && Ascending(s.log) && (forall e :: e in s.log ==> 1 <= e.position <= s.counter)
  {
    RunKeepsWellFormed(EMPTY, ops);
  }

  /** What is at or below the counter is settled: later operations only remove
      from it, and add only past it. */
  ghost predicate Settled(s: Store, t: Store) {
    && s.counter <= t.counter
    && forall e :: e in t.log && e.position <= s.counter ==> e in s.log
  }

  lemma DoSettles(s: Store, op: Op)
    requires WellFormed(s)
    ensures Settled(s, Do(s, op))
  {
    var t := Do(s, op);
    forall e | e in t.log && e.position <= s.counter ensures e in s.log {
      if op.Delete? && t != s {
        WithoutKeepsOrder(s.log, op.id, if op.toVersion == 0 then None else Some(t.streams[op.id].firstVersion - 1));
      }
    }
  }

  lemma {:induction false} RunSettles(s: Store, ops: seq<Op>)
    requires WellFormed(s)
    ensures Settled(s, Run(s, ops))
    decreases |ops|
  {
    hide WellFormed, Do;
    if ops == [] {
    } else {
      DoSettles(s, ops[0]);
      DoKeepsWellFormed(s, ops[0]);
      RunSettles(Do(s, ops[0]), ops[1..]);
    }
  }

  predicate Deletes(op: Op, e: LogEntry) {
    op.Delete? && op.id == e.stream && (op.toVersion == 0 || op.toVersion >= e.version)
  }

  /** A committed event stays, at its version and position, unless a deletion
      names its stream and reaches it. */
  lemma {:induction false} OnlyDeletionRemoves(s: Store, ops: seq<Op>, e: LogEntry)
    requires WellFormed(s) && e in s.log
    requires forall i :: 0 <= i < |ops| ==> !Deletes(ops[i], e)
    ensures e in Run(s, ops).log
    decreases |ops|
  {
    hide WellFormed, Do;
    if ops == [] {
    } else {
      DoKeepsEntry(s, ops[0], e);
      DoKeepsWellFormed(s, ops[0]);
      OnlyDeletionRemoves(Do(s, ops[0]), ops[1..], e);
    }
  }

  lemma DoKeepsEntry(s: Store, op: Op, e: LogEntry)
    requires WellFormed(s) && e in s.log && !Deletes(op, e)
    ensures e in Do(s, op).log
  {
    hide Agree;
    var t := Do(s, op);
    if op.Delete? && t != s {
      WithoutKeepsOrder(s.log, op.id, if op.toVersion == 0 then None else Some(t.streams[op.id].firstVersion - 1));
    }
  }

  // ---------------------------------------------------------------------------
  // Optimistic concurrency
  // ---------------------------------------------------------------------------

  /** The two stores hold the same events; only map entries of empty streams differ. */
  ghost predicate SameEvents(s: Store, t: Store) {
    t.log == s.log && t.counter == s.counter && forall id :: t.Stream(id) == s.Stream(id)
  }

  /** A mismatch is reported exactly when the stream's last version is not the expected
      one, or it has one although it must not; the report names both, and every stream,
      the log and the counter are as they were. */
  lemma MismatchIsExact(s: Store, id: StreamID, events: seq<Writable>, guard: Guard, expected: int, actual: int)
    requires WellFormed(s)
    ensures var (t, r) := Appended(s, id, events, guard);
            var tip := s.Stream(id).Tip();
            && (r == Err(VersionMismatch(expected, actual)) <==>
                  && actual == tip
                  && ((guard.mustNotExist && guard.expectVersion.None? && tip > 0 && expected == 0)
                      || (!guard.mustNotExist && guard.expectVersion == Some(expected) && expected != tip)))
            && (r == Err(ExclusiveOptions) <==> guard.mustNotExist && guard.expectVersion.Some?)
            && (r.Err? && r.error != MarshalFailed ==> SameEvents(s, t))
  {
  }

  /** An append that goes through continues right after the expected version, or
      starts the stream when it must not exist, whatever came before. */
  lemma AppendsFollowTheirGuard(s: Store, id: StreamID, events: seq<Writable>, guard: Guard)
    requires WellFormed(s) && events != []
    ensures var (t, r) := Appended(s, id, events, guard);
            r.Ok? ==>
              && |r.value| == |events|
              && (guard.expectVersion.Some? ==> r.value[0].version == guard.expectVersion.value + 1)
              && (guard.mustNotExist ==> r.value[0].version == 1 && s.Stream(id).events == [])
              && t.Stream(id).Tip() == r.value[0].version + |events| - 1
  {
    hide Of, Encodable;
    assert StreamOk(s.Stream(id), id);
  }

  /** What the guard asks of a stream whose last version is this. */
  predicate Admits(guard: Guard, tip: int) {
    if guard.mustNotExist then guard.expectVersion.None? && tip == 0
    else guard.expectVersion.None? || guard.expectVersion.value == tip
  }

  /** An append goes through exactly when its guard admits the stream and every event can
      be encoded; otherwise no event is added anywhere, and only a failed encoding spends
      positions, at most one for each event. */
  lemma AppendsAllOrNothing(s: Store, id: StreamID, events: seq<Writable>, guard: Guard)
    requires WellFormed(s)
    ensures var (t, r) := Appended(s, id, events, guard);
            var encodable := forall w :: w in events ==> w.encodable;
            && (r.Ok? <==> Admits(guard, s.Stream(id).Tip()) && encodable)
            && (r == Err(MarshalFailed) <==> Admits(guard, s.Stream(id).Tip()) && !encodable)
            && (r.Err? ==> SameEvents(s, t.(counter := s.counter)))
            && (r == Err(MarshalFailed) ==> s.counter < t.counter <= s.counter + |events|)
  {
    EncodableIsAll(events);
    assert StreamOk(s.Stream(id), id);
    hide Of, Encodable, Ascending, Agree, Written, Entries;
  }

  /** What goes through is at the end of the stream and of the log, all of it, in order
      and with its payloads; no other stream changes. */
  lemma CommittedAppendIsWhole(s: Store, id: StreamID, events: seq<Writable>, guard: Guard)
    requires WellFormed(s) && Appended(s, id, events, guard).1.Ok?
    ensures var (t, r) := Appended(s, id, events, guard);
            && |r.value| == |events| && (forall i :: 0 <= i < |events| ==> r.value[i].payload == events[i].payload)
            && t.Stream(id).events == s.Stream(id).events + r.value && Of(t.log, id) == t.Stream(id).events
            && t.log[..|s.log|] == s.log && |t.log| == |s.log| + |events|
            && (forall i :: 0 <= i < |events| ==> t.log[|s.log| + i] == Entry(r.value[i]))
            && forall other :: other != id ==> t.Stream(other) == s.Stream(other)
  {
    hide Of, Encodable, WellFormed, Refusal;
    AppendKeepsWellFormed(s, id, events, guard);
    AgreesOn(Appended(s, id, events, guard).0, id);
  }

  lemma AgreesOn(s: Store, id: StreamID)
    requires WellFormed(s)
    ensures Of(s.log, id) == s.Stream(id).events
  {
    hide Of;
  }

  lemma EncodableIsAll(events: seq<Writable>)
    ensures Encodable(events) == |events| <==> forall w :: w in events ==> w.encodable
  {
    if Encodable(events) < |events| {
      assert events[Encodable(events)] in events;
    }
  }

  predicate DeletesAll(op: Op, id: StreamID) {
    op.Delete? && op.id == id && op.toVersion == 0
  }

  /** A stream's last version survives everything but the deletion of the whole stream. */
  lemma DoKeepsTip(s: Store, op: Op, id: StreamID)
    requires WellFormed(s) && !DeletesAll(op, id)
    ensures Do(s, op).Stream(id).Tip() >= s.Stream(id).Tip()
    ensures op.Delete? ==> Do(s, op).Stream(id).Tip() == s.Stream(id).Tip()
  {
    hide Of, Agree, Ascending, Without, Encodable;
  }

  lemma {:induction false} RunKeepsTip(s: Store, ops: seq<Op>, id: StreamID)
    requires WellFormed(s) && forall i :: 0 <= i < |ops| ==> !DeletesAll(ops[i], id)
    ensures Run(s, ops).Stream(id).Tip() >= s.Stream(id).Tip()
    decreases |ops|
  {
    hide WellFormed, Do;
    if ops == [] {
    } else {
      DoKeepsTip(s, ops[0], id);
      DoKeepsWellFormed(s, ops[0]);
      RunKeepsTip(Do(s, ops[0]), ops[1..], id);
    }
  }

  /** Of two appends under the same guard, after any operations and with any between
      them that do not delete the whole stream, at most one goes through. */
  lemma GuardedAppendsExclude(before: seq<Op>, id: StreamID, first: seq<Writable>, between: seq<Op>,
                              second: seq<Writable>, guard: Guard)
    requires guard.expectVersion.Some? || guard.mustNotExist
    requires first != [] && second != [] && forall i :: 0 <= i < |between| ==> !DeletesAll(between[i], id)
    ensures var s := Run(EMPTY, before);
            var t := Run(Appended(s, id, first, guard).0, between);
            !(Appended(s, id, first, guard).1.Ok? && Appended(t, id, second, guard).1.Ok?)
  {
    hide Run, WellFormed, Appended;
    var s := Run(EMPTY, before);
    var u := Appended(s, id, first, guard).0;
    var t := Run(u, between);
    EmptyIsWellFormed();
    RunKeepsWellFormed(EMPTY, before);
    AppendKeepsWellFormed(s, id, first, guard);
    RunKeepsWellFormed(u, between);
    AppendsFollowTheirGuard(s, id, first, guard);
    AppendsFollowTheirGuard(t, id, second, guard);
    RunKeepsTip(u, between, id);
    AppendStartsAfterTip(t, id, second, guard);
  }

  /** The first version an append takes is the one after the stream's last. */
  lemma AppendStartsAfterTip(s: Store, id: StreamID, events: seq<Writable>, guard: Guard)
    requires events != []
    ensures var r := Appended(s, id, events, guard).1;
            r.Ok? ==> |r.value| == |events| && r.value[0].version == s.Stream(id).Tip() + 1
  {
    hide Encodable;
  }

  /** So no version of a stream is ever given out twice, across truncations too. */
  lemma VersionsAreNotReused(before: seq<Op>, id: StreamID, first: seq<Writable>, between: seq<Op>,
                             second: seq<Writable>, guard: Guard, other: Guard, i: nat, j: nat)
    requires forall i :: 0 <= i < |between| ==> !DeletesAll(between[i], id)
    ensures var s := Run(EMPTY, before);
            var (u, r) := Appended(s, id, first, guard);
            var q := Appended(Run(u, between), id, second, other).1;
            r.Ok? && q.Ok? && i < |r.value| && j < |q.value| ==> r.value[i].version < q.value[j].version
  {
    hide Run, WellFormed, Encodable;
    var s := Run(EMPTY, before);
    var u := Appended(s, id, first, guard).0;
    EmptyIsWellFormed();
    RunKeepsWellFormed(EMPTY, before);
    AppendKeepsWellFormed(s, id, first, guard);
    RunKeepsTip(u, between, id);
  }

  // ---------------------------------------------------------------------------
  // What a deletion removes
  // ---------------------------------------------------------------------------

  lemma {:induction false} OfMembers(log: seq<LogEntry>, id: StreamID)
    ensures forall e :: e in log && e.stream == id ==> e.data in Of(log, id)
  {
    if log == [] {
    } else {
      OfMembers(log[..|log| - 1], id);
      assert log == log[..|log| - 1] + [log[|log| - 1]];
    }
  }

  /** No entry of the log is of a version its stream does not hold. */
  lemma EntriesAreHeld(s: Store, e: LogEntry)
    requires WellFormed(s) && e in s.log
    ensures s.Stream(e.stream).firstVersion <= e.version <= s.Stream(e.stream).Tip()
  {
    var i :| 0 <= i < |s.log| && s.log[i] == e;
    assert s.log[i] == Entry(s.log[i].data);
    OfMembers(s.log, e.stream);
    hide Of;
    assert Of(s.log, e.stream) == s.Stream(e.stream).events;
    assert StreamOk(s.Stream(e.stream), e.stream);
  }

  /** A deletion fails exactly on a negative version or a stream never written, and then
      changes nothing; otherwise it removes exactly the stream's events at or below the
      version, all of them for version zero, and leaves every other event in place. */
  lemma DeletionIsExact(s: Store, id: StreamID, toVersion: int)
    requires WellFormed(s)
    ensures var (t, r) := Deleted(s, id, toVersion);
            && (r == Err(NegativeVersion) <==> toVersion < 0)
            && (r == Err(StreamNotFound) <==> toVersion >= 0 && s.Stream(id).Tip() == 0)
            && (r.Err? ==> t == s && r.error in {NegativeVersion, StreamNotFound})
            && (r.Ok? ==> forall e :: e in t.log <==> e in s.log && !Deletes(Delete(id, toVersion), e))
            && (r.Ok? ==> t.Stream(id).Tip() == if toVersion == 0 then 0 else s.Stream(id).Tip())
  {
    DeletionErrs(s, id, toVersion);
    var (t, r) := Deleted(s, id, toVersion);
    if r.Ok? {
      DeletionTip(s, id, toVersion);
      forall e ensures e in t.log <==> e in s.log && !Deletes(Delete(id, toVersion), e) {
        DeletionReaches(s, id, toVersion, e);
      }
    }
  }

  lemma DeletionErrs(s: Store, id: StreamID, toVersion: int)
    requires WellFormed(s)
    ensures var (t, r) := Deleted(s, id, toVersion);
            && (r == Err(NegativeVersion) <==> toVersion < 0)
            && (r == Err(StreamNotFound) <==> toVersion >= 0 && s.Stream(id).Tip() == 0)
            && (r.Err? ==> t == s && r.error in {NegativeVersion, StreamNotFound})
  {
    assert StreamOk(s.Stream(id), id);
    hide Of, Without;
  }

  lemma DeletionTip(s: Store, id: StreamID, toVersion: int)
    requires WellFormed(s) && Deleted(s, id, toVersion).1.Ok?
    ensures Deleted(s, id, toVersion).0.Stream(id).Tip() == if toVersion == 0 then 0 else s.Stream(id).Tip()
  {
    hide Of, Without, Ascending;
  }

  lemma DeletionReaches(s: Store, id: StreamID, toVersion: int, e: LogEntry)
    requires WellFormed(s) && Deleted(s, id, toVersion).1.Ok?
    ensures e in Deleted(s, id, toVersion).0.log <==> e in s.log && !Deletes(Delete(id, toVersion), e)
  {
    var t := Deleted(s, id, toVersion).0;
    if e in s.log {
      EntriesAreHeld(s, e);
    }
    var cut := if toVersion < s.Stream(id).Tip() then toVersion else s.Stream(id).Tip();
    WithoutKeepsOrder(s.log, id, if toVersion == 0 then None else Some(cut));
    hide Of, Without, Agree, Ascending;
  }

  // ---------------------------------------------------------------------------
  // Reading
  // ---------------------------------------------------------------------------

  datatype Direction = Forward | Reverse

  function Reversed<T>(s: seq<T>): (r: seq<T>)
    ensures |r| == |s| && forall i :: 0 <= i < |s| ==> r[i] == s[|s| - 1 - i]
  {
    if s == [] then [] else [s[|s| - 1]] + Reversed(s[..|s| - 1])
  }

  /** The events at or below a version, by testing each. */
  function UpTo(events: seq<Event>, version: int): (r: seq<Event>) {
    if events == [] then []
    else
      var front := UpTo(events[..|events| - 1], version);
      var last := events[|events| - 1];
      if last.version <= version then front + [last] else front
  }

  lemma UpToOneMore(front: seq<Event>, last: Event, version: int)
    ensures UpTo(front + [last], version) == UpTo(front, version) + if last.version <= version then [last] else []
  {
    assert (front + [last])[..|front|] == front;
  }

  lemma {:induction false} UpToIsFirst(events: seq<Event>, version: int, first: int, n: nat)
    requires forall i :: 0 <= i < |events| ==> events[i].version == first + i
    requires n <= |events| && (n < |events| ==> version < first + n) && (n > 0 ==> version >= first + n - 1)
    ensures UpTo(events, version) == events[..n]
  {
    if events == [] {
    } else {
      hide UpTo;
      var front, last := events[..|events| - 1], events[|events| - 1];
      assert events == front + [last];
      UpToOneMore(front, last, version);
      UpToIsFirst(front, version, first, if n == |events| then n - 1 else n);
    }
  }

  lemma UpToIsPrefix(events: seq<Event>, version: int, first: int)
    requires forall i :: 0 <= i < |events| ==> events[i].version == first + i
    ensures version < first ==> UpTo(events, version) == []
    ensures version >= first + |events| ==> UpTo(events, version) == events
    ensures first - 1 <= version < first + |events| ==> UpTo(events, version) == events[..version - first + 1]
  {
    hide UpTo;
    var n := version - first + 1;
    UpToIsFirst(events, version, first, if n < 0 then 0 else if n > |events| then |events| else n);
  }

  function Limited<T>(s: seq<T>, count: int): (r: seq<T>) {
    if 0 < count < |s| then s[..count] else s
  }

  /** What a stream read is to yield. */
  function StreamRead(events: seq<Event>, direction: Direction, version: int, count: int): (r: seq<Event>) {
    match direction
    case Forward => Limited(Above(events, version), count)
    case Reverse => Limited(Reversed(if version <= 0 then events else UpTo(events, version)), count)
  }

  function Past(log: seq<LogEntry>, position: int): (r: seq<Event>) {
    if log == [] then []
    else
      var front := Past(log[..|log| - 1], position);
      var last := log[|log| - 1];
      if last.position > position then front + [last.data] else front
  }

  /** What a global read is to yield. */
  function GlobalRead(log: seq<LogEntry>, position: int, count: int): (r: seq<Event>) {
    Limited(Past(log, position), count)
  }

  lemma {:induction false} PastSplits(a: seq<LogEntry>, b: seq<LogEntry>, position: int)
    requires forall i :: 0 <= i < |a| ==> a[i].position <= position
    requires forall i :: 0 <= i < |b| ==> b[i].position > position
    ensures |Past(a + b, position)| == |b| && forall i :: 0 <= i < |b| ==> Past(a + b, position)[i] == b[i].data
  {
    if b != [] {
      var front := b[..|b| - 1];
      PastSplits(a, front, position);
      assert (a + b)[..|a + b| - 1] == a + front;
    } else if a != [] {
      PastSplits(a[..|a| - 1], [], position);
      assert a + b == a && a[..|a| - 1] + [] == a[..|a| - 1];
    }
  }

  lemma {:induction false} PastMembers(log: seq<LogEntry>, position: int)
    ensures forall e :: e in log && e.position > position ==> e.data in Past(log, position)
    ensures forall d :: d in Past(log, position) ==> exists e :: e in log && e.data == d && e.position > position
  {
    if log == [] {
    } else {
      PastMembers(log[..|log| - 1], position);
      assert log == log[..|log| - 1] + [log[|log| - 1]];
    }
  }

  /** The first index past a position; the log's length when there is none. */
  function Bound(log: seq<LogEntry>, position: int): (n: nat)
    requires Ascending(log)
    ensures n <= |log|
    ensures forall i :: 0 <= i < n ==> log[i].position <= position
    ensures forall i :: n <= i < |log| ==> log[i].position > position
  {
    if log == [] || log[|log| - 1].position <= position then |log| else Bound(log[..|log| - 1], position)
  }

  /** Past the bound, the log's tail. */
  lemma PastIsTail(log: seq<LogEntry>, position: int, n: nat)
    requires n <= |log|
    requires forall i :: 0 <= i < n ==> log[i].position <= position
    requires forall i :: n <= i < |log| ==> log[i].position > position
    ensures |Past(log, position)| == |log| - n && forall i :: n <= i < |log| ==> Past(log, position)[i - n] == log[i].data
  {
    PastSplits(log[..n], log[n..], position);
    assert log[..n] + log[n..] == log;
    forall i | n <= i < |log| ensures Past(log, position)[i - n] == log[i].data {
      assert log[i] == log[n..][i - n];
    }
  }

  /** A page of a global read holds every event after the bound up to its last. */
  lemma PageIsWhole(log: seq<LogEntry>, position: int, count: int, e: LogEntry)
    requires Ascending(log) && (forall i :: 0 <= i < |log| ==> log[i] == Entry(log[i].data))
    requires GlobalRead(log, position, count) != []
    requires e in log && position < e.position
    requires e.position <= GlobalRead(log, position, count)[|GlobalRead(log, position, count)| - 1].position
    ensures e.data in GlobalRead(log, position, count)
  {
    hide Past;
    var n := Bound(log, position);
    PastIsTail(log, position, n);
    var i :| 0 <= i < |log| && log[i] == e;
    var page := GlobalRead(log, position, count);
    var last := n + |page| - 1;
    assert Past(log, position)[last - n] == log[last].data;
    assert page[|page| - 1] == log[last].data;
    assert n <= i <= last;
    assert Past(log, position)[i - n] == e.data;
    assert page[i - n] == e.data;
  }

  lemma PageBelowCounter(s: Store, position: int, count: int)
    requires WellFormed(s)
    ensures forall d :: d in GlobalRead(s.log, position, count) ==> d.position <= s.counter
  {
    PastMembers(s.log, position);
    assert forall d :: d in GlobalRead(s.log, position, count) ==> d in Past(s.log, position);
  }

  lemma UnlimitedRead(log: seq<LogEntry>, position: int)
    ensures GlobalRead(log, position, 0) == Past(log, position)
  {
  }

  lemma EmptyIsWellFormed()
    ensures WellFormed(EMPTY)
  {
  }

  /** A consumer that resumes after the last position it was given misses nothing:
      whatever happens between the two reads, every event still in the log past
      its first bound was on the first page or is yet to be read. */
  lemma ResumedReadsMissNothing(before: seq<Op>, between: seq<Op>, position: int, count: int, e: LogEntry)
    requires var s := Run(EMPTY, before);
             var t := Run(s, between);
             GlobalRead(s.log, position, count) != [] && e in t.log && e.position > position
    ensures var s := Run(EMPTY, before);
            var t := Run(s, between);
            var page := GlobalRead(s.log, position, count);
            e.data in page || e.data in GlobalRead(t.log, page[|page| - 1].position, 0)
  {
    hide Run, Agree, StreamOk, GlobalRead;
    var s := Run(EMPTY, before);
    var t := Run(s, between);
    var page := GlobalRead(s.log, position, count);
    var last := page[|page| - 1];
    EmptyIsWellFormed();
    RunKeepsWellFormed(EMPTY, before);
    RunSettles(s, between);
    if e.position <= last.position {
      PageBelowCounter(s, position, count);
      PageIsWhole(s.log, position, count, e);
    } else {
      PastMembers(t.log, last.position);
      UnlimitedRead(t.log, last.position);
    }
  }

  // ---------------------------------------------------------------------------
  // Where a read starts
  // ---------------------------------------------------------------------------

  /** 64-bit wrap-around. */
  function Wrap(x: int): Int64 {
    (x + 0x8000_0000_0000_0000) % 0x1_0000_0000_0000_0000 - 0x8000_0000_0000_0000
  }

  /** Where in the retained events a read starts, counted from zero. */
  function StartCursor(first: int, count: nat, direction: Direction, version: Int64): int {
    match direction
    case Forward =>
      var cursor := Wrap(Wrap(version - first) + 1);
      if cursor > 0 then cursor else 0
    case Reverse =>
      if version <= 0 then count - 1
      else
        var cursor := Wrap(version - first);
        if cursor < count then cursor else count - 1
  }

  /** What an iterator over the events yields from a cursor. */
  function From(events: seq<Event>, direction: Direction, cursor: int): (r: seq<Event>)
    requires direction.Forward? ==> cursor >= 0
    requires direction.Reverse? ==> cursor < |events|
  {
    match direction
    case Forward => if cursor < |events| then events[cursor..] else []
    case Reverse => if cursor < 0 then [] else Reversed(events[..cursor + 1])
  }

  /** Yielding the event at the cursor leaves the rest. */
  lemma FromStep(events: seq<Event>, direction: Direction, cursor: nat)
    requires cursor < |events|
    ensures From(events, direction, cursor) ==
            [events[cursor]] + From(events, direction, if direction.Forward? then cursor + 1 else cursor - 1)
  {
    assert events[..cursor + 1][..cursor] == events[..cursor];
    assert events[..cursor + 1][cursor] == events[cursor];
  }

  /** What a limit leaves of the rest. */
  function Within(rest: seq<Event>, limit: int, retrieved: int): (r: seq<Event>)
    requires limit > 0 ==> retrieved <= limit
  {
    if limit > 0 && limit - retrieved < |rest| then rest[..limit - retrieved] else rest
  }

  lemma WithinStep(e: Event, rest: seq<Event>, limit: int, retrieved: int)
    requires limit > 0 ==> retrieved < limit
    ensures Within([e] + rest, limit, retrieved) == [e] + Within(rest, limit, retrieved + 1)
  {
  }

  /** Whether an iterator in this position is at its end. */
  predicate Exhausted(size: nat, direction: Direction, cursor: int, limit: int, retrieved: int) {
    || (direction.Forward? && cursor >= size) || (direction.Reverse? && cursor < 0)
    || (limit > 0 && retrieved >= limit)
  }

  predicate InRange(size: nat, direction: Direction, cursor: int, limit: int, retrieved: int) {
    && (direction.Forward? ==> cursor >= 0)
    && (direction.Reverse? ==> cursor < size)
    && (limit > 0 ==> retrieved <= limit)
  }

  /** What an iterator in this position is still to yield. */
  function Rest(events: seq<Event>, direction: Direction, cursor: int, limit: int, retrieved: int): (r: seq<Event>)
    requires InRange(|events|, direction, cursor, limit, retrieved)
  {
    Within(From(events, direction, cursor), limit, retrieved)
  }

  function Advanced(direction: Direction, cursor: int): int {
    if direction.Reverse? then cursor - 1 else cursor + 1
  }

  /** An iterator ends exactly when nothing is left, and each step yields the next. */
  lemma RestStep(events: seq<Event>, direction: Direction, cursor: int, limit: int, retrieved: int)
    requires InRange(|events|, direction, cursor, limit, retrieved)
    ensures var rest := Rest(events, direction, cursor, limit, retrieved);
            && (Exhausted(|events|, direction, cursor, limit, retrieved) <==> rest == [])
            && (rest != [] ==>
                  && 0 <= cursor < |events|
                  && InRange(|events|, direction, Advanced(direction, cursor), limit, retrieved + 1)
                  && rest == [events[cursor]] + Rest(events, direction, Advanced(direction, cursor), limit, retrieved + 1))
  {
    if !Exhausted(|events|, direction, cursor, limit, retrieved) {
      FromStep(events, direction, cursor);
      hide From;
      var next := From(events, direction, Advanced(direction, cursor));
      WithinStep(events[cursor], next, limit, retrieved);
      hide Within;
    }
  }

  predicate Overflows(first: int, direction: Direction, version: Int64) {
    direction.Forward? && version - first + 1 < MIN_INT64
  }

  lemma CountCutsTheRead(events: seq<Event>, direction: Direction, version: int, count: int)
    ensures StreamRead(events, direction, version, count) ==
            Limited(StreamRead(events, direction, version, 0), if count > 0 then count else 0)
  {
    hide Above, UpTo, Reversed;
  }

  lemma WrapIsIdentity(x: int)
    requires MIN_INT64 <= x <= MAX_INT64
    ensures Wrap(x) == x
  {
  }

  lemma ForwardCursorSelects(stream: Recorded, id: StreamID, version: Int64)
    requires StreamOk(stream, id) && stream.Tip() <= MAX_INT64
    ensures var cursor := StartCursor(stream.firstVersion, |stream.events|, Forward, version);
            && cursor >= 0
            && From(stream.events, Forward, cursor) ==
               if Overflows(stream.firstVersion, Forward, version) then [] else Above(stream.events, version)
  {
    hide Wrap, Above;
    var first := stream.firstVersion;
    AboveIsSuffix(stream.events, version, first);
    WrapsDown(version - first, version, first);
  }

  lemma ReverseCursorSelects(stream: Recorded, id: StreamID, version: Int64)
    requires StreamOk(stream, id) && stream.Tip() <= MAX_INT64
    ensures var cursor := StartCursor(stream.firstVersion, |stream.events|, Reverse, version);
            && cursor < |stream.events|
            && From(stream.events, Reverse, cursor) ==
               Reversed(if version <= 0 then stream.events else UpTo(stream.events, version))
  {
    hide Wrap, UpTo, Reversed;
    var cursor := StartCursor(stream.firstVersion, |stream.events|, Reverse, version);
    if version > 0 {
      WrapIsIdentity(version - stream.firstVersion);
      UpToIsPrefix(stream.events, version, stream.firstVersion);
      hide StartCursor, StreamOk;
      assert cursor >= 0 ==> UpTo(stream.events, version) == stream.events[..cursor + 1];
      assert cursor < 0 ==> UpTo(stream.events, version) == [];
    } else {
      assert stream.events[..|stream.events|] == stream.events;
    }
  }

  /** Starting at the cursor is the filter by version, unless the subtraction
      overflows: then the read yields nothing at all. */
  lemma CursorSelects(stream: Recorded, id: StreamID, direction: Direction, version: Int64)
    requires StreamOk(stream, id) && stream.Tip() <= MAX_INT64
    ensures StartCursor(stream.firstVersion, |stream.events|, direction, version) >= 0 || direction.Reverse?
    ensures StartCursor(stream.firstVersion, |stream.events|, direction, version) < |stream.events| || direction.Forward?
    ensures From(stream.events, direction, StartCursor(stream.firstVersion, |stream.events|, direction, version)) ==
            if Overflows(stream.firstVersion, direction, version) then [] else StreamRead(stream.events, direction, version, 0)
  {
    hide StartCursor, From, Above, UpTo, Reversed;
    match direction
    case Forward => ForwardCursorSelects(stream, id, version);
    case Reverse => ReverseCursorSelects(stream, id, version);
  }

  lemma WrapsDown(x: int, version: Int64, first: int)
    requires x == version - first && 1 <= first <= MAX_INT64 + 1
    ensures Wrap(Wrap(x) + 1) == if x + 1 >= MIN_INT64 then x + 1 else x + 1 + 0x1_0000_0000_0000_0000
  {
  }

  /** So a read is its filter exactly when the boundary does not overflow or the
      stream holds nothing; every non-negative boundary is safe. */
  lemma ReadsAreFiltersExactly(stream: Recorded, id: StreamID, version: Int64)
    requires StreamOk(stream, id) && stream.Tip() <= MAX_INT64
    ensures version >= 0 ==> !Overflows(stream.firstVersion, Forward, version)
    ensures StartCursor(stream.firstVersion, |stream.events|, Forward, version) >= 0
    ensures From(stream.events, Forward, StartCursor(stream.firstVersion, |stream.events|, Forward, version)) ==
            StreamRead(stream.events, Forward, version, 0) <==>
            !Overflows(stream.firstVersion, Forward, version) || stream.events == []
  {
    hide Wrap, StartCursor;
    CursorSelects(stream, id, Forward, version);
    AboveIsSuffix(stream.events, version, stream.firstVersion);
  }

  /** The exception is real: after one append and one truncation a forward read from
      the least boundary yields nothing of what the filter selects. */
  lemma LeastBoundaryReadsNothing(id: StreamID, w: Writable)
    requires w.encodable
    ensures var s := Run(EMPTY, [Append(id, [w, w], Guard(None, false)), Delete(id, 1)]);
            var stream := s.Stream(id);
            var cursor := StartCursor(stream.firstVersion, |stream.events|, Forward, MIN_INT64);
            && stream == Recorded(2, [Event(id, 2, 2, w.payload)])
            && Overflows(stream.firstVersion, Forward, MIN_INT64)
            && cursor >= 0 && From(stream.events, Forward, cursor) == []
            && StreamRead(stream.events, Forward, MIN_INT64, 0) == stream.events
  {
    var first, second := Append(id, [w, w], Guard(None, false)), Delete(id, 1);
    var t := Do(EMPTY, first);
    var e, f := Event(id, 1, 1, w.payload), Event(id, 2, 2, w.payload);
    EncodableIs([w, w], 2);
    assert Written(id, 0, 0, [w, w]) == [e, f];
    assert t.Stream(id) == Recorded(1, [e, f]);
    var s := Do(t, second);
    assert [e, f][1..] == [f];
    assert s.Stream(id) == Recorded(2, [f]);
    TwoOps(EMPTY, first, second);
    ForwardCursorSelects(s.Stream(id), id, MIN_INT64);
    AboveIsSuffix([f], MIN_INT64, 2);
  }
}
