/** The routers that serve reads: an in-memory setter that applies only newer
    cutovers, and a cached incremental fold of the record
    (projection/lifecycle/router.go). */
module Routers {
  import opened Base
  import opened LifecycleState
  import opened Cutovers

  // ---------------------------------------------------------------------------
  // The in-memory setter
  // ---------------------------------------------------------------------------

  type Served = map<string, Cutover>

  datatype Verdict = Accepted | InvalidLive | InvalidRevision | Conflict

  /** The delivery names another version at the revision being served. */
  predicate Conflicts(served: Served, c: Cutover) {
    c.live.name in served && served[c.live.name].revision == c.revision && served[c.live.name].live != c.live
  }

  /** Apply if newer: a higher revision replaces, anything else changes nothing. */
  function ApplyIfNewer(served: Served, c: Cutover): (r: Served)
    ensures c.live.name in r && r[c.live.name].revision >= c.revision
    ensures c.live.name in served ==> r[c.live.name].revision >= served[c.live.name].revision
    ensures r[c.live.name] == c || (c.live.name in served && r[c.live.name] == served[c.live.name])
    ensures forall name | name != c.live.name :: (name in r <==> name in served) && (name in r ==> r[name] == served[name])
  {
    if c.live.name in served && c.revision <= served[c.live.name].revision then served else served[c.live.name := c]
  }

  /** Of all the cutovers accepted for a name, the one with the greatest revision. */
  ghost predicate Newest(accepted: seq<Cutover>, name: string, c: Cutover) {
    && c in accepted && c.live.name == name
    && forall d :: d in accepted && d.live.name == name ==> d.revision <= c.revision && (d.revision == c.revision ==> d == c)
  }

  predicate Mentions(accepted: seq<Cutover>, name: string) {
    exists i :: 0 <= i < |accepted| && accepted[i].live.name == name
  }

  class MemoryRouter {
    var applied: Served
    ghost var accepted: seq<Cutover>   // every delivery accepted, in order

    /** Whatever the order of deliveries, each name's route is its newest cutover. */
    ghost predicate Valid()
      reads this
    {
      && (forall name :: name in applied <==> Mentions(accepted, name))
      && (forall name :: name in applied ==> Newest(accepted, name, applied[name]))
    }

    constructor ()
      ensures Valid() && applied == map[] && accepted == []
    {
      applied, accepted := map[], [];
    }

    /** The version that the newest cutover accepted for the name made live; none if
        and only if none was. */
    method Live(name: string) returns (live: Option<ID>)
      requires Valid()
      ensures live.None? <==> !Mentions(accepted, name)
      ensures live.Some? ==> exists c :: Newest(accepted, name, c) && c.live == live.value
    {
      if name in applied {
        live := Some(applied[name].live);
      } else {
        live := None;
      }
    }

    method ApplyCutover(cutover: Cutover) returns (verdict: Verdict)
      requires Valid()
      modifies this
      ensures Valid() && accepted == if verdict.Accepted? then old(accepted) + [cutover] else old(accepted)
      ensures verdict.Accepted? <==> cutover.live.Valid() && cutover.revision >= 1 && !Conflicts(old(applied), cutover)
      ensures verdict.Conflict? ==> Conflicts(old(applied), cutover)
      ensures applied == if verdict.Accepted? then ApplyIfNewer(old(applied), cutover) else old(applied)
    {
      if !cutover.live.Valid() {
        return InvalidLive;
      }
      if cutover.revision < 1 {
        return InvalidRevision;
      }
      var name := cutover.live.name;
      ghost var served := applied;
      if name !in applied || cutover.revision > applied[name].revision {
        applied := applied[name := cutover];
      } else if cutover.revision == applied[name].revision && cutover.live != applied[name].live {
        return Conflict;
      }
      AcceptingKeepsNewest(served, accepted, cutover);
      accepted := accepted + [cutover];
      return Accepted;
    }

    /** The cutover the router vouches for: the newest accepted for the name. */
    method AppliedCutover(name: string) returns (cutover: Option<Cutover>)
      requires Valid()
      ensures cutover.None? <==> !Mentions(accepted, name)
      ensures cutover.Some? ==> Newest(accepted, name, cutover.value)
    {
      if name in applied {
        cutover := Some(applied[name]);
      } else {
        cutover := None;
      }
    }
  }

  /** Apply-if-newer keeps every route the newest one accepted. */
  lemma AcceptingKeepsNewest(applied: Served, accepted: seq<Cutover>, c: Cutover)
    requires forall name :: name in applied <==> Mentions(accepted, name)
    requires forall name :: name in applied ==> Newest(accepted, name, applied[name])
    requires !Conflicts(applied, c)
    ensures forall name :: name in ApplyIfNewer(applied, c) <==> Mentions(accepted + [c], name)
    ensures forall name :: name in ApplyIfNewer(applied, c) ==>
              Newest(accepted + [c], name, ApplyIfNewer(applied, c)[name])
  {
    forall name ensures Mentions(accepted + [c], name) <==> Mentions(accepted, name) || c.live.name == name {
      assert (accepted + [c])[|accepted|] == c;
      forall i | 0 <= i < |accepted| && accepted[i].live.name == name ensures Mentions(accepted + [c], name) {
        assert (accepted + [c])[i] == accepted[i];
      }
    }
    forall d | d in accepted && d.live.name == c.live.name ensures c.live.name in applied {
      assert Mentions(accepted, c.live.name);
    }
  }

  // ---------------------------------------------------------------------------
  // The stream router
  // ---------------------------------------------------------------------------

  /** Positions are positive and strictly increasing. */
  ghost predicate Ordered(log: seq<Envelope>) {
    && (forall i :: 0 <= i < |log| ==> log[i].position >= 1)
    && forall i, j :: 0 <= i < j < |log| ==> log[i].position < log[j].position
  }

  /** The events past a position, in order: what a global read is asked for. */
  function After(log: seq<Envelope>, position: int): seq<Envelope> {
    if log == [] then []
    else
      var rest := After(log[..|log| - 1], position);
      if log[|log| - 1].position > position then rest + [log[|log| - 1]] else rest
  }

  /** The position of the last event of a stretch read after `start`. */
  function LastPosition(start: int, events: seq<Envelope>): int {
    if events == [] then start else events[|events| - 1].position
  }

  lemma {:induction false} AfterIsTheRest(log: seq<Envelope>, k: nat)
    requires Ordered(log) && k <= |log|
    ensures After(log, LastPosition(0, log[..k])) == log[k..]
    decreases |log|
  {
    if log == [] {
    } else {
      var front := log[..|log| - 1];
      if k == |log| {
        NothingAfter(log, log[|log| - 1].position);
      } else {
        assert front[..k] == log[..k];
        AfterIsTheRest(front, k);
        assert log[k..] == front[k..] + [log[|log| - 1]];
      }
    }
  }

  lemma {:induction false} NothingAfter(log: seq<Envelope>, position: int)
    requires forall i :: 0 <= i < |log| ==> log[i].position <= position
    ensures After(log, position) == []
  {
    if log == [] {
    } else {
      NothingAfter(log[..|log| - 1], position);
    }
  }

  /** What one global read did: it may fail to open, break off after some
      events, or fail to close. An unbroken read yields everything it was asked for. */
  datatype Read = Read(began: bool, yielded: seq<Envelope>, broke: bool, closed: bool) {

    predicate Clean() {
      began && !broke && closed
    }

    predicate Answers(asked: seq<Envelope>) {
      && yielded <= asked
      && (!broke ==> yielded == asked)
    }
  }

  class StreamRouter {
    var live: Option<Routes>
    var position: int

    constructor ()
      ensures live == None && position == 0
    {
      live, position := None, 0;
    }

    function Cached(): Routes
      reads this
    {
      match live
      case None => map[]
      case Some(routes) => routes
    }

    /** The cache is the fold, from the very beginning, of a prefix of the record. */
    ghost predicate Synced(log: seq<Envelope>, k: nat)
      reads this
    {
      && k <= |log|
      && FoldLog(map[], log[..k]) == Some(Cached())
      && position == LastPosition(0, log[..k])
    }

    /** Extends the cached fold with one read; anything amiss reports failure. */
    method Fold(read: Read) returns (ok: bool, routes: Routes, reached: int)
      ensures ok <==> read.Clean() && FoldLog(Cached(), read.yielded).Some?
      ensures ok ==> FoldLog(Cached(), read.yielded) == Some(routes)
      ensures ok ==> reached == LastPosition(position, read.yielded)
    {
      routes, reached := Cached(), position;
      if !read.began {
        return false, routes, reached;
      }
      var i := 0;
      while i < |read.yielded|
        invariant 0 <= i <= |read.yielded|
        invariant FoldLog(Cached(), read.yielded[..i]) == Some(routes)
        invariant reached == LastPosition(position, read.yielded[..i])
      {
        assert read.yielded[..i + 1][..i] == read.yielded[..i];
        var next := FoldOne(routes, read.yielded[i]);
        if next.None? {
          RefusalIsFinal(Cached(), read.yielded, i + 1);
          return false, routes, reached;
        }
        routes := next.value;
        reached := read.yielded[i].position;
        i := i + 1;
      }
      assert read.yielded[..i] == read.yielded;
      ok := !read.broke && read.closed;
    }

    /** Advances past what was recorded since. A failed fold changes nothing; a
        successful one leaves exactly the fold of the whole record from zero. */
    method Advance(ghost log: seq<Envelope>, ghost k: nat, read: Read) returns (ok: bool)
      requires Ordered(log) && Synced(log, k) && read.Answers(After(log, position))
      modifies this
      ensures !ok ==> live == old(live) && position == old(position)
      ensures ok ==> Synced(log, |log|) && live.Some? && FoldLog(map[], log) == Some(live.value)
      ensures ok <==> read.Clean() && FoldLog(map[], log).Some?
    {
      var routes, reached;
      ok, routes, reached := Fold(read);
      AfterIsTheRest(log, k);
      assert log == log[..k] + log[k..];
      FoldIsIncremental(map[], log[..k], log[k..]);
      assert log[..|log|] == log;
      if ok {
        live, position := Some(routes), reached;
      }
    }

    /** Answers from the cache, advancing it first when it is empty or stale. */
    method Live(name: string, stale: bool, ghost log: seq<Envelope>, ghost k: nat, read: Read)
      returns (failed: bool, version: Option<ID>)
      requires Ordered(log) && Synced(log, k) && read.Answers(After(log, position))
      modifies this
      ensures failed <==> (old(live).None? || stale) && !(read.Clean() && FoldLog(map[], log).Some?)
      ensures failed || (old(live).Some? && !stale) ==> live == old(live) && position == old(position)
      ensures !failed && (old(live).None? || stale) ==> live.Some? && FoldLog(map[], log) == Some(live.value)
      ensures !failed ==> version == if name in live.value then Some(live.value[name].current.live) else None
    {
      version := None;
      if live.None? || stale {
        var ok := Advance(log, k, read);
        if !ok {
          return true, None;
        }
      }
      if name in live.value {
        version := Some(live.value[name].current.live);
      }
      failed := false;
    }
  }

  /** Once a prefix of a stretch is refused, so is every extension of it. */
  lemma {:induction false} RefusalIsFinal(routes: Routes, events: seq<Envelope>, i: nat)
    requires i <= |events| && FoldLog(routes, events[..i]).None?
    ensures FoldLog(routes, events).None?
  {
    assert events == events[..i] + events[i..];
    FoldIsIncremental(routes, events[..i], events[i..]);
  }
}
