/** The second, smaller fold of the same record: routers and workers read only
    the cutovers, out of the store's global order, and must agree with the
    lifecycle fold (projection/lifecycle/router.go, projection/lifecycle/worker.go). */
module Cutovers {
  import opened Base
  import opened LifecycleState
  import opened LifecycleEvents
  import opened CleanHistories

  // ---------------------------------------------------------------------------
  // Decoding
  // ---------------------------------------------------------------------------

  /** A stream's address. Deriving a lifecycle stream from a projection name is
      injective, so the derived address carries the name itself. */
  datatype Address =
    | LifecycleStream(name: string)
    | UnderivedLifecycleStream(key: UUID)
    | DomainStream(key: UUID)

  datatype Payload =
    | Lifecycle(event: Event)
    | Garbled(cutover: bool)   // undecodable; whether its type names a cutover
    | Unrelated

  /** One event of the store's global order. */
  datatype Envelope = Envelope(position: int, address: Address, payload: Payload)

  /** A decoded cutover: the flip, the version it claims was live, its kind. */
  datatype RawCutover = RawCutover(cutover: Cutover, claimedLive: ID, rollback: bool)

  datatype Decoded = NotACutover | Flip(raw: RawCutover) | Corrupt

  function Checked(address: Address, raw: RawCutover): Decoded {
    if !raw.cutover.live.Valid() || raw.cutover.revision < 1 then Corrupt
    else if address != LifecycleStream(raw.cutover.live.name) then Corrupt
    else Flip(raw)
  }

  function Decode(e: Envelope): Decoded {
    if e.address.DomainStream? then NotACutover
    else
      match e.payload
      case Unrelated => NotACutover
      case Garbled(cutover) => if cutover then Corrupt else NotACutover
      case Lifecycle(event) =>
        match event
        case Promoted(previous, next, revision, _, _) =>
          Checked(e.address, RawCutover(Cutover(next, revision), previous, false))
        case RolledBack(rolledFrom, revertedTo, revision, _) =>
          Checked(e.address, RawCutover(Cutover(revertedTo, revision), rolledFrom, true))
        case _ => NotACutover
  }

  // ---------------------------------------------------------------------------
  // The validating fold
  // ---------------------------------------------------------------------------

  /** What reads go to, the one version a rollback may return to, and the highest
      version ever promoted. */
  datatype CutoverFold = CutoverFold(current: Cutover, rollback: ID, promoted: Int64)

  const NO_CUTOVERS := CutoverFold(Cutover(NO_ID, 0), NO_ID, 0)

  function Extend(f: CutoverFold, raw: RawCutover): Option<CutoverFold> {
    if raw.rollback && f.current.revision == 0 then None
    else if raw.rollback && f.rollback == NO_ID then None
    else if raw.cutover.revision != Increment(f.current.revision) then None
    else if raw.claimedLive != f.current.live then None
    else if raw.rollback then
      if raw.cutover.live != f.rollback then None
      else Some(CutoverFold(raw.cutover, NO_ID, f.promoted))
    else if raw.cutover.live.version <= f.promoted then None
    else Some(CutoverFold(raw.cutover, raw.claimedLive, raw.cutover.live.version))
  }

  type Routes = map<string, CutoverFold>

  function Route(routes: Routes, name: string): CutoverFold {
    if name in routes then routes[name] else NO_CUTOVERS
  }

  function FoldOne(routes: Routes, e: Envelope): Option<Routes> {
    match Decode(e)
    case NotACutover => Some(routes)
    case Corrupt => None
    case Flip(raw) =>
      var name := raw.cutover.live.name;
      match Extend(Route(routes, name), raw)
      case None => None
      case Some(next) => Some(routes[name := next])
  }

  /** The fold of a stretch of the global order; None when any event is refused. */
  function FoldLog(routes: Routes, log: seq<Envelope>): Option<Routes> {
    if log == [] then Some(routes)
    else
      match FoldLog(routes, log[..|log| - 1])
      case None => None
      case Some(before) => FoldOne(before, log[|log| - 1])
  }

  /** Folding incrementally from where an earlier fold stopped equals refolding
      from the start, refusals included. */
  lemma {:induction false} FoldIsIncremental(routes: Routes, before: seq<Envelope>, after: seq<Envelope>)
    ensures FoldLog(routes, before + after) ==
            match FoldLog(routes, before)
            case None => None
            case Some(middle) => FoldLog(middle, after)
  {
    if after == [] {
      assert before + after == before;
    } else {
      assert (before + after)[..|before + after| - 1] == before + after[..|after| - 1];
      FoldIsIncremental(routes, before, after[..|after| - 1]);
    }
  }

  // ---------------------------------------------------------------------------
  // Agreement with the lifecycle fold
  // ---------------------------------------------------------------------------

  /** The router's view of a name agrees with the lifecycle's. */
  predicate Agrees(f: CutoverFold, s: State) {
    && f.current == Cutover(s.live, s.revision)
    && 0 <= f.promoted <= s.highWater
    && (s.attempt.phase.BeforePromotion() ==> f.promoted < s.highWater)
    && (s.attempt.phase.PhasePromoted? ==> f.rollback == s.attempt.previous)
  }

  lemma CutoverAgrees(position: int, f: CutoverFold, s: State, e: Event)
    requires Valid(s) && CleanStep(s, e) && Agrees(f, s)
    requires e.Promoted? || e.RolledBack?
    ensures var decoded := Decode(Envelope(position, LifecycleStream(s.name), Lifecycle(e)));
            && decoded.Flip?
            && decoded.raw.cutover.live.name == s.name
            && decoded.raw.cutover == Cutover(Apply(s, e).live, Apply(s, e).revision)
            && Extend(f, decoded.raw).Some?
            && Agrees(Extend(f, decoded.raw).value, Apply(s, e))
            && Apply(s, e).revision == s.revision + 1
  {
    hide RestReachable;
  }

  lemma OtherEventAgrees(position: int, f: CutoverFold, s: State, e: Event)
    requires Valid(s) && CleanStep(s, e) && Agrees(f, s)
    requires !e.Promoted? && !e.RolledBack?
    ensures Agrees(f, Apply(s, e))
    ensures Apply(s, e).revision == s.revision && Apply(s, e).live == s.live
    ensures forall address :: Decode(Envelope(position, address, Lifecycle(e))) == NotACutover
  {
    hide RestReachable;
  }

  /** The events a global order holds for one projection's lifecycle stream. */
  function HistoryOf(log: seq<Envelope>, name: string): History {
    if log == [] then []
    else
      var last := log[|log| - 1];
      var before := HistoryOf(log[..|log| - 1], name);
      if last.address == LifecycleStream(name) && last.payload.Lifecycle? then before + [last.payload.event] else before
  }

  predicate WellAddressed(e: Envelope) {
    match e.address
    case LifecycleStream(_) => e.payload.Lifecycle?
    case UnderivedLifecycleStream(_) => false
    case DomainStream(_) => true
  }

  /** An interleaving of clean per-name lifecycle streams with anything else. */
  ghost predicate CleanLog(log: seq<Envelope>) {
    && (forall i :: 0 <= i < |log| ==> WellAddressed(log[i]))
    && forall name :: CleanStream(log, name)
  }

  predicate CleanStream(log: seq<Envelope>, name: string) {
    var h := HistoryOf(log, name);
    Clean(h) && (h != [] ==> Fold(h).name == name)
  }

  /** The lifecycle state of one name as a global order records it. */
  function StateOf(log: seq<Envelope>, name: string): State {
    Fold(HistoryOf(log, name))
  }

  lemma NameStays(s: State, e: Event)
    requires Valid(s) && CleanStep(s, e)
    ensures Apply(s, e).name != ""
    ensures s.name != "" ==> Apply(s, e).name == s.name
  {
    StepKeepsValid(s, e);
  }

  /** The last event of a log, seen from the name whose stream it extends. */
  lemma LogStep(log: seq<Envelope>, name: string)
    requires log != [] && CleanStream(log, name)
    ensures var front := log[..|log| - 1];
            var last := log[|log| - 1];
            && CleanStream(front, name)
            && Valid(StateOf(front, name))
            && if last.address == LifecycleStream(name) && last.payload.Lifecycle? then
                 && StateOf(log, name) == Apply(StateOf(front, name), last.payload.event)
                 && CleanStep(StateOf(front, name), last.payload.event)
                 && (StateOf(front, name).name == name || HistoryOf(front, name) == [])
               else StateOf(log, name) == StateOf(front, name)
  {
    hide FoldFrom, Apply, Valid;
    var front := log[..|log| - 1];
    var last := log[|log| - 1];
    var h := HistoryOf(front, name);
    if last.address == LifecycleStream(name) && last.payload.Lifecycle? {
      FoldExtend(NEW_STATE, h, last.payload.event);
      assert (h + [last.payload.event])[..|h|] == h;
      CleanPrefix(HistoryOf(log, name), |h|);
      CleanHistoryIsValid(h);
      NameStays(Fold(h), last.payload.event);
    } else {
      CleanHistoryIsValid(h);
    }
  }

  lemma CleanLogPrefix(log: seq<Envelope>)
    requires log != [] && CleanLog(log)
    ensures CleanLog(log[..|log| - 1])
  {
    var front := log[..|log| - 1];
    forall name ensures CleanStream(front, name) {
      LogStep(log, name);
    }
  }

  ghost predicate RoutesAgree(routes: Routes, log: seq<Envelope>) {
    forall name :: RouteAgrees(routes, log, name)
  }

  predicate RouteAgrees(routes: Routes, log: seq<Envelope>, name: string) {
    && Agrees(Route(routes, name), StateOf(log, name))
    && (name in routes <==> StateOf(log, name).revision > 0)
  }

  /** The router fold refines the lifecycle fold. Over every interleaving of
      clean lifecycle streams the fold refuses nothing, routes exactly the names
      that have recorded a cutover, and routes each to its live version at its
      revision. */
  lemma {:induction false} RouterRefinesLifecycle(log: seq<Envelope>)
    requires CleanLog(log)
    ensures FoldLog(map[], log).Some?
    ensures RoutesAgree(FoldLog(map[], log).value, log)
  {
    hide FoldFrom, Apply, Valid, CleanStep, CleanStream, Agrees;
    if log == [] {
      forall name ensures RouteAgrees(map[], log, name) {
        EmptyLogAgrees(log, name);
      }
    } else {
      var front := log[..|log| - 1];
      var last := log[|log| - 1];
      CleanLogPrefix(log);
      RouterRefinesLifecycle(front);
      var routes := FoldLog(map[], front).value;
      RouteStep(routes, log);
      var next := FoldOne(routes, last).value;
      assert FoldLog(map[], log) == Some(next);
    }
  }

  lemma EmptyLogAgrees(log: seq<Envelope>, name: string)
    requires log == []
    ensures RouteAgrees(map[], log, name)
  {
  }

  lemma RouteStep(routes: Routes, log: seq<Envelope>)
    requires log != [] && CleanLog(log)
    requires RoutesAgree(routes, log[..|log| - 1])
    ensures FoldOne(routes, log[|log| - 1]).Some?
    ensures RoutesAgree(FoldOne(routes, log[|log| - 1]).value, log)
  {
    hide FoldFrom, Apply, Valid, CleanStep, Agrees;
    var front := log[..|log| - 1];
    var last := log[|log| - 1];
    if last.address.LifecycleStream? {
      var name := last.address.name;
      assert WellAddressed(last);
      assert CleanStream(log, name);
      assert RouteAgrees(routes, front, name);
      LogStep(log, name);
      OwnRoute(routes, log, name);
    } else {
      assert WellAddressed(last);
      assert Decode(last) == NotACutover;
    }
    forall other ensures RouteAgrees(FoldOne(routes, last).value, log, other) {
      assert RouteAgrees(routes, front, other);
      assert CleanStream(log, other);
      LogStep(log, other);
    }
  }

  /** The event's own name: its route is extended exactly by a cutover. */
  lemma OwnRoute(routes: Routes, log: seq<Envelope>, name: string)
    requires log != [] && log[|log| - 1].address == LifecycleStream(name) && log[|log| - 1].payload.Lifecycle?
    requires CleanStream(log, name)
    requires RouteAgrees(routes, log[..|log| - 1], name)
    ensures var result := FoldOne(routes, log[|log| - 1]);
            && result.Some?
            && RouteAgrees(result.value, log, name)
            && forall other | other != name :: (other in result.value <==> other in routes) && Route(result.value, other) == Route(routes, other)
  {
    hide FoldFrom, Apply, Valid, CleanStep, Agrees, CleanStream;
    var front := log[..|log| - 1];
    var last := log[|log| - 1];
    var e := last.payload.event;
    LogStep(log, name);
    var s := StateOf(front, name);
    if e.Promoted? || e.RolledBack? {
      CutoverNeedsName(s, e);
      CutoverAgrees(last.position, Route(routes, name), s, e);
      RevisionNonNegative(s);
    } else {
      OtherEventAgrees(last.position, Route(routes, name), s, e);
    }
  }

  lemma CutoverNeedsName(s: State, e: Event)
    requires Valid(s) && CleanStep(s, e) && (e.Promoted? || e.RolledBack?)
    ensures s != NEW_STATE && s != Fold([])
  {
  }

  lemma RevisionNonNegative(s: State)
    requires Valid(s)
    ensures s.revision >= 0
  {
  }
}
