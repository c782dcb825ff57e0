/** Cutover workers: without durable progress they bring setters to the recorded
    routes (projection/lifecycle/worker.go). The drain is a loop over one read, and
    no failure of it is lost to a cancellation that races it. */
module Workers {
  import opened Base
  import opened LifecycleState
  import opened Cutovers
  import opened Routers
  import opened SaveOutcomes
  import opened ExitErrors

  // ---------------------------------------------------------------------------
  // One drain
  // ---------------------------------------------------------------------------

  /** The cutovers of a stretch, in order: what a tailing drain buffers. */
  function CutoversIn(events: seq<Envelope>): seq<Cutover> {
    if events == [] then []
    else
      var before := CutoversIn(events[..|events| - 1]);
      var last := Decode(events[|events| - 1]);
      if last.Flip? then before + [last.raw.cutover] else before
  }

  /** What one request to the iterator came to: an event, an error that may have
      raced a cancellation, or a cancellation seen before the request or beside an
      event, which is dropped. */
  datatype Next = Yield(event: Envelope) | Failing(err: Error, canceled: bool) | Canceled

  const REFUSED := Leaf("refused cutover")

  /** The events yielded before the first request that returned none. */
  function Yielded(script: seq<Next>): seq<Envelope> {
    if script == [] || !script[0].Yield? then [] else [script[0].event] + Yielded(script[1..])
  }

  /** How the read ended, had every event been accepted: nil for a clean end. */
  function Ending(script: seq<Next>, ctxErr: Error): Error {
    if script == [] then Nil
    else if script[0].Yield? then Ending(script[1..], ctxErr)
    else EndingOf(script[0], ctxErr)
  }

  function EndingOf(next: Next, ctxErr: Error): Error {
    match next
    case Yield(_) => Nil
    case Failing(err, canceled) => ReadReport(err, canceled, ctxErr)
    case Canceled => ctxErr
  }

  lemma StretchStep(start: Routes, events: seq<Envelope>, i: nat)
    requires i < |events|
    ensures FoldLog(start, events[..i + 1]) ==
            match FoldLog(start, events[..i])
            case None => None
            case Some(before) => FoldOne(before, events[i])
    ensures CutoversIn(events[..i + 1]) ==
            CutoversIn(events[..i]) + if Decode(events[i]).Flip? then [Decode(events[i]).raw.cutover] else []
  {
    assert events[..i + 1][..i] == events[..i];
  }

  lemma {:induction false} YieldedAt(script: seq<Next>, i: nat, ctxErr: Error)
    requires i <= |script| && forall j :: 0 <= j < i ==> script[j].Yield?
    ensures |Yielded(script)| >= i
    ensures i < |script| && script[i].Yield? ==> |Yielded(script)| > i && Yielded(script)[i] == script[i].event
    ensures i == |script| || !script[i].Yield? ==>
              |Yielded(script)| == i
              && Ending(script, ctxErr) == if i == |script| then Nil else EndingOf(script[i], ctxErr)
  {
    if i == 0 {
    } else {
      YieldedAt(script[1..], i - 1, ctxErr);
      assert i < |script| ==> script[1..][i - 1] == script[i];
    }
  }

  /** Requests events until the read ends or an event is refused. */
  method ReadAndFold(start: Routes, after: int, script: seq<Next>, tailing: bool, ctxErr: Error)
    returns (routes: Routes, position: int, accepted: seq<Cutover>, readErr: Error, ghost folded: nat)
    ensures folded <= |Yielded(script)|
    ensures FoldLog(start, Yielded(script)[..folded]) == Some(routes)
    ensures accepted == if tailing then CutoversIn(Yielded(script)[..folded]) else []
    ensures folded == |Yielded(script)| ==>
              readErr == Ending(script, ctxErr) && position == LastPosition(after, Yielded(script))
    ensures folded < |Yielded(script)| ==>
              && FoldLog(start, Yielded(script)[..folded + 1]).None?
              && readErr == REFUSED && position == Yielded(script)[folded].position
  {
    hide Decode, FoldOne, FoldLog, CutoversIn, Yielded, Ending;
    routes, position, accepted, folded := start, after, [], 0;
    ghost var all := Yielded(script);
    EmptyStretch(start, all);
    var i := 0;
    while i < |script| && script[i].Yield?
      invariant 0 <= i <= |script| && folded == i
      invariant forall j :: 0 <= j < i ==> script[j].Yield?
      invariant i <= |all| && FoldLog(start, all[..i]) == Some(routes)
      invariant position == LastPosition(after, all[..i])
      invariant accepted == if tailing then CutoversIn(all[..i]) else []
    {
      YieldedAt(script, i, ctxErr);
      StretchStep(start, all, i);
      var event := script[i].event;
      position := event.position;
      var next := FoldOne(routes, event);
      if next.None? {
        return routes, position, accepted, REFUSED, folded;
      }
      routes := next.value;
      var decoded := Decode(event);
      if decoded.Flip? && tailing {
        accepted := accepted + [decoded.raw.cutover];
      }
      i, folded := i + 1, folded + 1;
    }
    YieldedAt(script, i, ctxErr);
    assert all[..i] == all;
    readErr := if i < |script| then EndingOf(script[i], ctxErr) else Nil;
  }

  lemma EmptyStretch(start: Routes, events: seq<Envelope>)
    ensures FoldLog(start, events[..0]) == Some(start) && CutoversIn(events[..0]) == []
  {
  }

  // ---------------------------------------------------------------------------
  // Delivery
  // ---------------------------------------------------------------------------

  /** What delivering one cutover came to, and whether the context had ended after. */
  datatype Delivery = Delivery(err: Error, canceled: bool)

  /** How many of the first cutovers the setters accepted, and what stopped the rest. */
  function Delivered(deliveries: seq<Delivery>, ctxErr: Error): (r: (nat, Error))
    ensures r.0 <= |deliveries|
  {
    if deliveries == [] then (0, Nil)
    else if !deliveries[0].err.Nil? then (0, deliveries[0].err)
    else if deliveries[0].canceled then (1, ctxErr)
    else
      var rest := Delivered(deliveries[1..], ctxErr);
      (1 + rest.0, rest.1)
  }

  lemma {:induction false} DeliveredAt(deliveries: seq<Delivery>, n: nat, ctxErr: Error)
    requires n <= |deliveries| && forall j :: 0 <= j < n ==> deliveries[j] == Delivery(Nil, false)
    ensures n == |deliveries| ==> Delivered(deliveries, ctxErr) == (n, Nil)
    ensures n < |deliveries| && !deliveries[n].err.Nil? ==> Delivered(deliveries, ctxErr) == (n, deliveries[n].err)
    ensures n < |deliveries| && deliveries[n].err.Nil? && deliveries[n].canceled ==>
              Delivered(deliveries, ctxErr) == (n + 1, ctxErr)
  {
    if n == 0 {
    } else {
      DeliveredAt(deliveries[1..], n - 1, ctxErr);
      assert n < |deliveries| ==> deliveries[1..][n - 1] == deliveries[n];
    }
  }

  /** Delivers in order until a setter fails or the context ends. */
  method Deliver(accepted: seq<Cutover>, deliveries: seq<Delivery>, ctxErr: Error)
    returns (delivered: seq<Cutover>, err: Error)
    requires |deliveries| == |accepted|
    ensures delivered == accepted[..Delivered(deliveries, ctxErr).0] && err == Delivered(deliveries, ctxErr).1
  {
    delivered := [];
    for n := 0 to |accepted|
      invariant delivered == accepted[..n]
      invariant forall j :: 0 <= j < n ==> deliveries[j] == Delivery(Nil, false)
    {
      DeliveredAt(deliveries, n, ctxErr);
      if !deliveries[n].err.Nil? {
        return delivered, deliveries[n].err;
      }
      delivered := delivered + [accepted[n]];
      if deliveries[n].canceled {
        return delivered, ctxErr;
      }
    }
    DeliveredAt(deliveries, |accepted|, ctxErr);
    assert accepted[..|accepted|] == accepted;
    err := Nil;
  }

  /** How a read began: not at all when the context had ended before it. */
  datatype Opening = Opened | NotBegun | OpenFailed(err: Error, canceled: bool)

  function OpeningReport(opening: Opening, ctxErr: Error): Error {
    match opening
    case Opened => Nil
    case NotBegun => ctxErr
    case OpenFailed(err, canceled) => OpenReport(err, canceled, ctxErr)
  }

  /** A drain whose read does not open folds and delivers nothing. */
  method Drain(start: Routes, after: int, opening: Opening, script: seq<Next>, tailing: bool, closeErr: Error,
               canceled: bool, deliveries: seq<Delivery>, ctxErr: Error)
    returns (routes: Routes, position: int, delivered: seq<Cutover>, err: Error, ghost folded: nat)
    requires |deliveries| == |Yielded(script)|
    ensures !opening.Opened? ==>
              routes == start && position == after && delivered == [] && err == OpeningReport(opening, ctxErr)
    ensures opening.Opened? ==>
              DrainedFrom(start, after, script, tailing, closeErr, canceled, deliveries, ctxErr,
                          routes, position, delivered, err, folded)
  {
    routes, position, delivered, err, folded := start, after, [], OpeningReport(opening, ctxErr), 0;
    if opening.Opened? {
      routes, position, delivered, err, folded :=
        DrainOpened(start, after, script, tailing, closeErr, canceled, deliveries, ctxErr);
    }
  }

  /** What one drain folds, reports and delivers. It folds every event up to the end of
      the read or the first refused one; when tailing it delivers the cutovers folded,
      in order, unless the iterator failed to close or the context ended first; and a
      delivery that fails outranks whatever ended the read. */
  predicate DrainedFrom(start: Routes, after: int, script: seq<Next>, tailing: bool, closeErr: Error, canceled: bool,
                        deliveries: seq<Delivery>, ctxErr: Error,
                        routes: Routes, position: int, delivered: seq<Cutover>, err: Error, folded: nat)
    requires |deliveries| == |Yielded(script)|
  {
    var events := Yielded(script);
    && folded <= |events|
    && FoldLog(start, events[..folded]) == Some(routes)
    && (folded < |events| ==> FoldLog(start, events[..folded + 1]).None?)
    && position == (if folded < |events| then events[folded].position else LastPosition(after, events))
    && var readErr := if folded < |events| then REFUSED else Ending(script, ctxErr);
       var buffered := if tailing then CutoversIn(events[..folded]) else [];
       && |buffered| <= |deliveries|
       && var (n, failure) := Delivered(deliveries[..|buffered|], ctxErr);
          if !closeErr.Nil? || canceled then delivered == [] && err == CloseReport(readErr, closeErr, canceled, ctxErr)
          else delivered == buffered[..n] && err == if failure.Nil? then readErr else failure
  }

  method DrainOpened(start: Routes, after: int, script: seq<Next>, tailing: bool, closeErr: Error, canceled: bool,
               deliveries: seq<Delivery>, ctxErr: Error)
    returns (routes: Routes, position: int, delivered: seq<Cutover>, err: Error, ghost folded: nat)
    requires |deliveries| == |Yielded(script)|
    ensures DrainedFrom(start, after, script, tailing, closeErr, canceled, deliveries, ctxErr,
                        routes, position, delivered, err, folded)
  {
    hide Decode, FoldOne, FoldLog, CutoversIn, Yielded, Ending, CloseReport;
    var accepted, readErr;
    routes, position, accepted, readErr, folded := ReadAndFold(start, after, script, tailing, ctxErr);
    NoMoreCutoversThanEvents(Yielded(script)[..folded]);
    delivered := [];
    if !closeErr.Nil? || canceled {
      return routes, position, [], CloseReport(readErr, closeErr, canceled, ctxErr), folded;
    }
    delivered, err := Deliver(accepted, deliveries[..|accepted|], ctxErr);
    if err.Nil? {
      err := readErr;
    }
  }

  lemma {:induction false} NoMoreCutoversThanEvents(events: seq<Envelope>)
    ensures |CutoversIn(events)| <= |events|
  {
    if events == [] {
    } else {
      NoMoreCutoversThanEvents(events[..|events| - 1]);
    }
  }

  /** A drain reports nothing only when it read, closed and delivered everything: the
      error is nil exactly when the read ended cleanly with no event refused, the
      iterator closed, the context never ended, and every delivery succeeded. */
  lemma QuietDrainsAreWhole(readErr: Error, closeErr: Error, canceled: bool, deliveries: seq<Delivery>, ctxErr: Error)
    requires ctxErr.Leaf?
    ensures var err := if !closeErr.Nil? || canceled then CloseReport(readErr, closeErr, canceled, ctxErr)
                       else if Delivered(deliveries, ctxErr).1.Nil? then readErr else Delivered(deliveries, ctxErr).1;
            err.Nil? <==> readErr.Nil? && closeErr.Nil? && !canceled
                          && forall i :: 0 <= i < |deliveries| ==> deliveries[i] == Delivery(Nil, false)
  {
    ClosingLosesNoFailure(readErr, closeErr, canceled, ctxErr);
    DeliveredIsNilExactly(deliveries, ctxErr);
  }

  lemma {:induction false} DeliveredIsNilExactly(deliveries: seq<Delivery>, ctxErr: Error)
    requires ctxErr.Leaf?
    ensures Delivered(deliveries, ctxErr).1.Nil? <==>
            forall i :: 0 <= i < |deliveries| ==> deliveries[i] == Delivery(Nil, false)
  {
    if deliveries == [] {
    } else {
      DeliveredIsNilExactly(deliveries[1..], ctxErr);
      assert forall i :: 1 <= i < |deliveries| ==> deliveries[i] == deliveries[1..][i - 1];
    }
  }
}
