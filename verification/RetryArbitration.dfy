/** How terminal commands and promotion retries share one handle
    (projection/lifecycle/handle.go, retryPromotion and pauseRetries). A retry holds
    the handle's lock through an append that may only end when its context is
    cancelled, and a command waits on that lock: the command announces itself first,
    which cancels the retry from outside the lock, and a retry waits while any
    command is announced. The run's own appends, its catch-up and its first
    promotion, hold the lock too, and no command cancels those. */
module RetryArbitration {
  import opened Base

  type Channel = nat
  type Context = nat

  /** Where a thread stands with the handle's lock: parked means inside an append. */
  datatype Lock = Without | Holding | Parked

  /** The one retry of a run. */
  datatype Retry =
    | Idle
    | Waiting(channel: Channel)
    | Attempting(context: Context, lock: Lock)

  /** A command between its announcement and its withdrawal: before the lock, at it,
      and after it, when it may still wait for the processor to stop. */
  datatype Command = Commanding(lock: Lock) | Leaving(waits: bool)

  /** What retryMu guards, and the threads around it. The run's own appends and its
      retry are one thread. */
  datatype Gate = Gate(
    pendingCommands: nat,
    commandsClear: Option<Channel>,
    retryCancel: Option<Context>,
    closed: set<Channel>,
    cancelled: set<Context>,
    made: nat,                      // channels and contexts below this were made
    retry: Retry,
    run: Lock,
    commands: seq<Command>)

  const OPEN := Gate(0, None, None, {}, {}, 0, Idle, Without, [])

  function Announce(g: Gate): Gate {
    g.(pendingCommands := g.pendingCommands + 1,
       cancelled := if g.retryCancel.Some? then g.cancelled + {g.retryCancel.value} else g.cancelled)
  }

  function Withdraw(g: Gate): Gate
    requires g.pendingCommands > 0
  {
    var left := g.pendingCommands - 1;
    if left == 0 && g.commandsClear.Some? then
      g.(pendingCommands := 0, closed := g.closed + {g.commandsClear.value}, commandsClear := None)
    else g.(pendingCommands := left)
  }

  /** A retry looks: it waits while a command is pending, and registers otherwise. */
  function Look(g: Gate): Gate {
    if g.pendingCommands > 0 then
      if g.commandsClear.Some? then g.(retry := Waiting(g.commandsClear.value))
      else g.(commandsClear := Some(g.made), made := g.made + 1, retry := Waiting(g.made))
    else g.(retryCancel := Some(g.made), made := g.made + 1, retry := Attempting(g.made, Without))
  }

  function Deregister(g: Gate): Gate {
    g.(retryCancel := None, retry := Idle)
  }

  predicate RetryLocks(g: Gate) {
    g.retry.Attempting? && !g.retry.lock.Without?
  }

  predicate CommandLocks(c: Command) {
    c.Commanding? && !c.lock.Without?
  }

  predicate HandleLocked(g: Gate) {
    RetryLocks(g) || !g.run.Without? || exists i :: 0 <= i < |g.commands| && CommandLocks(g.commands[i])
  }

  datatype Step =
    | NewCommand
    | LockCommand(index: nat)
    | ParkCommand(index: nat)
    | ReturnCommand(index: nat)
    | UnlockCommand(index: nat, waits: bool)
    | StopObserved(index: nat)
    | EndCommand(index: nat)
    | StartRetry
    | Wake
    | GiveUp
    | LockRetry
    | ParkRetry
    | ReturnRetry
    | CancelRetry
    | EndRetry
    | LockRun
    | ParkRun
    | ReturnRun
    | UnlockRun

  predicate CommandIs(g: Gate, i: nat, c: Command) {
    i < |g.commands| && g.commands[i] == c
  }

  predicate Enabled(g: Gate, s: Step) {
    match s
    case NewCommand => true
    case LockCommand(i) => CommandIs(g, i, Commanding(Without)) && !HandleLocked(g)
    case ParkCommand(i) => CommandIs(g, i, Commanding(Holding))
    case ReturnCommand(i) => CommandIs(g, i, Commanding(Parked))
    case UnlockCommand(i, _) => CommandIs(g, i, Commanding(Holding))
    case StopObserved(i) => CommandIs(g, i, Leaving(true))
    case EndCommand(i) => CommandIs(g, i, Leaving(false)) && g.pendingCommands > 0
    case StartRetry => g.retry.Idle? && g.run.Without?
    case Wake => g.retry.Waiting? && g.retry.channel in g.closed
    case GiveUp => g.retry.Waiting?
    case LockRetry => g.retry.Attempting? && g.retry.lock.Without? && !HandleLocked(g)
    case ParkRetry => g.retry.Attempting? && g.retry.lock.Holding?
    case ReturnRetry => g.retry.Attempting? && g.retry.lock.Parked?
    case CancelRetry => g.retry.Attempting? && g.retry.lock.Parked? && g.retry.context in g.cancelled
    case EndRetry => g.retry.Attempting? && g.retry.lock.Holding?
    case LockRun => g.run.Without? && g.retry.Idle? && !HandleLocked(g)
    case ParkRun => g.run.Holding?
    case ReturnRun => g.run.Parked?
    case UnlockRun => g.run.Holding?
  }

  function Apply(g: Gate, s: Step): Gate
    requires Enabled(g, s)
  {
    match s
    case NewCommand => Announce(g).(commands := g.commands + [Commanding(Without)])
    case LockCommand(i) => g.(commands := g.commands[i := Commanding(Holding)])
    case ParkCommand(i) => g.(commands := g.commands[i := Commanding(Parked)])
    case ReturnCommand(i) => g.(commands := g.commands[i := Commanding(Holding)])
    case UnlockCommand(i, waits) => g.(commands := g.commands[i := Leaving(waits)])
    case StopObserved(i) => g.(commands := g.commands[i := Leaving(false)])
    case EndCommand(i) => Withdraw(g).(commands := g.commands[..i] + g.commands[i + 1..])
    case StartRetry => Look(g)
    case Wake => Look(g)
    case GiveUp => g.(retry := Idle)
    case LockRetry => g.(retry := g.retry.(lock := Holding))
    case ParkRetry => g.(retry := g.retry.(lock := Parked))
    case ReturnRetry => g.(retry := g.retry.(lock := Holding))
    case CancelRetry => g.(retry := g.retry.(lock := Holding))
    case EndRetry => Deregister(g)
    case LockRun => g.(run := Holding)
    case ParkRun => g.(run := Parked)
    case ReturnRun => g.(run := Holding)
    case UnlockRun => g.(run := Without)
  }

  predicate Runs(g: Gate, steps: seq<Step>)
    decreases |steps|
  {
    steps != [] ==> Enabled(g, steps[0]) && Runs(Apply(g, steps[0]), steps[1..])
  }

  function Final(g: Gate, steps: seq<Step>): Gate
    requires Runs(g, steps)
    decreases |steps|
  {
    if steps == [] then g else Final(Apply(g, steps[0]), steps[1..])
  }

  // ---------------------------------------------------------------------------
  // The invariant
  // ---------------------------------------------------------------------------

  /** At most one thread holds the lock. */
  predicate OneLock(g: Gate) {
    && (forall i, j :: 0 <= i < j < |g.commands| ==> !(CommandLocks(g.commands[i]) && CommandLocks(g.commands[j])))
    && (RetryLocks(g) || !g.run.Without? ==> forall i :: 0 <= i < |g.commands| ==> !CommandLocks(g.commands[i]))
  }

  ghost predicate Inv(g: Gate) {
    && g.pendingCommands == |g.commands|
    && OneLock(g)
    && (!g.run.Without? ==> g.retry.Idle?)
    && (g.retry.Attempting? <==> g.retryCancel.Some?)
    && (g.retry.Attempting? ==> g.retryCancel == Some(g.retry.context))
    && (g.pendingCommands > 0 && g.retryCancel.Some? ==> g.retryCancel.value in g.cancelled)
    && (g.commandsClear.Some? ==> g.pendingCommands > 0 && g.commandsClear.value !in g.closed)
    && (g.retry.Waiting? ==> g.retry.channel in g.closed || g.commandsClear == Some(g.retry.channel))
    && (g.commandsClear.Some? ==> g.commandsClear.value < g.made)
    && (forall c :: c in g.closed ==> c < g.made)
    && (forall c :: c in g.cancelled ==> c < g.made)
    && (g.retryCancel.Some? ==> g.retryCancel.value < g.made)
  }

  predicate OfCommands(s: Step) {
    || s.NewCommand? || s.LockCommand? || s.ParkCommand? || s.ReturnCommand? || s.UnlockCommand? || s.StopObserved?
    || s.EndCommand?
  }

  lemma ReplacingKeepsOneLock(g: Gate, i: nat, c: Command)
    requires OneLock(g) && i < |g.commands| && (CommandLocks(c) ==> CommandLocks(g.commands[i]) || !HandleLocked(g))
    ensures OneLock(g.(commands := g.commands[i := c]))
  {
  }

  lemma RemovingKeepsOneLock(g: Gate, i: nat)
    requires OneLock(g) && i < |g.commands|
    ensures OneLock(g.(commands := g.commands[..i] + g.commands[i + 1..]))
  {
    var rest := g.commands[..i] + g.commands[i + 1..];
    assert forall k :: 0 <= k < |rest| ==> rest[k] == g.commands[if k < i then k else k + 1];
  }

  lemma AddingKeepsOneLock(g: Gate)
    requires OneLock(g)
    ensures OneLock(g.(commands := g.commands + [Commanding(Without)]))
  {
  }

  lemma CommandStepKeepsInv(g: Gate, s: Step)
    requires Inv(g) && Enabled(g, s) && OfCommands(s)
    ensures Inv(Apply(g, s))
  {
    match s
    case NewCommand => AddingKeepsOneLock(g);
    case LockCommand(i) => ReplacingKeepsOneLock(g, i, Commanding(Holding));
    case ParkCommand(i) => ReplacingKeepsOneLock(g, i, Commanding(Parked));
    case ReturnCommand(i) => ReplacingKeepsOneLock(g, i, Commanding(Holding));
    case UnlockCommand(i, waits) => ReplacingKeepsOneLock(g, i, Leaving(waits));
    case StopObserved(i) => ReplacingKeepsOneLock(g, i, Leaving(false));
    case EndCommand(i) => RemovingKeepsOneLock(g, i);
    hide HandleLocked;
    OneLockIgnores(g, Apply(g, s));
    hide OneLock;
  }

  lemma OneLockIgnores(g: Gate, h: Gate)
    requires h.run == g.run && h.retry == g.retry && OneLock(g.(commands := h.commands))
    ensures OneLock(h)
  {
  }

  lemma OtherStepKeepsInv(g: Gate, s: Step)
    requires Inv(g) && Enabled(g, s) && !OfCommands(s)
    ensures Inv(Apply(g, s))
  {
  }

  lemma StepKeepsInv(g: Gate, s: Step)
    requires Inv(g) && Enabled(g, s)
    ensures Inv(Apply(g, s))
  {
    hide Inv, Enabled, Apply;
    if OfCommands(s) {
      CommandStepKeepsInv(g, s);
    } else {
      OtherStepKeepsInv(g, s);
    }
  }

  lemma {:induction false} RunsKeepInv(g: Gate, steps: seq<Step>)
    requires Inv(g) && Runs(g, steps)
    ensures Inv(Final(g, steps))
    decreases |steps|
  {
    hide Inv, Enabled, Apply;
    if steps == [] {
    } else {
      StepKeepsInv(g, steps[0]);
      RunsKeepInv(Apply(g, steps[0]), steps[1..]);
    }
  }

  lemma OpenIsFine()
    ensures Inv(OPEN)
  {
  }

  // ---------------------------------------------------------------------------
  // Wake-ups
  // ---------------------------------------------------------------------------

  /** While a command is pending no uncancelled retry is registered, and a waiting
      retry's channel is closed unless a command is still pending. */
  lemma NoWakeUpIsLost(steps: seq<Step>)
    requires Runs(OPEN, steps)
    ensures var g := Final(OPEN, steps);
            && (g.pendingCommands > 0 && g.retry.Attempting? ==> g.retry.context in g.cancelled)
            && (g.retry.Waiting? ==> g.retry.channel in g.closed || g.pendingCommands > 0)
  {
    OpenIsFine();
    RunsKeepInv(OPEN, steps);
  }

  // ---------------------------------------------------------------------------
  // Progress
  // ---------------------------------------------------------------------------

  /** The steps a thread takes by itself. The others begin something new, or wait for
      an append to return, for a processor to stop or for a context to end. */
  predicate Internal(s: Step) {
    || s.LockCommand? || s.UnlockCommand? || s.EndCommand?
    || s.Wake? || s.LockRetry? || s.CancelRetry? || s.EndRetry? || s.UnlockRun?
  }

  ghost predicate CanMove(g: Gate) {
    exists s :: Internal(s) && Enabled(g, s)
  }

  /** The lock is held inside an append that no command cancels: the run's own, or
      another command's. */
  predicate HeldOutside(g: Gate) {
    g.run.Parked? || exists i :: 0 <= i < |g.commands| && g.commands[i] == Commanding(Parked)
  }

  /** Nobody is at the lock: every pending command waits for the processor to stop. */
  predicate AllLeft(g: Gate) {
    !g.retry.Attempting? && g.run.Without? && forall i :: 0 <= i < |g.commands| ==> g.commands[i].Leaving?
  }

  /** No one past the lock can go on. */
  predicate NobodyLeaves(g: Gate) {
    && (g.retry.Waiting? ==> g.retry.channel !in g.closed)
    && forall i :: 0 <= i < |g.commands| ==> g.commands[i] != Leaving(false)
  }

  /** In every reachable state with a pending command or a waiting retry, some thread
      can move by itself, unless and only unless what holds everything up lies
      outside: an append that no command cancels, or a processor that has yet to
      stop. Commands and retries never wait for each other in a circle. */
  lemma ProgressIsExact(steps: seq<Step>)
    requires Runs(OPEN, steps)
    ensures var g := Final(OPEN, steps);
            g.pendingCommands > 0 || g.retry.Waiting? ==>
              (CanMove(g) <==> !(NobodyLeaves(g) && (HeldOutside(g) || AllLeft(g))))
  {
    OpenIsFine();
    RunsKeepInv(OPEN, steps);
    InvIsExact(Final(OPEN, steps));
  }

  lemma InvIsExact(g: Gate)
    requires Inv(g)
    ensures g.pendingCommands > 0 || g.retry.Waiting? ==>
              (CanMove(g) <==> !(NobodyLeaves(g) && (HeldOutside(g) || AllLeft(g))))
  {
    if g.pendingCommands > 0 || g.retry.Waiting? {
      if !NobodyLeaves(g) {
        LeaversMove(g);
      } else if HeldOutside(g) {
        OutsideHoldsAll(g);
      } else if AllLeft(g) {
        assert !CanMove(g);
      } else {
        SomeoneMoves(g);
      }
    }
  }

  lemma LeaversMove(g: Gate)
    requires Inv(g) && !NobodyLeaves(g)
    ensures CanMove(g)
  {
    if g.retry.Waiting? && g.retry.channel in g.closed {
      assert Internal(Wake) && Enabled(g, Wake);
    } else {
      var i :| 0 <= i < |g.commands| && g.commands[i] == Leaving(false);
      assert Internal(EndCommand(i)) && Enabled(g, EndCommand(i));
    }
  }

  lemma OutsideHoldsAll(g: Gate)
    requires Inv(g) && HeldOutside(g) && NobodyLeaves(g)
    ensures !CanMove(g)
  {
    assert HandleLocked(g);
    forall s | Internal(s) ensures !Enabled(g, s) {
      if g.run.Without? {
        var i :| 0 <= i < |g.commands| && g.commands[i] == Commanding(Parked);
        assert CommandLocks(g.commands[i]);
      }
    }
  }

  lemma SomeoneMoves(g: Gate)
    requires Inv(g) && !HeldOutside(g) && !AllLeft(g) && (g.pendingCommands > 0 || g.retry.Waiting?)
    ensures CanMove(g)
  {
    if g.run.Holding? {
      assert Internal(UnlockRun) && Enabled(g, UnlockRun);
    } else if RetryLocks(g) {
      RetryYields(g);
    } else if i :| 0 <= i < |g.commands| && CommandLocks(g.commands[i]) {
      assert g.commands[i] == Commanding(Holding);
      assert Internal(UnlockCommand(i, false)) && Enabled(g, UnlockCommand(i, false));
    } else if g.retry.Attempting? {
      assert Internal(LockRetry) && Enabled(g, LockRetry);
    } else {
      var i :| 0 <= i < |g.commands| && !g.commands[i].Leaving?;
      assert Internal(LockCommand(i)) && Enabled(g, LockCommand(i));
    }
  }

  lemma RetryYields(g: Gate)
    requires Inv(g) && RetryLocks(g) && g.pendingCommands > 0
    ensures CanMove(g)
  {
    if g.retry.lock.Parked? {
      assert Internal(CancelRetry) && Enabled(g, CancelRetry);
    } else {
      assert Internal(EndRetry) && Enabled(g, EndRetry);
    }
  }

  /** What the announcement buys: a command never waits for a retry's append. From
      every reachable state with a command pending, a retry that holds the lock gives
      it up within two steps of its own. */
  lemma RetriesYieldToCommands(steps: seq<Step>) returns (yielding: seq<Step>)
    requires Runs(OPEN, steps)
    requires var g := Final(OPEN, steps); g.pendingCommands > 0 && RetryLocks(g)
    ensures |yielding| <= 2 && forall i :: 0 <= i < |yielding| ==> yielding[i].CancelRetry? || yielding[i].EndRetry?
    ensures Runs(Final(OPEN, steps), yielding) && !HandleLocked(Final(Final(OPEN, steps), yielding))
  {
    OpenIsFine();
    RunsKeepInv(OPEN, steps);
    var g := Final(OPEN, steps);
    hide Runs, Final;
    if g.retry.lock.Parked? {
      var h := Apply(g, CancelRetry);
      StepKeepsInv(g, CancelRetry);
      Then(h, EndRetry, []);
      Then(g, CancelRetry, [EndRetry] + []);
      yielding := [CancelRetry] + ([EndRetry] + []);
      Nothing(Apply(h, EndRetry));
    } else {
      Then(g, EndRetry, []);
      yielding := [EndRetry] + [];
      Nothing(Apply(g, EndRetry));
    }
  }

  lemma Then(g: Gate, s: Step, rest: seq<Step>)
    requires Enabled(g, s)
    ensures Runs(g, [s] + rest) <==> Runs(Apply(g, s), rest)
    ensures Runs(Apply(g, s), rest) ==> Final(g, [s] + rest) == Final(Apply(g, s), rest)
  {
    hide Enabled, Apply;
    assert ([s] + rest)[1..] == rest;
  }

  lemma Nothing(g: Gate)
    ensures Runs(g, []) && Final(g, []) == g
  {
  }

  /** The run's own appends are another matter: a command can be left waiting, with
      nothing able to move, while the first promotion's append is parked. */
  lemma CommandsWaitForTheRunsAppend() returns (steps: seq<Step>)
    ensures Runs(OPEN, steps)
    ensures var g := Final(OPEN, steps);
            g.pendingCommands > 0 && g.run.Parked? && NobodyLeaves(g) && !CanMove(g)
  {
    var a := Apply(OPEN, LockRun);
    var b := Apply(a, ParkRun);
    var c := Apply(b, NewCommand);
    Nothing(c);
    Then(b, NewCommand, []);
    Then(a, ParkRun, [NewCommand] + []);
    Then(OPEN, LockRun, [ParkRun] + ([NewCommand] + []));
    steps := [LockRun] + ([ParkRun] + ([NewCommand] + []));
    RunsKeepInv(OPEN, steps) by { OpenIsFine(); }
    OutsideHoldsAll(c);
  }

  // ---------------------------------------------------------------------------
  // The handle
  // ---------------------------------------------------------------------------

  /** The fields under retryMu, and the state of the threads around them. */
  class Handle {
    var pendingCommands: int
    var commandsClear: Option<Channel>
    var retryCancel: Option<Context>
    var made: nat
    var waitsOn: Option<Channel>   // the channel the retry holds while it waits
    ghost var gate: Gate

    ghost predicate Valid()
      reads this
    {
      && Inv(gate)
      && waitsOn == (if gate.retry.Waiting? then Some(gate.retry.channel) else None)
      && pendingCommands == gate.pendingCommands && commandsClear == gate.commandsClear
      && retryCancel == gate.retryCancel && made == gate.made
    }

    constructor ()
      ensures Valid() && gate == OPEN
    {
      pendingCommands, commandsClear, retryCancel, made, waitsOn, gate := 0, None, None, 0, None, OPEN;
      new;
      OpenIsFine();
    }

    /** A terminal command announces itself ahead of the handle's lock: no registered
        retry is left uncancelled. */
    method PauseRetries()
      requires Valid()
      modifies this
      ensures Valid() && gate == Apply(old(gate), NewCommand)
      ensures pendingCommands > 0 && (retryCancel.Some? ==> retryCancel.value in gate.cancelled)
    {
      StepKeepsInv(gate, NewCommand);
      gate := Apply(gate, NewCommand);
      pendingCommands := pendingCommands + 1;
    }

    /** ... and withdraws: the last one leaves no retry waiting on an open channel. */
    method Resume(ghost index: nat)
      requires Valid() && Enabled(gate, EndCommand(index))
      modifies this
      ensures Valid() && gate == Apply(old(gate), EndCommand(index))
      ensures pendingCommands == 0 && gate.retry.Waiting? ==> gate.retry.channel in gate.closed
    {
      StepKeepsInv(gate, EndCommand(index));
      gate := Apply(gate, EndCommand(index));
      pendingCommands := pendingCommands - 1;
      if pendingCommands == 0 && commandsClear.Some? {
        commandsClear := None;
      }
    }

    /** Between two looks of a waiting retry, commands come and go. */
    method OthersAct()
      requires Valid()
      modifies this
      ensures Valid() && gate.retry == old(gate.retry) && gate.run == old(gate.run)
    {
      var announces: bool := *;
      if announces {
        PauseRetries();
      }
    }

    /** One look under the mutex. */
    method LookOnce() returns (waits: bool)
      requires Valid() && (Enabled(gate, StartRetry) || Enabled(gate, Wake))
      modifies this
      ensures Valid() && gate == Look(old(gate))
      ensures waits <==> gate.retry.Waiting?
      ensures !waits ==> gate.retry.Attempting? && gate.retry.context !in gate.cancelled && pendingCommands == 0
    {
      ghost var s := if gate.retry.Idle? then StartRetry else Wake;
      StepKeepsInv(gate, s);
      gate := Apply(gate, s);
      waits := pendingCommands > 0;
      if waits {
        if commandsClear.None? {
          commandsClear := Some(made);
          made := made + 1;
        }
        waitsOn := commandsClear;
      } else {
        retryCancel := Some(made);
        made := made + 1;
        waitsOn := None;
      }
    }

    /** The whole wait of a retry: it looks again whenever its channel was closed, and
        registers only with no command pending, under a context nobody has cancelled;
        or it gives up when the run's own context ends, at the latest after
        `patience` rounds. */
    method AwaitTurn(patience: nat) returns (registered: bool)
      requires Valid() && Enabled(gate, StartRetry)
      modifies this
      ensures Valid()
      ensures registered ==> gate.retry.Attempting? && gate.retry.context !in gate.cancelled && pendingCommands == 0
      ensures !registered ==> gate.retry.Idle?
    {
      var waits := LookOnce();
      var left := patience;
      while waits && left > 0
        invariant Valid() && gate.run.Without?
        invariant waits ==> gate.retry.Waiting?
        invariant !waits ==> gate.retry.Attempting? && gate.retry.context !in gate.cancelled && pendingCommands == 0
      {
        OthersAct();
        if Cleared() {
          waits := LookOnce();
        }
        var ended: bool := *;
        left := if ended then 0 else left - 1;
      }
      if waits {
        GiveUpWaiting();
      }
      return !waits;
    }

    /** The channel a retry waits on is closed: it is not the one still kept open. */
    predicate Cleared()
      reads this
    {
      waitsOn.Some? && commandsClear != waitsOn
    }

    method GiveUpWaiting()
      requires Valid() && gate.retry.Waiting?
      modifies this
      ensures Valid() && gate == Apply(old(gate), GiveUp)
    {
      StepKeepsInv(gate, GiveUp);
      gate := Apply(gate, GiveUp);
      waitsOn := None;
    }

    /** The retry's append has returned: it clears its registration. */
    method FinishRetry()
      requires Valid() && Enabled(gate, EndRetry)
      modifies this
      ensures Valid() && gate == Apply(old(gate), EndRetry) && retryCancel.None?
    {
      StepKeepsInv(gate, EndRetry);
      gate := Apply(gate, EndRetry);
      retryCancel := None;
    }
  }
}
