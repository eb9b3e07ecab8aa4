/** A Run's durable schedule (packages/control-plane-workflow/src/lifecycle.ts): one loop
    over two deadlines, beside writers it cannot see. */
module Lifecycle {
  import opened Basics
  import opened RunRow

  // --- what a wake reads, and what it decides -----------------------------------------------

  datatype Window = Window(deadlineAt: int, passed: bool)

  datatype Woken = Woken(status: Status, lifecycle: Option<Id>, window: Option<Window>, pass: Option<Id>)

  function WindowOf(deadline: Option<int>, now: int): Option<Window> {
    match deadline
    case None => None
    case Some(at) => Some(Window(at, at <= now))
  }

  /** The Run as one read finds it: its current deadline, and whether it has passed. */
  function View(r: Row, now: int): Woken {
    var deadline := if r.status == Queued then Some(r.claimableUntil) else r.expiresAt;
    Woken(r.status, r.lifecycle, WindowOf(deadline, now), r.pass)
  }

  /** How long the column is left to a record still in flight. */
  const GRACE_WAKES: nat := 5

  datatype Choice =
    | Orphan(recorded: Id) | End | NoWindow
    | SleepToward(deadlineAt: int) | LeaveToRecord | RecordSelf
    | CloseUnclaimed | CloseExecution

  /** The branches of the loop, on what one read found. */
  function Decide(mine: Id, w: Woken, wakes: nat): Choice {
    if w.lifecycle.Some? && w.lifecycle.value != mine then Orphan(w.lifecycle.value)
    else if !IsLive(w.status) then End
    else if w.window == None then NoWindow
    else if !w.window.value.passed then SleepToward(w.window.value.deadlineAt)
    else if w.lifecycle == None then (if wakes < GRACE_WAKES then LeaveToRecord else RecordSelf)
    else if w.status == Queued then CloseUnclaimed
    else CloseExecution
  }

  datatype Disposition = Pending | Running | PassCompleted | PassFailed | PassCancelled | Unreadable

  /** What the watchdog saw. No pass, and a pass still going, are the same sight. */
  function ObservationFor(pass: Option<Disposition>): Observation {
    match pass
    case None => DeadlineElapsed
    case Some(Pending) => DeadlineElapsed
    case Some(Running) => DeadlineElapsed
    case Some(PassCompleted) => WorkflowTerminalWithoutResult
    case Some(PassFailed) => WorkflowFailed
    case Some(PassCancelled) => WorkflowCancelled
    case Some(Unreadable) => WorkflowStateUnavailable
  }

  datatype Outcome =
    | ClosedUnclaimed
    | WorkerLost(lostFrom: Status, observation: Observation, cancelledPass: Option<Id>)
    | Ended(status: Status)
    | LeftClaimed(status: Status)
    | Orphaned(recorded: Id)
    | UnknownRun

  // --- the other writers -------------------------------------------------------------------

  predicate Visible(row: Option<Row>) { row.Some? ==> WellKept(row.value) }

  /** What the rest of the system may do to the Run between two steps. A Run an Owner
      cannot see stays unseen; a Run it can see moves on by the statements alone. */
  predicate Ensues(a: Option<Row>, b: Option<Row>) {
    && a.Some? == b.Some?
    && (a.Some? ==> WellKept(b.value) && Later(a.value, b.value))
  }

  /** Every statement any writer can issue is covered by it. */
  lemma StatementsEnsue(r: Row, ss: seq<Statement>)
    requires WellKept(r)
    ensures Ensues(Some(r), Some(AfterAll(r, ss)))
  {
    OneEnding(r, ss);
  }

  // --- the measure ---------------------------------------------------------------------------

  /** The windows a Run still has before it, the open one counted twice while its
      deadline is ahead. */
  function WindowsLeft(row: Option<Row>, now: int): nat {
    if row == None || !IsLive(row.value.status) then 0
    else if row.value.status == Queued then (if row.value.claimableUntil > now then 4 else 3)
    else if row.value.expiresAt.Some? && row.value.expiresAt.value > now then 2
    else 1
  }

  function Unrecorded(row: Option<Row>): nat { if row.Some? && row.value.lifecycle == None then 1 else 0 }

  function Measure(row: Option<Row>, now: int, notifiable: bool, wakes: nat): nat
    requires wakes <= GRACE_WAKES
  {
    WindowsLeft(row, now) + (if notifiable then 1 else 0) + (GRACE_WAKES - wakes) + Unrecorded(row)
  }

  lemma OthersOnlyLower(a: Option<Row>, b: Option<Row>, now: int, now': int)
    requires Visible(a) && Ensues(a, b) && now <= now'
    ensures WindowsLeft(b, now') <= WindowsLeft(a, now) && Unrecorded(b) <= Unrecorded(a)
  {
  }

  // --- the plane -----------------------------------------------------------------------------

  /** What a lifecycle may write, and the statement it is when its step reads the clock. */
  datatype Call = Record | Expire | Close(observation: Observation)

  function StatementOf(call: Call, mine: Id, now: int): Statement {
    match call
    case Record => RecordLifecycle(mine)
    case Expire => ExpireUnclaimed(mine)
    case Close(observation) => TerminateLost(Deadline(now, mine), HostedWatchdog, observation)
  }

  /** The control plane as one lifecycle reaches it: every call is a step, other writers
      move between any two, and a step the platform runs again is run again. */
  class Plane {
    const mine: Id
    var row: Option<Row>
    var clock: int
    /** How often the Run was read, and how often this lifecycle's writes matched. */
    ghost var readCount: nat
    ghost var writeCount: nat
    /** Passes this lifecycle asked to cancel. */
    ghost var cancelled: set<Id>

    constructor (mine: Id, row: Option<Row>, clock: int)
      ensures this.mine == mine && this.row == row && this.clock == clock
      ensures readCount == 0 && writeCount == 0 && cancelled == {}
    {
      this.mine, this.row, this.clock := mine, row, clock;
      readCount, writeCount, cancelled := 0, 0, {};
    }

    /** Anything the others may do, and any time they may take. */
    method Others()
      requires Visible(row)
      modifies `row, `clock
      ensures Visible(row) && Ensues(old(row), row) && clock >= old(clock)
    {
      var r: Option<Row> := *;
      var t: int := *;
      if Ensues(row, r) {
        row := r;
      }
      if t > clock {
        clock := t;
      }
    }

    method ReadRun() returns (woken: Option<Woken>)
      requires Visible(row)
      modifies `row, `clock, `readCount
      ensures Visible(row) && Ensues(old(row), row) && clock >= old(clock) && readCount == old(readCount) + 1
      ensures woken == match row case None => None case Some(r) => Some(View(r, clock))
    {
      Others();
      readCount := readCount + 1;
      woken := match row case None => None case Some(r) => Some(View(r, clock));
    }

    method Sleep(until: int)
      requires Visible(row)
      modifies `row, `clock
      ensures Visible(row) && Ensues(old(row), row) && clock >= old(clock) && clock >= until
    {
      Others();
      if clock < until {
        clock := until;
      }
    }

    /** The race between the deadline and the hook, which resolves once. */
    method SleepOrNotified(until: int, notifiable: bool) returns (notified: bool)
      requires Visible(row)
      modifies `row, `clock
      ensures Visible(row) && Ensues(old(row), row) && clock >= old(clock)
      ensures notified ==> notifiable
      ensures !notified ==> clock >= until
    {
      var first: bool := *;
      notified := notifiable && first;
      if notified {
        Others();
      } else {
        Sleep(until);
      }
    }

    /** One conditional update, evaluated when and where it runs. */
    method Execute(call: Call) returns (matched: bool)
      requires Visible(row) && row.Some?
      modifies `row, `writeCount
      ensures var s := StatementOf(call, mine, clock);
        row == Some(After(old(row).value, s)) && matched == Matches(old(row).value, s)
      ensures Visible(row) && Ensues(old(row), row)
      ensures writeCount == old(writeCount) + if matched then 1 else 0
    {
      var s := StatementOf(call, mine, clock);
      matched := Matches(row.value, s);
      StatementKeeps(row.value, s);
      row := Some(After(row.value, s));
      if matched {
        writeCount := writeCount + 1;
      }
    }

    /** A step that issues one update. A step runs at least once, so the update may have
        run before the run that is answered for, and other writers after that. */
    method Step(call: Call) returns (matched: bool, ghost before: Row)
      requires Visible(row) && row.Some?
      modifies `row, `clock, `writeCount
      ensures Visible(row) && Ensues(old(row), row) && clock >= old(clock)
      ensures var s := StatementOf(call, mine, clock);
        Ensues(old(row), Some(before)) && row == Some(After(before, s)) && matched == Matches(before, s)
      ensures writeCount >= old(writeCount) && (writeCount > old(writeCount) ==> row.value.lifecycle == Some(mine))
    {
      var again: int := *;
      Others();
      before := row.value;
      matched := Execute(call);
      while again > 0
        invariant Visible(row) && Ensues(old(row), row) && clock >= old(clock)
        invariant Ensues(old(row), Some(before)) && matched == Matches(before, StatementOf(call, mine, clock))
        invariant row == Some(After(before, StatementOf(call, mine, clock)))
        invariant writeCount >= old(writeCount)
        invariant writeCount > old(writeCount) ==> row.value.lifecycle == Some(mine)
      {
        Others();
        before := row.value;
        matched := Execute(call);
        again := again - 1;
      }
    }

    /** Best-effort, and only over a Run that has already failed. */
    method CancelPass(pass: Id)
      requires Visible(row) && row.Some? && row.value.status == Failed && row.value.pass == Some(pass)
      modifies `row, `clock, `cancelled
      ensures Visible(row) && Ensues(old(row), row) && clock >= old(clock)
      ensures cancelled == old(cancelled) + {pass}
    {
      Others();
      cancelled := cancelled + {pass};
    }

    method ReadPassDisposition() returns (pass: Disposition)
      requires Visible(row)
      modifies `row, `clock
      ensures Visible(row) && Ensues(old(row), row) && clock >= old(clock)
    {
      Others();
      pass := *;
    }
  }

  // --- the loop --------------------------------------------------------------------------------

  /** What an outcome says of the Run. */
  predicate Truthful(o: Outcome, mine: Id, row: Option<Row>, now: int) {
    match o
    case ClosedUnclaimed =>
      row.Some? && row.value.status == Unscheduled && row.value.lifecycle == Some(mine) && row.value.claimableUntil <= now
    case WorkerLost(lostFrom, observation, cancelledPass) =>
      && row.Some? && row.value.status == Failed && row.value.lifecycle == Some(mine)
      && row.value.loss == Some(Loss(HostedWatchdog, observation, lostFrom))
      && row.value.expiresAt.Some? && row.value.expiresAt.value <= now
      && (cancelledPass.Some? ==> row.value.pass == cancelledPass)
    case Ended(status) => row.Some? && row.value.status == status && !IsLive(status)
    case LeftClaimed(_) => false
    case Orphaned(recorded) => row.Some? && row.value.lifecycle == Some(recorded) && recorded != mine
    case UnknownRun => row == None
  }

  /** Leaves the empty column to a record still in flight, and past the grace writes this
      lifecycle's own name there. */
  method AwaitRecord(plane: Plane, woken: Woken, wakes: nat) returns (spent: nat)
    requires Visible(plane.row) && plane.row.Some? && woken == View(plane.row.value, plane.clock)
    requires var d := Decide(plane.mine, woken, wakes); d == LeaveToRecord || d == RecordSelf
    requires wakes <= GRACE_WAKES && plane.writeCount == 0
    modifies plane`row, plane`clock, plane`writeCount
    ensures Visible(plane.row) && Ensues(old(plane.row), plane.row) && plane.clock >= old(plane.clock)
    ensures wakes < GRACE_WAKES ==> spent == wakes + 1 && plane.writeCount == 0
    ensures wakes == GRACE_WAKES ==> spent == wakes && Unrecorded(plane.row) == 0
    ensures plane.writeCount > 0 ==> plane.row.value.lifecycle == Some(plane.mine)
  {
    spent := wakes;
    if wakes < GRACE_WAKES {
      spent := wakes + 1;
      plane.Sleep(plane.clock);
      return;
    }
    ghost var before;
    var recorded;
    recorded, before := plane.Step(Record);
    if !recorded {
      plane.Sleep(plane.clock);
    }
  }

  /** Tries to close the window that has passed, under this lifecycle's own name. A write
      that matches nothing leaves the Run past that window. */
  method CloseWindow(plane: Plane, woken: Woken) returns (closed: Option<Outcome>)
    requires Visible(plane.row) && plane.row.Some? && plane.row.value.lifecycle == Some(plane.mine)
    requires woken == View(plane.row.value, plane.clock) && plane.cancelled == {}
    requires var d := Decide(plane.mine, woken, 0); d == CloseUnclaimed || d == CloseExecution
    modifies plane`row, plane`clock, plane`writeCount, plane`cancelled
    ensures Visible(plane.row) && Ensues(old(plane.row), plane.row) && plane.clock >= old(plane.clock)
    ensures closed.Some? ==> Truthful(closed.value, plane.mine, plane.row, plane.clock)
    ensures closed.Some? ==> closed.value.ClosedUnclaimed? || closed.value.WorkerLost?
    ensures closed.Some? && closed.value.WorkerLost? ==> closed.value.cancelledPass == woken.pass
    ensures plane.cancelled ==
      if closed.Some? && closed.value.WorkerLost? && woken.pass.Some? then {woken.pass.value} else {}
    ensures closed == None ==> WindowsLeft(plane.row, plane.clock) < WindowsLeft(old(plane.row), old(plane.clock))
  {
    ghost var before;
    closed := None;
    if woken.status == Queued {
      var expired;
      expired, before := plane.Step(Expire);
      if expired {
        closed := Some(ClosedUnclaimed);
      }
    } else {
      var pass: Option<Disposition> := None;
      if woken.pass.Some? {
        var disposition := plane.ReadPassDisposition();
        pass := Some(disposition);
      }
      var observation := ObservationFor(pass);
      var terminalized;
      terminalized, before := plane.Step(Close(observation));
      if terminalized {
        closed := Some(WorkerLost(plane.row.value.loss.value.lostFrom, observation, woken.pass));
        if woken.pass.Some? {
          plane.CancelPass(woken.pass.value);
        }
      }
    }
  }

  /** Schedules one Run. Whatever the other writers do, short of moving a deadline, the
      Run is read at most twelve times; the outcome says what became of it; a lifecycle
      that ends as an orphan wrote nothing; a pass is cancelled only when this lifecycle
      has just failed its Run; and on return the Run is over or names another. */
  method RunLifecycle(plane: Plane) returns (outcome: Outcome)
    requires Visible(plane.row) && plane.readCount == 0 && plane.writeCount == 0 && plane.cancelled == {}
    modifies plane
    ensures plane.readCount <= 12
    ensures Visible(plane.row) && Ensues(old(plane.row), plane.row)
    ensures Truthful(outcome, plane.mine, plane.row, plane.clock)
    ensures plane.row.Some? && IsLive(plane.row.value.status) ==>
      plane.row.value.lifecycle.Some? && plane.row.value.lifecycle != Some(plane.mine)
    ensures outcome.Orphaned? ==> plane.writeCount == 0
    ensures plane.cancelled == if outcome.WorkerLost? && outcome.cancelledPass.Some? then {outcome.cancelledPass.value} else {}
  {
    var mine := plane.mine;
    var unrecordedWakes: nat := 0;
    var notifiable := true;
    while true
      invariant unrecordedWakes <= GRACE_WAKES
      invariant Visible(plane.row) && Ensues(old(plane.row), plane.row) && plane.cancelled == {}
      invariant plane.writeCount > 0 ==> plane.row.Some? && plane.row.value.lifecycle == Some(mine)
      invariant plane.readCount + Measure(plane.row, plane.clock, notifiable, unrecordedWakes) <= 11
      decreases Measure(plane.row, plane.clock, notifiable, unrecordedWakes)
    {
      var read := plane.ReadRun();
      if read == None {
        return UnknownRun;
      }
      var woken := read.value;
      if woken.lifecycle.Some? && woken.lifecycle.value != mine {
        return Orphaned(woken.lifecycle.value);
      }
      if !IsLive(woken.status) {
        return Ended(woken.status);
      }
      if woken.window == None {
        return LeftClaimed(woken.status);
      }
      var window := woken.window.value;
      if !window.passed {
        var notified := plane.SleepOrNotified(window.deadlineAt, notifiable);
        if notified {
          notifiable := false;
        }
        continue;
      }
      if woken.lifecycle == None {
        unrecordedWakes := AwaitRecord(plane, woken, unrecordedWakes);
        continue;
      }
      var closed := CloseWindow(plane, woken);
      if closed.Some? {
        return closed.value;
      }
      plane.Sleep(plane.clock);
    }
  }
}
