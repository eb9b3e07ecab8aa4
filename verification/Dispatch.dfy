/** Starting a durable run and recording it, which cannot be one act: the lifecycle's
    dispatch (packages/control-plane-workflow/src/ingress.ts) and the hosted pass's
    (packages/worker-hosted/src/dispatch.ts). */
module Dispatch {
  import opened Basics
  import opened RunRow
  import opened Lifecycle

  datatype DispatchedLifecycle = DispatchedLifecycle(workflowRunId: Option<Id>, cancelledLifecycle: Option<Id>)

  /** What a dispatch whose record matched nothing makes of the lifecycle the row names. */
  function ConcludeDispatch(mine: Id, recorded: Option<Id>): DispatchedLifecycle {
    if recorded == Some(mine) then DispatchedLifecycle(Some(mine), None) else DispatchedLifecycle(None, Some(mine))
  }

  predicate Names(row: Option<Row>, id: Id) { row.Some? && row.value.lifecycle == Some(id) }

  /** What the platform was asked, and the Run's row when it was. */
  datatype Asked = ToStart(lifecycle: Id, row: Option<Row>) | ToCancel(lifecycle: Id, row: Option<Row>)

  class Platform {
    ghost var asked: seq<Asked>

    constructor ()
      ensures asked == []
    {
      asked := [];
    }

    method Start(plane: Plane)
      modifies this
      ensures asked == old(asked) + [ToStart(plane.mine, plane.row)]
    {
      asked := asked + [ToStart(plane.mine, plane.row)];
    }

    method Cancel(plane: Plane)
      modifies this
      ensures asked == old(asked) + [ToCancel(plane.mine, plane.row)]
    {
      asked := asked + [ToCancel(plane.mine, plane.row)];
    }
  }

  /** The row lets nobody take this lifecycle for the Run's: it names another, or none can
      see it. */
  predicate Loses(row: Option<Row>, mine: Id) {
    row == None || (row.value.lifecycle.Some? && row.value.lifecycle.value != mine)
  }

  /** One run of the step. It starts one lifecycle, before it writes anything, keeps it
      exactly when the Run names it, and otherwise cancels it, once the Run names another or
      turns out not to be visible. */
  method DispatchLifecycle(plane: Plane, platform: Platform) returns (dispatched: DispatchedLifecycle)
    requires Visible(plane.row)
    modifies plane, platform
    ensures Visible(plane.row) && Ensues(old(plane.row), plane.row)
    ensures dispatched == ConcludeDispatch(plane.mine, dispatched.workflowRunId)
    ensures dispatched.workflowRunId.Some? <==> Names(plane.row, plane.mine)
    ensures dispatched.cancelledLifecycle.Some? <==> Loses(plane.row, plane.mine)
    ensures |platform.asked| == |old(platform.asked)| + (if Loses(plane.row, plane.mine) then 2 else 1)
    ensures old(platform.asked) + [ToStart(plane.mine, old(plane.row))] <= platform.asked
    ensures Loses(plane.row, plane.mine) ==>
      var last := platform.asked[|platform.asked| - 1];
      last.ToCancel? && last.lifecycle == plane.mine && Loses(last.row, plane.mine)
  {
    platform.Start(plane);
    plane.Others();
    var recorded := false;
    if plane.row.Some? {
      recorded := plane.Execute(Record);
    }
    if recorded {
      return DispatchedLifecycle(Some(plane.mine), None);
    }
    plane.Others();
    dispatched := ConcludeDispatch(plane.mine, if plane.row.Some? then plane.row.value.lifecycle else None);
    if dispatched.cancelledLifecycle.Some? {
      platform.Cancel(plane);
    }
  }

  datatype HostedOutcome =
    | Dispatched(pass: Id, token: Token)
    | NotClaimed
    | UnrecordedPass(pass: Id)

  /** A pass being started, under a token, and the Run's row when it was. */
  datatype PassStart = PassStart(pass: Id, token: Token, row: Row)

  /** A Run as hosted dispatch reaches it, with the rest of the system at work beside it. */
  class HostedPlane {
    var row: Row
    var clock: int
    ghost var starts: seq<PassStart>

    constructor (row: Row, clock: int)
      ensures this.row == row && this.clock == clock && starts == []
    {
      this.row, this.clock, starts := row, clock, [];
    }

    method StartPass(pass: Id, token: Token)
      modifies `starts
      ensures starts == old(starts) + [PassStart(pass, token, row)]
    {
      starts := starts + [PassStart(pass, token, row)];
    }

    method Others()
      requires WellKept(row)
      modifies `row, `clock
      ensures WellKept(row) && Later(old(row), row) && clock >= old(clock)
    {
      var r: Row := *;
      var t: int := *;
      if WellKept(r) && Later(row, r) {
        row := r;
      }
      if t > clock {
        clock := t;
      }
    }

    method Execute(s: Statement) returns (matched: bool)
      requires WellKept(row)
      modifies `row
      ensures row == After(old(row), s) && matched == Matches(old(row), s)
      ensures WellKept(row) && Later(old(row), row)
    {
      matched := Matches(row, s);
      StatementKeeps(row, s);
      row := After(row, s);
    }
  }

  /** The claim, then the pass, then its record. Nothing is started where the claim was
      refused; what is started is one pass, under the token this claim has just put on the Run;
      it is recorded together with the move to `executing`; and where it could not be, the Run
      has left `claimed` with that token still on it. */
  method DispatchHostedRun(plane: HostedPlane, liveness: int, minted: Token, pass: Id) returns (outcome: HostedOutcome)
    requires WellKept(plane.row)
    modifies plane
    ensures WellKept(plane.row) && Later(old(plane.row), plane.row)
    ensures match outcome
      case Dispatched(p, token) =>
        p == pass && token == minted && plane.row.status == Executing && plane.row.pass == Some(p) && plane.row.token == Some(token)
      case NotClaimed => plane.row.status != Queued || plane.row.claimableUntil <= plane.clock
      case UnrecordedPass(p) => p == pass && plane.row.token == Some(minted) && plane.row.status != Claimed && plane.row.status != Queued
    ensures outcome == NotClaimed ==> plane.starts == old(plane.starts)
    ensures outcome != NotClaimed ==>
      && |plane.starts| == |old(plane.starts)| + 1 && old(plane.starts) < plane.starts
      && var start := plane.starts[|old(plane.starts)|];
        start.pass == pass && start.token == minted && start.row.token == Some(minted) && Later(start.row, plane.row)
  {
    plane.Others();
    var claimed := plane.Execute(ClaimRun(plane.clock, liveness, minted));
    if !claimed {
      return NotClaimed;
    }
    plane.Others();
    plane.StartPass(pass, minted);
    plane.Others();
    var recorded := plane.Execute(MarkExecuting(minted, pass));
    if !recorded {
      return UnrecordedPass(pass);
    }
    return Dispatched(pass, minted);
  }
}
