/** The Run row and the conditional updates that race over it
    (packages/control-plane/src/run/eligibility.ts and lifecycle.ts,
    packages/control-plane/src/worker/claim.ts and acceptance.ts). */
module RunRow {
  import opened Basics

  /** Names of durable runs, and of execution tokens. */
  type Id = nat
  type Token = nat

  datatype Status =
    | Queued | Claimed | Executing
    | Completed | Incomplete | Failed | Superseded | Cancelled | Unscheduled

  predicate IsLive(s: Status) { s == Queued || IsOwned(s) }

  /** The statuses over which a Result may still be accepted. */
  predicate IsOwned(s: Status) { s == Claimed || s == Executing }

  datatype Detector = HostedPrompt | HostedWatchdog | LeaseExpired

  datatype Observation =
    | UncaughtThrow | WorkflowFailed | WorkflowCancelled
    | WorkflowTerminalWithoutResult | WorkflowStateUnavailable | DeadlineElapsed

  datatype Loss = Loss(detector: Detector, observation: Observation, lostFrom: Status)

  datatype Row = Row(
    status: Status,
    claimableUntil: int,
    lifecycle: Option<Id>,
    token: Option<Token>,
    expiresAt: Option<int>,
    acceptedAt: Option<int>,
    pass: Option<Id>,
    loss: Option<Loss>)

  /** What an ingress delivery inserts. */
  function Inserted(claimableUntil: int): Row { Row(Queued, claimableUntil, None, None, None, None, None, None) }

  // --- the statements ------------------------------------------------------------------

  /** The one window Acceptance and the loss of an execution race over. */
  predicate Eligible(r: Row) { IsOwned(r.status) && r.acceptedAt == None }

  /** What a detector shows for itself. */
  datatype Evidence = Deadline(now: int, lifecycle: Id) | Execution(token: Token)

  predicate Holds(r: Row, e: Evidence) {
    match e
    case Deadline(now, lifecycle) => r.expiresAt.Some? && r.expiresAt.value <= now && r.lifecycle == Some(lifecycle)
    case Execution(token) => r.token == Some(token)
  }

  datatype Statement =
    | RecordLifecycle(id: Id)
    | ExpireUnclaimed(id: Id)
    | ClaimRun(now: int, liveness: int, minted: Token)
    | MarkExecuting(held: Token, pass: Id)
    | AcceptResult(now: int, presented: Token, complete: bool, permitted: bool)
    | TerminateLost(evidence: Evidence, detector: Detector, observation: Observation)
    | Supersede
    | Cancel

  /** The `where` of each update. The claim's placement and Installation conjuncts, and
      the duplicate-head rule of a supersession, only narrow these. */
  predicate Matches(r: Row, s: Statement) {
    match s
    case RecordLifecycle(_) => r.lifecycle == None
    case ExpireUnclaimed(id) => r.status == Queued && r.lifecycle == Some(id)
    case ClaimRun(now, _, _) => r.status == Queued && r.claimableUntil > now
    case MarkExecuting(held, _) => Eligible(r) && r.status == Claimed && r.token == Some(held)
    case AcceptResult(_, presented, _, permitted) => Eligible(r) && r.token == Some(presented) && permitted
    case TerminateLost(evidence, _, _) => Eligible(r) && Holds(r, evidence)
    case Supersede => IsLive(r.status)
    case Cancel => IsLive(r.status)
  }

  /** The `set` of each update. */
  function Written(r: Row, s: Statement): Row {
    match s
    case RecordLifecycle(id) => r.(lifecycle := Some(id))
    case ExpireUnclaimed(_) => r.(status := Unscheduled)
    case ClaimRun(now, liveness, minted) => r.(status := Claimed, token := Some(minted), expiresAt := Some(now + liveness))
    case MarkExecuting(_, pass) => r.(status := Executing, pass := Some(pass))
    case AcceptResult(now, _, complete, _) =>
      r.(status := if complete then Completed else Incomplete, acceptedAt := Some(now))
    case TerminateLost(_, detector, observation) =>
      r.(status := Failed, loss := Some(Loss(detector, observation, r.status)))
    case Supersede => r.(status := Superseded)
    case Cancel => r.(status := Status.Cancelled)
  }

  /** An update either writes its columns or matches nothing. */
  function After(r: Row, s: Statement): Row { if Matches(r, s) then Written(r, s) else r }

  // --- what every statement keeps --------------------------------------------------------

  /** The shapes a row can take. An owned row carries a token and a deadline and has
      accepted nothing; accepted and lost rows are told apart by their own columns; and
      `lostFrom` says whether a pass had been recorded. */
  predicate WellKept(r: Row) {
    && (r.status == Queued ==> r.token == None && r.expiresAt == None && r.pass == None)
    && (IsOwned(r.status) ==> r.token.Some? && r.expiresAt.Some?)
    && (r.status == Claimed ==> r.pass == None)
    && (r.status == Executing ==> r.pass.Some?)
    && (r.acceptedAt.Some? <==> r.status == Completed || r.status == Incomplete)
    && (r.loss.Some? <==> r.status == Failed)
    && (r.loss.Some? ==> r.loss.value.lostFrom == if r.pass == None then Claimed else Executing)
  }

  /** How far a Run still has to go. */
  function Rank(s: Status): nat { if s == Queued then 2 else if IsOwned(s) then 1 else 0 }

  /** What holds between an earlier and a later state of one row, whoever wrote in
      between: the lifecycle is written once, a deadline never moves, the status only
      advances, and an ended Run stays as it ended. */
  predicate Later(r: Row, r': Row) {
    && r'.claimableUntil == r.claimableUntil
    && (r.lifecycle.Some? ==> r'.lifecycle == r.lifecycle)
    && (r.expiresAt.Some? ==> r'.expiresAt == r.expiresAt)
    && (r.token.Some? ==> r'.token == r.token)
    && (r.pass.Some? ==> r'.pass == r.pass)
    && Rank(r'.status) <= Rank(r.status)
    && (r.status == Executing ==> r'.status != Claimed)
    && (Rank(r.status) == 0 ==> r' == r.(lifecycle := r'.lifecycle))
  }

  lemma StatementKeeps(r: Row, s: Statement)
    requires WellKept(r)
    ensures WellKept(After(r, s)) && Later(r, After(r, s))
  {
  }

  function AfterAll(r: Row, ss: seq<Statement>): Row
    decreases ss
  {
    if ss == [] then r else AfterAll(After(r, ss[0]), ss[1..])
  }

  /** How many of the statements ended the Run. */
  function Endings(r: Row, ss: seq<Statement>): nat
    decreases ss
  {
    if ss == [] then 0
    else (if IsLive(r.status) && !IsLive(After(r, ss[0]).status) then 1 else 0) + Endings(After(r, ss[0]), ss[1..])
  }

  /** How many of the statements wrote the lifecycle column. */
  function Recordings(r: Row, ss: seq<Statement>): nat
    decreases ss
  {
    if ss == [] then 0
    else (if ss[0].RecordLifecycle? && Matches(r, ss[0]) then 1 else 0) + Recordings(After(r, ss[0]), ss[1..])
  }

  /** However the statements interleave, a Run takes at most one terminal transition and
      names at most one lifecycle, and is ended exactly when it took one. A Result is
      never accepted of a lost Run, nor a Run lost once a Result was accepted. */
  lemma {:induction false} OneEnding(r: Row, ss: seq<Statement>)
    requires WellKept(r)
    ensures WellKept(AfterAll(r, ss)) && Later(r, AfterAll(r, ss))
    ensures Endings(r, ss) == if IsLive(r.status) && !IsLive(AfterAll(r, ss).status) then 1 else 0
    ensures Recordings(r, ss) == if r.lifecycle == None && AfterAll(r, ss).lifecycle.Some? then 1 else 0
    ensures !(AfterAll(r, ss).acceptedAt.Some? && AfterAll(r, ss).loss.Some?)
    decreases ss
  {
    if ss != [] {
      StatementKeeps(r, ss[0]);
      OneEnding(After(r, ss[0]), ss[1..]);
    }
  }

  /** Acceptance and the loss of the execution close each other out: after either, the
      other matches nothing, for good. */
  lemma RacersExclude(r: Row, first: Statement, between: seq<Statement>, second: Statement)
    requires WellKept(r) && Matches(r, first)
    requires first.AcceptResult? || first.TerminateLost?
    requires second.AcceptResult? || second.TerminateLost?
    ensures !Matches(AfterAll(After(r, first), between), second)
  {
    StatementKeeps(r, first);
    OneEnding(After(r, first), between);
  }

  /** A Run abandoned between its claim and its pass is still inside the window: the
      recorded lifecycle can close it as soon as its deadline has passed, and so can the
      token, whether or not a pass was ever recorded. */
  lemma AbandonedIsClosable(r: Row, now: int, lifecycle: Id, detector: Detector, observation: Observation)
    requires WellKept(r) && IsOwned(r.status) && r.lifecycle == Some(lifecycle)
    ensures var closed := After(r, TerminateLost(Deadline(now, lifecycle), detector, observation));
      if r.expiresAt.value <= now
      then closed.status == Failed && closed.loss == Some(Loss(detector, observation, r.status))
      else closed == r
    ensures After(r, TerminateLost(Execution(r.token.value), detector, observation)).status == Failed
  {
  }
}
