/** Runs and ledger rows as the ingress statements see them, and what a decision about a
    pull request means for both (packages/control-plane/src/github/run-creation.ts,
    processing.ts, ledger.ts and trigger.ts). */
module RunTable {
  import opened Basics
  import opened RunRow

  // --- deliveries ------------------------------------------------------------------------

  datatype Intent = Review | CancelIntent | InertIntent

  /** What an action asks for. `None` is an event without an action. */
  function IntentOf(event: string, action: Option<string>): Intent {
    if event != "pull_request" || action == None then InertIntent
    else if action.value in ["opened", "synchronize", "reopened", "ready_for_review"] then Review
    else if action.value in ["closed", "converted_to_draft"] then CancelIntent
    else InertIntent
  }

  datatype Locator = Locator(owner: nat, repository: nat, pullRequest: nat)

  datatype Envelope = Envelope(
    owner: nat, event: string, action: Option<string>,
    repository: Option<nat>, nameWithOwner: Option<string>, pullRequest: Option<nat>, installation: Option<nat>)

  datatype Located = Nowhere | Ungranted | Found(locator: Locator)

  function Locate(e: Envelope): Located {
    if e.repository == None || e.nameWithOwner == None || e.pullRequest == None then Nowhere
    else if e.installation == None then Ungranted
    else Found(Locator(e.owner, e.repository.value, e.pullRequest.value))
  }

  // --- decisions and outcomes ------------------------------------------------------------

  datatype Reason = PullRequestClosed | PullRequestDrafted

  datatype Decision =
    | Created(runId: Id, superseded: Option<Id>)
    | Ineligible(reason: Reason, cancelled: Option<Id>)
    | DuplicateHead(superseded: Option<Id>)
    | Unchanged
    | AlreadyConcluded
    | Contended
    | GrantGone
    | Transient
    | OperatorAttention

  datatype Disposition = InertDelivery | IneligibleState | DuplicateRun | UnchangedState | GrantIsGone

  datatype RetryClass = RetryContended | RetryTransient | NeedsOperator

  datatype Outcome = Done | Discarded(disposition: Disposition) | Received(retryClass: RetryClass)

  /** What a processor does with an envelope, read off the envelope alone: conclude it, or
      act on one pull request. */
  datatype Delivery = Direct(disposition: Disposition) | Acts(review: bool, locator: Locator)

  function Classify(e: Envelope): Delivery {
    var intent := IntentOf(e.event, e.action);
    if intent == InertIntent then Direct(InertDelivery)
    else match Locate(e)
      case Nowhere => Direct(InertDelivery)
      case Ungranted => Direct(GrantIsGone)
      case Found(locator) => Acts(intent == Review, locator)
  }

  function OutcomeFor(d: Decision): Option<Outcome> {
    match d
    case Created(_, _) => Some(Done)
    case AlreadyConcluded => None
    case Ineligible(_, _) => Some(Discarded(IneligibleState))
    case DuplicateHead(_) => Some(Discarded(DuplicateRun))
    case Unchanged => Some(Discarded(UnchangedState))
    case GrantGone => Some(Discarded(GrantIsGone))
    case Contended => Some(Received(RetryContended))
    case Transient => Some(Received(RetryTransient))
    case OperatorAttention => Some(Received(NeedsOperator))
  }

  /** SQLSTATEs that describe the attempt rather than the delivery. */
  function OutcomeForFailure(sqlState: string): Outcome {
    var class2 := if |sqlState| < 2 then sqlState else sqlState[..2];
    if sqlState in ["23505", "25P03"] || class2 in ["08", "40", "53", "57"] then Received(RetryTransient)
    else Received(NeedsOperator)
  }

  datatype EndedRun = EndedRun(runId: Id, status: Status)

  function EndedBy(d: Decision): seq<EndedRun> {
    match d
    case Created(_, Some(id)) => [EndedRun(id, Superseded)]
    case DuplicateHead(Some(id)) => [EndedRun(id, Superseded)]
    case Ineligible(_, Some(id)) => [EndedRun(id, Status.Cancelled)]
    case _ => []
  }

  // --- the ledger ------------------------------------------------------------------------

  datatype LedgerState = IsReceived | IsDone | IsDiscarded

  datatype LedgerRow = LedgerRow(
    state: LedgerState, disposition: Option<Disposition>, retryClass: Option<RetryClass>, attempts: nat)

  const NEW_DELIVERY: LedgerRow := LedgerRow(IsReceived, None, None, 0)

  /** The row an outcome leaves: every column is set, whatever it held before. */
  function ColumnsFor(o: Outcome, attempts: nat): LedgerRow {
    match o
    case Done => LedgerRow(IsDone, None, None, attempts)
    case Discarded(disposition) => LedgerRow(IsDiscarded, Some(disposition), None, attempts)
    case Received(retryClass) => LedgerRow(IsReceived, None, Some(retryClass), attempts)
  }

  /** One settlement: only a `received` row takes it, and every attempt it takes counts. */
  function Settled(row: LedgerRow, o: Outcome): LedgerRow {
    if row.state == IsReceived then ColumnsFor(o, row.attempts + 1) else row
  }

  // --- the runs --------------------------------------------------------------------------

  /** A Run as ingress sees it. `createdBy` is no column: it is the delivery whose
      transaction inserted the Run. */
  datatype Run = Run(locator: Locator, head: nat, status: Status, createdBy: Id)

  type Runs = map<Id, Run>

  predicate LiveHere(runs: Runs, id: Id, at: Locator) { id in runs && runs[id].locator == at && IsLive(runs[id].status) }

  /** The Runs one ending update matches: the live ones, save any at the head it spares. */
  function Matched(runs: Runs, at: Locator, spared: Option<nat>): set<Id> {
    set id | id in runs && LiveHere(runs, id, at) && Some(runs[id].head) != spared
  }

  function WithStatus(runs: Runs, ids: set<Id>, status: Status): Runs {
    map id | id in runs :: if id in ids then runs[id].(status := status) else runs[id]
  }

  predicate AtHead(runs: Runs, at: Locator, head: nat) {
    exists id :: id in runs && runs[id].locator == at && runs[id].head == head
  }

  predicate OneLive(runs: Runs) {
    forall a, b | a in runs && b in runs && runs[a].locator == runs[b].locator && IsLive(runs[a].status) && IsLive(runs[b].status)
      :: a == b
  }

  predicate OnePerHead(runs: Runs) {
    forall a, b | a in runs && b in runs && runs[a].locator == runs[b].locator && runs[a].head == runs[b].head :: a == b
  }

  /** A pull request as GitHub gives it now. */
  datatype Canonical = Canonical(open: bool, draft: bool, head: nat)

  predicate Reviewable(pr: Canonical) { pr.open && !pr.draft }

  function ReasonFor(pr: Canonical): Reason { if pr.open then PullRequestDrafted else PullRequestClosed }

  /** The head an ending spares, and the status it leaves. */
  function Spared(pr: Canonical): Option<nat> { if Reviewable(pr) then Some(pr.head) else None }

  function Ending(pr: Canonical): Status { if Reviewable(pr) then Superseded else Status.Cancelled }
}
