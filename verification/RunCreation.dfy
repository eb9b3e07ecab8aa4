/** The critical section as one transaction runs it, statement by statement, with the rest
    of the system moving between any two
    (packages/control-plane/src/github/run-creation.ts and processing.ts). */
module RunCreation {
  import opened Basics
  import opened RunRow
  import opened RunTable
  import opened Ingress
  import opened IngressSafety

  predicate TableHolds(runs: Runs) { OneLive(runs) && OnePerHead(runs) }

  /** What the others may do while this transaction holds its pull request's lock and the
      rows it has written: Runs of other pull requests come and go, live Runs move on, and
      nobody is given the id this transaction's insert will be. */
  predicate Permitted(runs: Runs, runs': Runs, at: Locator, ownId: Id, written: set<Id>) {
    && TableHolds(runs')
    && (forall id :: id in runs ==> id in runs' && runs'[id] == runs[id].(status := runs'[id].status))
    && (forall id :: id in runs && (id in written || !IsLive(runs[id].status)) ==> runs'[id] == runs[id])
    && (forall id :: id in runs' && id !in runs ==> runs'[id].locator != at && id != ownId)
  }

  /** The ids a decision says were ended, as their rows now read. */
  predicate Told(runs: Runs, ended: seq<EndedRun>) {
    forall e :: e in ended ==> e.runId in runs && runs[e.runId].status == e.status
  }

  function EndedIds(d: Decision): set<Id> { set e | e in EndedBy(d) :: e.runId }

  /** What a critical section leaves, whichever way it decided. */
  ghost predicate Decisive(tx: Transaction, d: Decision, pr: Canonical, review: bool)
    reads tx
  {
    && tx.Valid() && Told(tx.runs, EndedBy(d))
    && tx.written == EndedIds(d) + (if d.Created? then {d.runId} else {})
    && match d
      case Created(id, _) =>
        && review && Reviewable(pr) && id in tx.runs && tx.runs[id] == Run(tx.at, pr.head, Queued, tx.delivery)
        && forall k :: LiveHere(tx.runs, k, tx.at) ==> k == id
      case DuplicateHead(_) =>
        && review && Reviewable(pr) && AtHead(tx.runs, tx.at, pr.head)
        && forall k :: LiveHere(tx.runs, k, tx.at) ==> tx.runs[k].head == pr.head
      case Ineligible(reason, _) =>
        && !Reviewable(pr) && reason == ReasonFor(pr) && forall k :: !LiveHere(tx.runs, k, tx.at)
      case Unchanged => !review && Reviewable(pr)
      case _ => true
  }

  /** How this transaction's own view follows from what is committed beside it: the rows it
      ended, and the row it inserted. */
  predicate Overlaid(runs: Runs, theirs: Runs, swept: set<Id>, ending: Status, ownId: Id, written: set<Id>) {
    && ownId !in theirs && swept <= theirs.Keys && written <= swept + {ownId} && swept <= written
    && runs.Keys == theirs.Keys + written
    && forall id :: id in theirs ==> runs[id] == if id in swept then theirs[id].(status := ending) else theirs[id]
  }

  lemma NothingOverlaid(runs: Runs, theirs: Runs, swept: set<Id>, ending: Status, ownId: Id)
    requires Overlaid(runs, theirs, swept, ending, ownId, {})
    ensures runs == theirs && swept == {}
  {
  }

  lemma SweptOverlaid(runs: Runs, swept: set<Id>, ending: Status, ownId: Id)
    requires swept <= runs.Keys && ownId !in runs
    ensures Overlaid(WithStatus(runs, swept, ending), runs, swept, ending, ownId, swept)
  {
  }

  /** What has been ended beside a settled pull request stays all there was to end. */
  lemma StaysMatched(
    runs: Runs, theirs: Runs, runs': Runs, theirs': Runs, at: Locator, ownId: Id, spared: Option<nat>, swept: set<Id>,
    ending: Status)
    requires Overlaid(runs, theirs, swept, ending, ownId, swept) && Overlaid(runs', theirs', swept, ending, ownId, swept)
    requires Permitted(runs, runs', at, ownId, swept) && swept == Matched(theirs, at, spared)
    requires forall id :: id in swept ==> theirs'[id] == theirs[id]
    ensures swept == Matched(theirs', at, spared)
  {
    forall id ensures id in swept <==> id in Matched(theirs', at, spared) {
      if id in theirs' && id !in swept {
        assert runs'[id] == theirs'[id];
        assert id in runs ==> runs[id] == theirs[id];
      }
    }
  }

  /** The view of a transaction that has ended what it matched, as `Ingress` has it. */
  lemma OverlaidIsCommitted(runs: Runs, theirs: Runs, proc: Processor, at: Locator, d: Id, ownId: Id)
    requires proc.reading.Some?
    requires Overlaid(runs, theirs, proc.swept, Ending(proc.reading.value.pr), ownId,
                      if proc.decision.Created? then proc.swept + {ownId} else proc.swept)
    requires proc.decision.Created? ==> proc.decision.runId == ownId && runs[ownId] == Run(at, proc.reading.value.pr.head, Queued, d)
    ensures runs == Committed(theirs, at, d, proc)
  {
  }

  /** A decision that ended nothing and made nothing commits what was there. */
  lemma AsItWas(theirs: Runs, pr: Canonical)
    ensures WithStatus(theirs, {}, Ending(pr)) == theirs
  {
  }

  lemma SameAtHead(runs: Runs, theirs: Runs, swept: set<Id>, ending: Status, ownId: Id, at: Locator, head: nat)
    requires Overlaid(runs, theirs, swept, ending, ownId, swept)
    ensures AtHead(runs, at, head) <==> AtHead(theirs, at, head)
  {
    if AtHead(runs, at, head) {
      var id :| id in runs && runs[id].locator == at && runs[id].head == head;
      assert id in theirs && theirs[id].locator == at && theirs[id].head == head;
    }
    if AtHead(theirs, at, head) {
      var id :| id in theirs && theirs[id].locator == at && theirs[id].head == head;
      assert id in runs && runs[id].locator == at && runs[id].head == head;
    }
  }

  /** The decision's own processor, as the interleaving model has it at its commit. */
  function ProcessorOf(delivery: Id, swept: set<Id>, d: Decision, pr: Canonical, instant: nat): Processor {
    var read := d.Created? || d.DuplicateHead? || d.Ineligible? || d.Unchanged?;
    Processor(delivery, Decided, if read then Some(Reading(instant, pr)) else None, swept, FirstOf(d), d, None)
  }

  function FirstOf(d: Decision): Option<Id> {
    match d
    case Created(_, superseded) => superseded
    case DuplicateHead(superseded) => superseded
    case Ineligible(_, cancelled) => cancelled
    case _ => None
  }

  lemma EligibleSound(
    theirs: Runs, at: Locator, delivery: Id, swept: set<Id>, superseded: Option<Id>, pr: Canonical, ownId: Id)
    requires Reviewable(pr) && swept == Matched(theirs, at, Some(pr.head)) && ownId !in theirs
    requires swept == if superseded.Some? then {superseded.value} else {}
    ensures AtHead(theirs, at, pr.head) ==>
      DecisionSound(theirs, at, true, ProcessorOf(delivery, swept, DuplicateHead(superseded), pr, 0))
    ensures !AtHead(theirs, at, pr.head) ==>
      DecisionSound(theirs, at, true, ProcessorOf(delivery, swept, Created(ownId, superseded), pr, 0))
  {
  }

  /** What the transaction leaves is what `Ingress` commits for a decision it finds sound, over
      what is committed beside it. */
  ghost predicate Refines(tx: Transaction, d: Decision, pr: Canonical, review: bool)
    reads tx
  {
    var proc := ProcessorOf(tx.delivery, tx.swept, d, pr, 0);
    DecisionSound(tx.theirs, tx.at, review, proc) && tx.runs == Committed(tx.theirs, tx.at, tx.delivery, proc)
  }

  class Transaction {
    const at: Locator
    const delivery: Id
    const ownId: Id
    var runs: Runs
    var row: LedgerRow
    /** The Run rows this transaction has written, and so has locked. */
    var written: set<Id>
    /** What is committed, and so what anyone else sees; the Runs this transaction has ended,
        and the status it left them in. */
    ghost var theirs: Runs
    ghost var swept: set<Id>
    ghost var ending: Status

    constructor (at: Locator, delivery: Id, ownId: Id, runs: Runs, row: LedgerRow)
      ensures this.at == at && this.delivery == delivery && this.ownId == ownId
      ensures this.runs == runs && this.row == row && written == {} && theirs == runs && swept == {}
    {
      this.at, this.delivery, this.ownId, this.runs, this.row, written := at, delivery, ownId, runs, row, {};
      theirs, swept, ending := runs, {}, Superseded;
    }

    ghost predicate Valid()
      reads this
    {
      TableHolds(runs) && (ownId in runs ==> ownId in written) && Overlaid(runs, theirs, swept, ending, ownId, written)
    }

    method Others()
      requires Valid()
      modifies `runs, `theirs
      ensures Valid() && Permitted(old(runs), runs, at, ownId, written)
      ensures forall id :: id in old(theirs) && id in swept ==> id in theirs && theirs[id] == old(theirs)[id]
    {
      var next: Runs := *;
      if Permitted(runs, next, at, ownId, written) {
        theirs := map id | id in next && id !in written - swept :: if id in swept then theirs[id] else next[id];
        runs := next;
      }
    }

    /** Ends the live Runs of the pull request, save one at the spared head, and answers with
        the first of them, which is the only one. */
    method EndLiveRun(spared: Option<nat>, status: Status) returns (ended: Option<Id>)
      requires Valid() && written == {} && !IsLive(status)
      modifies `runs, `theirs, `written, `swept, `ending
      ensures Valid() && runs == WithStatus(old(runs), Matched(old(runs), at, spared), status)
      ensures theirs == old(theirs) && swept == Matched(theirs, at, spared) == written && ending == status
      ensures written == Matched(old(runs), at, spared) == (if ended.Some? then {ended.value} else {})
      ensures forall id :: LiveHere(runs, id, at) ==> Some(runs[id].head) == spared
      ensures ended.Some? ==> ended.value in runs && runs[ended.value].locator == at && runs[ended.value].status == status
    {
      var matched := Matched(runs, at, spared);
      ended := None;
      if matched != {} {
        var id :| id in matched;
        ended := Some(id);
      }
      EndedTable(runs, at, spared, status);
      NothingOverlaid(runs, theirs, swept, ending, ownId);
      SweptOverlaid(runs, matched, status, ownId);
      runs := WithStatus(runs, matched, status);
      written, swept, ending := matched, matched, status;
    }

    method InsertRun(head: nat) returns (id: Id)
      requires Valid() && ownId !in runs && !AtHead(runs, at, head)
      requires forall k :: LiveHere(runs, k, at) ==> runs[k].head == head
      modifies `runs, `written
      ensures Valid() && id == ownId && runs == old(runs)[id := Run(at, head, Queued, delivery)]
      ensures theirs == old(theirs) && swept == old(swept) && ending == old(ending)
      ensures written == old(written) + {id}
    {
      id := ownId;
      runs := runs[id := Run(at, head, Queued, delivery)];
      written := written + {id};
    }

    /** The ending update, and whatever comes after it before the next statement. */
    method EndThenWait(spared: Option<nat>, status: Status) returns (ended: Option<Id>)
      requires Valid() && written == {} && !IsLive(status)
      modifies `runs, `theirs, `written, `swept, `ending
      ensures Valid() && written == (if ended.Some? then {ended.value} else {}) && ownId !in runs
      ensures swept == Matched(theirs, at, spared) == written && ending == status
      ensures forall id :: LiveHere(runs, id, at) ==> Some(runs[id].head) == spared
      ensures ended.Some? ==> ended.value in runs && runs[ended.value].status == status
    {
      Others();
      ended := EndLiveRun(spared, status);
      ghost var runs0, theirs0 := runs, theirs;
      Others();
      StaysMatched(runs0, theirs0, runs, theirs, at, ownId, spared, swept, ending);
    }

    /** The Run a pull request lacks at the head it now has. */
    method CreateAt(pr: Canonical, superseded: Option<Id>) returns (decision: Decision)
      requires Valid() && ownId !in runs && !AtHead(runs, at, pr.head) && Reviewable(pr)
      requires forall k :: LiveHere(runs, k, at) ==> runs[k].head == pr.head
      requires written == swept == (if superseded.Some? then {superseded.value} else {}) && ending == Superseded
      requires superseded.Some? ==> superseded.value in runs && runs[superseded.value].status == Superseded
      requires DecisionSound(theirs, at, true, ProcessorOf(delivery, swept, Created(ownId, superseded), pr, 0))
      modifies `runs, `written
      ensures decision == Created(ownId, superseded)
      ensures Decisive(this, decision, pr, true) && Refines(this, decision, pr, true)
    {
      var id := InsertRun(pr.head);
      decision := Created(id, superseded);
      OverlaidIsCommitted(runs, theirs, ProcessorOf(delivery, swept, decision, pr, 0), at, delivery, ownId);
    }

    /** A pull request still open and ready. What is live elsewhere is superseded before the
        head is looked for, so nothing is left live at a head the pull request lost. */
    method DecideEligible(pr: Canonical) returns (decision: Decision)
      requires Valid() && written == {} && Reviewable(pr)
      modifies `runs, `theirs, `written, `swept, `ending
      ensures Decisive(this, decision, pr, true) && (decision.Created? || decision.DuplicateHead?)
      ensures Refines(this, decision, pr, true)
    {
      var superseded := EndThenWait(Some(pr.head), Superseded);
      SameAtHead(runs, theirs, swept, ending, ownId, at, pr.head);
      EligibleSound(theirs, at, delivery, swept, superseded, pr, ownId);
      if AtHead(runs, at, pr.head) {
        decision := DuplicateHead(superseded);
        OverlaidIsCommitted(runs, theirs, ProcessorOf(delivery, swept, decision, pr, 0), at, delivery, ownId);
      } else {
        decision := CreateAt(pr, superseded);
      }
    }

    /** A pull request that is closed or a draft, whatever the delivery asked: what is live is
        cancelled. */
    method DecideIneligible(pr: Canonical, review: bool) returns (decision: Decision)
      requires Valid() && written == {} && !Reviewable(pr)
      modifies `runs, `theirs, `written, `swept, `ending
      ensures Decisive(this, decision, pr, review) && decision.Ineligible?
      ensures Refines(this, decision, pr, review)
    {
      var cancelled := EndThenWait(None, Status.Cancelled);
      decision := Ineligible(ReasonFor(pr), cancelled);
      OverlaidIsCommitted(runs, theirs, ProcessorOf(delivery, swept, decision, pr, 0), at, delivery, ownId);
    }

    /** Settles one pull request. The lock, the answer to the fetch and what it found are
        the world's; the rest is decided here. */
    method SettlePullRequest(acquired: bool, review: bool, fetched: Fetched, pr: Canonical) returns (decision: Decision)
      requires Valid() && written == {}
      modifies `runs, `theirs, `written, `swept, `ending
      ensures Decisive(this, decision, pr, review) && Refines(this, decision, pr, review)
      ensures decision.Contended? <==> !acquired
      ensures decision.AlreadyConcluded? <==> acquired && row.state != IsReceived
      ensures acquired && row.state == IsReceived && fetched == Answered ==>
        decision.Created? || decision.DuplicateHead? || decision.Ineligible? || decision.Unchanged?
      ensures decision.Created? ==> row.state == IsReceived
      ensures OutcomeFor(decision).Some? && OutcomeFor(decision).value.Received? ==> EndedBy(decision) == []
    {
      NothingOverlaid(runs, theirs, swept, ending, ownId);
      AsItWas(theirs, pr);
      if !acquired {
        return Contended;
      }
      if row.state != IsReceived {
        return AlreadyConcluded;
      }
      match fetched
      case Gone => return GrantGone;
      case Faulted => return Transient;
      case Denied => return OperatorAttention;
      case Answered =>
        if !Reviewable(pr) {
          decision := DecideIneligible(pr, review);
          return;
        }
        if !review {
          return Unchanged;
        }
        decision := DecideEligible(pr);
    }

    /** Only a row still open takes a settlement. */
    method SettleDelivery(outcome: Outcome) returns (settled: bool)
      modifies `row
      ensures row == RunTable.Settled(old(row), outcome) && settled == (old(row).state == IsReceived)
    {
      settled := row.state == IsReceived;
      if settled {
        row := ColumnsFor(outcome, row.attempts + 1);
      }
    }

    /** One attempt at an acting delivery, decision and settlement in one transaction: the
        row is `done` exactly when this attempt made a Run or it was done before, and what
        is reported ended is what was ended. */
    method ProcessDelivery(acquired: bool, review: bool, fetched: Fetched, pr: Canonical)
      returns (report: Report, decision: Decision)
      requires Valid() && written == {}
      modifies `runs, `theirs, `row, `written, `swept, `ending
      ensures Decisive(this, decision, pr, review) && Refines(this, decision, pr, review)
      ensures row == (if OutcomeFor(decision).Some? then RunTable.Settled(old(row), OutcomeFor(decision).value) else old(row))
      ensures report == Report(OutcomeFor(decision), if decision.Created? then Some(decision.runId) else None,
                               EndedBy(decision), old(row).state == IsReceived)
      ensures row.state == IsDone <==> decision.Created? || old(row).state == IsDone
      ensures old(row).state != IsReceived ==> row == old(row) && written == {}
      ensures old(row).state == IsReceived ==> row.attempts == old(row).attempts + 1
    {
      decision := SettlePullRequest(acquired, review, fetched, pr);
      var made := OutcomeFor(decision);
      var settled := false;
      if made.Some? {
        settled := SettleDelivery(made.value);
      }
      report := Report(made, if decision.Created? then Some(decision.runId) else None, EndedBy(decision), settled);
    }
  }
}
