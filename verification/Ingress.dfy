/** Every interleaving of the processors of every delivery, with GitHub moving under them
    and Runs advancing beside them. A processor's statements are separate steps, each over
    what is committed; what it writes shows at its commit; the rows it has written are
    locked until then; and its lock on the pull request is released after it. */
module Ingress {
  import opened Basics
  import opened RunRow
  import opened RunTable

  datatype Reading = Reading(at: nat, pr: Canonical)

  datatype Phase = Begun | Holding | Deciding | Knowing | Swept | Decided | Finished | RolledBack

  datatype Report = Report(outcome: Option<Outcome>, runId: Option<Id>, ended: seq<EndedRun>, settled: bool)

  /** One attempt at a delivery. `swept` are the Runs its update ended, of which the code
      keeps the first returned. */
  datatype Processor = Processor(
    delivery: Id, phase: Phase, reading: Option<Reading>, swept: set<Id>, first: Option<Id>,
    decision: Decision, report: Option<Report>)

  /** A committed transaction that had read the pull request. */
  datatype Commit = Commit(locator: Locator, review: bool, reading: Reading)

  datatype State = State(
    lockKey: (nat, nat) -> int,
    deliveries: map<Id, Delivery>,
    ledger: map<Id, LedgerRow>,
    runs: Runs,
    processors: map<Id, Processor>,
    github: map<Locator, Canonical>,
    instant: nat,
    commits: seq<Commit>)

  datatype Fetched = Answered | Gone | Faulted | Denied

  datatype Step =
    | Deliver(d: Id, envelope: Envelope)
    | SettleDirect(d: Id)
    | Begin(p: Id, d: Id)
    | TryLock(p: Id)
    | Check(p: Id)
    | Fetch(p: Id, fetched: Fetched)
    | Sweep(p: Id, first: Option<Id>)
    | Probe(p: Id, unused: Id)
    | Conclude(p: Id)
    | Abort(p: Id)
    | SettleFailure(p: Id, sqlState: string)
    | Move(at: Locator, pr: Canonical)
    | Advance(id: Id, status: Status)

  // --- the steps -----------------------------------------------------------------------

  predicate Acting(s: State, d: Id) { d in s.deliveries && s.deliveries[d].Acts? }

  function LocatorOf(s: State, d: Id): Locator
    requires Acting(s, d)
  {
    s.deliveries[d].locator
  }

  function LockOf(s: State, d: Id): int
    requires Acting(s, d)
  {
    s.lockKey(s.deliveries[d].locator.repository, s.deliveries[d].locator.pullRequest)
  }

  /** Whether a processor's transaction holds its pull request's lock. */
  predicate Locking(proc: Processor) {
    || proc.phase == Holding || proc.phase == Deciding || proc.phase == Knowing || proc.phase == Swept
    || (proc.phase == Decided && proc.decision != Contended)
  }

  predicate Taken(s: State, key: int) {
    exists q :: q in s.processors && Locking(s.processors[q]) && Acting(s, s.processors[q].delivery)
      && LockOf(s, s.processors[q].delivery) == key
  }

  /** A Run whose row an open transaction has written. */
  predicate RowLocked(s: State, id: Id) {
    exists q :: q in s.processors && Locking(s.processors[q]) && id in s.processors[q].swept
  }

  /** A Run id no transaction has used. */
  predicate FreshId(s: State, id: Id) {
    id !in s.runs && forall q :: q in s.processors ==> !(s.processors[q].decision.Created? && s.processors[q].decision.runId == id)
  }

  function Put(s: State, p: Id, proc: Processor): State { s.(processors := s.processors[p := proc]) }

  function Settle(s: State, d: Id, o: Outcome): State
    requires d in s.ledger
  {
    s.(ledger := s.ledger[d := RunTable.Settled(s.ledger[d], o)])
  }

  predicate AtPhase(s: State, p: Id, phase: Phase) {
    p in s.processors && s.processors[p].phase == phase && Acting(s, s.processors[p].delivery)
      && s.processors[p].delivery in s.ledger
  }

  /** The Run table a commit leaves. */
  function Committed(runs: Runs, at: Locator, d: Id, proc: Processor): Runs {
    if proc.reading == None then runs
    else
      var pr := proc.reading.value.pr;
      var ended := WithStatus(runs, proc.swept, Ending(pr));
      if proc.decision.Created? then ended[proc.decision.runId := Run(at, pr.head, Queued, d)] else ended
  }

  function Concluding(s: State, p: Id): State
    requires AtPhase(s, p, Decided)
  {
    var proc := s.processors[p];
    var d := proc.delivery;
    var at := LocatorOf(s, d);
    var outcome := OutcomeFor(proc.decision);
    var settled := outcome.Some? && s.ledger[d].state == IsReceived;
    var report := Report(outcome, if proc.decision.Created? then Some(proc.decision.runId) else None,
                         EndedBy(proc.decision), settled);
    var s' := if outcome.Some? then Settle(s, d, outcome.value) else s;
    Put(s', p, proc.(phase := Finished, report := Some(report))).(
      runs := Committed(s.runs, at, d, proc),
      commits := s.commits + if proc.reading.Some? then [Commit(at, s.deliveries[d].review, proc.reading.value)] else [])
  }

  function Decide(s: State, p: Id, decision: Decision): State
    requires p in s.processors
  {
    Put(s, p, s.processors[p].(phase := Decided, decision := decision))
  }

  function Fetching(s: State, p: Id, fetched: Fetched): State
    requires AtPhase(s, p, Deciding)
  {
    var d := s.processors[p].delivery;
    match fetched
    case Gone => Decide(s, p, GrantGone)
    case Faulted => Decide(s, p, Transient)
    case Denied => Decide(s, p, OperatorAttention)
    case Answered =>
      if LocatorOf(s, d) !in s.github then Decide(s, p, OperatorAttention)
      else
        var pr := s.github[LocatorOf(s, d)];
        var read := s.processors[p].(phase := Knowing, reading := Some(Reading(s.instant + 1, pr)));
        Put(s.(instant := s.instant + 1), p,
            if Reviewable(pr) && !s.deliveries[d].review then read.(phase := Decided, decision := Unchanged) else read)
  }

  function Sweeping(s: State, p: Id, first: Option<Id>): State
    requires AtPhase(s, p, Knowing) && s.processors[p].reading.Some?
  {
    var proc := s.processors[p];
    var pr := proc.reading.value.pr;
    var swept := Matched(s.runs, LocatorOf(s, proc.delivery), Spared(pr));
    if (if first.Some? then first.value !in swept else swept != {}) then s
    else
      var next := proc.(phase := Swept, swept := swept, first := first);
      Put(s, p, if Reviewable(pr) then next else next.(phase := Decided, decision := Ineligible(ReasonFor(pr), first)))
  }

  function Probing(s: State, p: Id, unused: Id): State
    requires AtPhase(s, p, Swept) && s.processors[p].reading.Some?
  {
    var proc := s.processors[p];
    if AtHead(s.runs, LocatorOf(s, proc.delivery), proc.reading.value.pr.head) then Decide(s, p, DuplicateHead(proc.first))
    else if FreshId(s, unused) then Decide(s, p, Created(unused, proc.first))
    else s
  }

  predicate Open(proc: Processor) { proc.phase != Finished && proc.phase != RolledBack }

  /** A step out of its place does nothing. */
  function Apply(s: State, step: Step): State {
    match step
    case Deliver(d, envelope) =>
      if d in s.deliveries || d in s.ledger then s
      else s.(deliveries := s.deliveries[d := Classify(envelope)], ledger := s.ledger[d := NEW_DELIVERY])
    case SettleDirect(d) =>
      if d in s.ledger && d in s.deliveries && s.deliveries[d].Direct? then Settle(s, d, Discarded(s.deliveries[d].disposition))
      else s
    case Begin(p, d) =>
      if p in s.processors || d !in s.ledger || !Acting(s, d) then s
      else Put(s, p, Processor(d, Begun, None, {}, None, Unchanged, None))
    case TryLock(p) =>
      if !AtPhase(s, p, Begun) then s
      else if Taken(s, LockOf(s, s.processors[p].delivery)) then Decide(s, p, Contended)
      else Put(s, p, s.processors[p].(phase := Holding))
    case Check(p) =>
      if !AtPhase(s, p, Holding) then s
      else if s.ledger[s.processors[p].delivery].state == IsReceived then Put(s, p, s.processors[p].(phase := Deciding))
      else Decide(s, p, AlreadyConcluded)
    case Fetch(p, fetched) => if AtPhase(s, p, Deciding) then Fetching(s, p, fetched) else s
    case Sweep(p, first) =>
      if AtPhase(s, p, Knowing) && s.processors[p].reading.Some? then Sweeping(s, p, first) else s
    case Probe(p, unused) =>
      if AtPhase(s, p, Swept) && s.processors[p].reading.Some? then Probing(s, p, unused) else s
    case Conclude(p) => if AtPhase(s, p, Decided) then Concluding(s, p) else s
    case Abort(p) =>
      if p in s.processors && Open(s.processors[p])
      then Put(s, p, Processor(s.processors[p].delivery, RolledBack, None, {}, None, Unchanged, None))
      else s
    case SettleFailure(p, sqlState) =>
      if !AtPhase(s, p, RolledBack) then s
      else
        var outcome := OutcomeForFailure(sqlState);
        var settled := s.ledger[s.processors[p].delivery].state == IsReceived;
        Put(Settle(s, s.processors[p].delivery, outcome), p,
            s.processors[p].(phase := Finished, report := Some(Report(Some(outcome), None, [], settled))))
    case Move(at, pr) => s.(github := s.github[at := pr])
    case Advance(id, status) =>
      if id in s.runs && IsLive(s.runs[id].status) && !RowLocked(s, id) then s.(runs := s.runs[id := s.runs[id].(status := status)])
      else s
  }

  function Initial(lockKey: (nat, nat) -> int): State { State(lockKey, map[], map[], map[], map[], map[], 0, []) }

  function ApplyAll(s: State, steps: seq<Step>): State
    decreases steps
  {
    if steps == [] then s else ApplyAll(Apply(s, steps[0]), steps[1..])
  }
}
