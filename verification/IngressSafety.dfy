/** What holds of Runs, ledger and reads in every reachable state. Nothing is assumed of the
    database but its row locks and the pull request's advisory lock: no unique index. */
module IngressSafety {
  import opened Basics
  import opened RunRow
  import opened RunTable
  import opened Ingress

  // --- the invariant ---------------------------------------------------------------------

  /** The head the committed reads of a pull request put in force: that of the last review that
      found it open and ready, unless a later read found it closed or a draft. A delivery that
      asks for no review decides nothing of an open pull request. */
  function InForce(commits: seq<Commit>, at: Locator): Option<nat> {
    if commits == [] then None
    else
      var c := commits[|commits| - 1];
      if c.locator == at && !Reviewable(c.reading.pr) then None
      else if c.locator == at && c.review then Some(c.reading.pr.head)
      else InForce(commits[..|commits| - 1], at)
  }

  predicate AtHeadInForce(runs: Runs, commits: seq<Commit>) {
    forall id :: id in runs && IsLive(runs[id].status) ==> InForce(commits, runs[id].locator) == Some(runs[id].head)
  }

  predicate TableSound(s: State) { OneLive(s.runs) && OnePerHead(s.runs) && AtHeadInForce(s.runs, s.commits) }

  predicate Made(runs: Runs, d: Id) { exists id :: id in runs && runs[id].createdBy == d }

  predicate LedgerSound(s: State) {
    && s.ledger.Keys == s.deliveries.Keys
    && (forall d :: d in s.ledger ==> (s.ledger[d].state == IsDone <==> Made(s.runs, d)))
    && (forall a, b | a in s.runs && b in s.runs && s.runs[a].createdBy == s.runs[b].createdBy :: a == b)
    && (forall id :: id in s.runs ==> Acting(s, s.runs[id].createdBy) && s.runs[id].locator == LocatorOf(s, s.runs[id].createdBy))
  }

  /** Reads of one pull request take effect in the order they were made. */
  predicate InOrder(commits: seq<Commit>) {
    forall i, j | 0 <= i < j < |commits| && commits[i].locator == commits[j].locator
      :: commits[i].reading.at < commits[j].reading.at
  }

  predicate ReadBefore(commits: seq<Commit>, at: Locator, instant: nat) {
    forall i :: 0 <= i < |commits| && commits[i].locator == at ==> commits[i].reading.at < instant
  }

  predicate CommitsSound(s: State) {
    InOrder(s.commits) && forall i :: 0 <= i < |s.commits| ==> s.commits[i].reading.at <= s.instant
  }

  predicate SweptExactly(runs: Runs, at: Locator, proc: Processor)
    requires proc.reading.Some?
  {
    && proc.swept == Matched(runs, at, Spared(proc.reading.value.pr))
    && (proc.first == None <==> proc.swept == {})
    && (proc.first.Some? ==> proc.first.value in proc.swept)
  }

  predicate Untouched(proc: Processor) {
    proc.reading == None && proc.swept == {} && proc.first == None && !proc.decision.Created?
  }

  predicate ReviewUnderWay(runs: Runs, at: Locator, review: bool, proc: Processor) {
    && proc.reading.Some? && Reviewable(proc.reading.value.pr) && review && SweptExactly(runs, at, proc)
  }

  predicate DecisionSound(runs: Runs, at: Locator, review: bool, proc: Processor) {
    match proc.decision
    case Created(id, superseded) =>
      && ReviewUnderWay(runs, at, review, proc) && superseded == proc.first
      && id !in runs && !AtHead(runs, at, proc.reading.value.pr.head)
    case DuplicateHead(superseded) =>
      ReviewUnderWay(runs, at, review, proc) && superseded == proc.first && AtHead(runs, at, proc.reading.value.pr.head)
    case Ineligible(reason, cancelled) =>
      && proc.reading.Some? && !Reviewable(proc.reading.value.pr) && SweptExactly(runs, at, proc)
      && cancelled == proc.first && reason == ReasonFor(proc.reading.value.pr)
    case Unchanged =>
      && proc.reading.Some? && Reviewable(proc.reading.value.pr) && !review
      && proc.swept == {} && proc.first == None
    case _ => Untouched(proc)
  }

  predicate PhaseSound(runs: Runs, at: Locator, review: bool, proc: Processor) {
    match proc.phase
    case Knowing =>
      && proc.reading.Some? && proc.swept == {} && proc.first == None && !proc.decision.Created?
      && (Reviewable(proc.reading.value.pr) ==> review)
    case Swept => ReviewUnderWay(runs, at, review, proc) && !proc.decision.Created?
    case Decided => DecisionSound(runs, at, review, proc)
    case Finished => true
    case _ => Untouched(proc)
  }

  /** Past the ledger check a processor goes on only over a delivery still open. */
  predicate Working(proc: Processor) {
    Locking(proc) && proc.phase != Holding && !(proc.phase == Decided && proc.decision == AlreadyConcluded)
  }

  predicate ProcSound(s: State, proc: Processor) {
    && Acting(s, proc.delivery) && proc.delivery in s.ledger
    && (Working(proc) ==> s.ledger[proc.delivery].state == IsReceived)
    && PhaseSound(s.runs, LocatorOf(s, proc.delivery), s.deliveries[proc.delivery].review, proc)
    && (Locking(proc) && proc.reading.Some? ==>
      && proc.reading.value.at <= s.instant
      && ReadBefore(s.commits, LocatorOf(s, proc.delivery), proc.reading.value.at))
  }

  predicate SameLock(s: State, d: Id, d': Id) { Acting(s, d) && Acting(s, d') && LockOf(s, d) == LockOf(s, d') }

  predicate Excluded(s: State) {
    forall p, q | p in s.processors && q in s.processors && Locking(s.processors[p]) && Locking(s.processors[q])
      && SameLock(s, s.processors[p].delivery, s.processors[q].delivery) :: p == q
  }

  predicate DistinctIds(s: State) {
    forall p, q | p in s.processors && q in s.processors && s.processors[p].decision.Created? && s.processors[q].decision.Created?
      && s.processors[p].decision.runId == s.processors[q].decision.runId :: p == q
  }

  ghost predicate Inv(s: State) {
    && TableSound(s) && LedgerSound(s) && CommitsSound(s) && Excluded(s) && DistinctIds(s)
    && forall p :: p in s.processors ==> ProcSound(s, s.processors[p])
  }

  // --- steps that move one processor --------------------------------------------------------

  lemma ProcOnly(s: State, s': State, proc: Processor)
    requires ProcSound(s, proc)
    requires s' == s.(processors := s'.processors)
    ensures ProcSound(s', proc)
  {
  }

  lemma ExcludedPut(s: State, p: Id, proc: Processor)
    requires Excluded(s) && Acting(s, proc.delivery)
    requires p in s.processors ==> proc.delivery == s.processors[p].delivery
    requires Locking(proc) ==> (p in s.processors && Locking(s.processors[p])) || !Taken(s, LockOf(s, proc.delivery))
    ensures Excluded(Put(s, p, proc))
  {
    var s' := Put(s, p, proc);
    forall q | q in s.processors && q != p && Locking(s.processors[q]) && Locking(proc)
      ensures !SameLock(s', proc.delivery, s.processors[q].delivery)
    {
      assert SameLock(s', proc.delivery, s.processors[q].delivery) ==> SameLock(s, proc.delivery, s.processors[q].delivery);
    }
    forall a, b | a in s'.processors && b in s'.processors && Locking(s'.processors[a]) && Locking(s'.processors[b])
      && SameLock(s', s'.processors[a].delivery, s'.processors[b].delivery)
      ensures a == b
    {
      assert SameLock(s, s'.processors[a].delivery, s'.processors[b].delivery);
    }
  }

  predicate OwnId(s: State, p: Id, proc: Processor) {
    proc.decision.Created? ==>
      forall q :: q in s.processors && q != p && s.processors[q].decision.Created? ==> s.processors[q].decision.runId != proc.decision.runId
  }

  /** A processor going on to where it is sound, by itself where it takes the lock. */
  lemma PutKeeps(s: State, p: Id, proc: Processor)
    requires Inv(s) && ProcSound(s, proc) && OwnId(s, p, proc)
    requires p in s.processors ==> proc.delivery == s.processors[p].delivery
    requires Locking(proc) ==> (p in s.processors && Locking(s.processors[p])) || !Taken(s, LockOf(s, proc.delivery))
    ensures Inv(Put(s, p, proc))
  {
    var s' := Put(s, p, proc);
    ExcludedPut(s, p, proc);
    forall q | q in s'.processors ensures ProcSound(s', s'.processors[q]) {
      ProcOnly(s, s', s'.processors[q]);
    }
  }

  lemma BeginKeeps(s: State, p: Id, d: Id)
    requires Inv(s)
    ensures Inv(Apply(s, Begin(p, d)))
  {
    if p !in s.processors && d in s.ledger && Acting(s, d) {
      PutKeeps(s, p, Processor(d, Begun, None, {}, None, Unchanged, None));
    }
  }

  lemma TryLockKeeps(s: State, p: Id)
    requires Inv(s) && AtPhase(s, p, Begun)
    ensures Inv(Apply(s, TryLock(p)))
  {
    var proc := s.processors[p];
    if Taken(s, LockOf(s, proc.delivery)) {
      PutKeeps(s, p, proc.(phase := Decided, decision := Contended));
    } else {
      PutKeeps(s, p, proc.(phase := Holding));
    }
  }

  lemma CheckKeeps(s: State, p: Id)
    requires Inv(s) && AtPhase(s, p, Holding)
    ensures Inv(Apply(s, Check(p)))
  {
    var proc := s.processors[p];
    if s.ledger[proc.delivery].state == IsReceived {
      PutKeeps(s, p, proc.(phase := Deciding));
    } else {
      PutKeeps(s, p, proc.(phase := Decided, decision := AlreadyConcluded));
    }
  }

  lemma SweptSound(s: State, p: Id, first: Option<Id>)
    requires AtPhase(s, p, Knowing) && ProcSound(s, s.processors[p])
    ensures ProcSound(s, Sweeping(s, p, first).processors[p])
  {
  }

  lemma SweepKeeps(s: State, p: Id, first: Option<Id>)
    requires Inv(s) && AtPhase(s, p, Knowing) && s.processors[p].reading.Some?
    ensures Inv(Sweeping(s, p, first))
  {
    SweptSound(s, p, first);
    if Sweeping(s, p, first) != s {
      PutKeeps(s, p, Sweeping(s, p, first).processors[p]);
    }
  }

  lemma ProbedSound(s: State, p: Id, unused: Id)
    requires AtPhase(s, p, Swept) && ProcSound(s, s.processors[p])
    ensures var proc := Probing(s, p, unused).processors[p];
      && ProcSound(s, proc) && Locking(proc) && proc.delivery == s.processors[p].delivery
      && Probing(s, p, unused) == Put(s, p, proc) && OwnId(s, p, proc)
  {
    var proc := Probing(s, p, unused).processors[p];
    assert Put(s, p, s.processors[p]).processors == s.processors;
  }

  lemma ProbeKeeps(s: State, p: Id, unused: Id)
    requires Inv(s) && AtPhase(s, p, Swept) && s.processors[p].reading.Some?
    ensures Inv(Probing(s, p, unused))
  {
    ProbedSound(s, p, unused);
    PutKeeps(s, p, Probing(s, p, unused).processors[p]);
  }

  lemma AbortKeeps(s: State, p: Id)
    requires Inv(s)
    ensures Inv(Apply(s, Abort(p)))
  {
    if p in s.processors && Open(s.processors[p]) {
      assert ProcSound(s, s.processors[p]);
      PutKeeps(s, p, Processor(s.processors[p].delivery, RolledBack, None, {}, None, Unchanged, None));
    }
  }

  // --- reading the pull request -------------------------------------------------------------

  /** Past its ending update, which locked the rows it wrote. */
  predicate HasSwept(proc: Processor) {
    || proc.phase == Swept
    || (proc.phase == Decided && (proc.decision.Created? || proc.decision.DuplicateHead? || proc.decision.Ineligible?))
  }

  /** What a processor has seen of the Runs still stands. */
  predicate SeenStands(runs: Runs, runs': Runs, at: Locator, proc: Processor) {
    proc.reading.Some? ==>
      && Matched(runs', at, Spared(proc.reading.value.pr)) == Matched(runs, at, Spared(proc.reading.value.pr))
      && (AtHead(runs', at, proc.reading.value.pr.head) <==> AtHead(runs, at, proc.reading.value.pr.head))
      && (proc.decision.Created? && proc.decision.runId !in runs ==> proc.decision.runId !in runs')
  }

  /** What a processor's soundness survives: anything that keeps its delivery open while it
      works, and what it has seen of its pull request while it holds the lock. */
  predicate Undisturbed(s: State, s': State, proc: Processor)
    requires Acting(s, proc.delivery) && Acting(s', proc.delivery) && proc.delivery in s.ledger
  {
    var at := LocatorOf(s, proc.delivery);
    && s'.deliveries[proc.delivery] == s.deliveries[proc.delivery] && proc.delivery in s'.ledger
    && s'.instant >= s.instant
    && (Locking(proc) ==>
      && (s.ledger[proc.delivery].state == IsReceived ==> s'.ledger[proc.delivery].state == IsReceived)
      && (forall i :: 0 <= i < |s'.commits| && s'.commits[i].locator == at ==> i < |s.commits| && s'.commits[i] == s.commits[i]))
    && (HasSwept(proc) ==> SeenStands(s.runs, s'.runs, at, proc))
  }

  lemma UndisturbedSound(s: State, s': State, proc: Processor)
    requires ProcSound(s, proc) && Acting(s', proc.delivery) && Undisturbed(s, s', proc)
    ensures ProcSound(s', proc)
  {
  }

  // --- steps that move the world ------------------------------------------------------------

  /** The processors stay where they are, and none is disturbed. */
  ghost predicate Beside(s: State, s': State) {
    && s'.processors == s.processors && s'.lockKey == s.lockKey
    && (forall d :: d in s.deliveries ==> d in s'.deliveries && s'.deliveries[d] == s.deliveries[d])
    && forall p :: p in s.processors && Acting(s, s.processors[p].delivery) && s.processors[p].delivery in s.ledger ==>
      Undisturbed(s, s', s.processors[p])
  }

  lemma BesideKeeps(s: State, s': State)
    requires Inv(s) && Beside(s, s')
    requires TableSound(s') && LedgerSound(s') && CommitsSound(s')
    ensures Inv(s')
  {
    forall p | p in s'.processors ensures ProcSound(s', s'.processors[p]) {
      UndisturbedSound(s, s', s.processors[p]);
    }
    forall p, q | p in s'.processors && q in s'.processors && Locking(s'.processors[p]) && Locking(s'.processors[q])
      && SameLock(s', s'.processors[p].delivery, s'.processors[q].delivery)
      ensures p == q
    {
      assert ProcSound(s, s.processors[p]) && ProcSound(s, s.processors[q]);
      assert SameLock(s, s.processors[p].delivery, s.processors[q].delivery);
    }
  }

  lemma RowAdded(s: State, d: Id, delivery: Delivery)
    requires LedgerSound(s) && d !in s.deliveries && d !in s.ledger
    ensures LedgerSound(s.(deliveries := s.deliveries[d := delivery], ledger := s.ledger[d := NEW_DELIVERY]))
  {
    var s' := s.(deliveries := s.deliveries[d := delivery], ledger := s.ledger[d := NEW_DELIVERY]);
    forall id | id in s.runs
      ensures s.runs[id].createdBy != d && Acting(s', s.runs[id].createdBy)
      ensures s.runs[id].locator == LocatorOf(s', s.runs[id].createdBy)
    {
      assert Acting(s, s.runs[id].createdBy);
    }
  }

  lemma AddRowKeeps(s: State, d: Id, delivery: Delivery)
    requires Inv(s) && d !in s.deliveries && d !in s.ledger
    ensures Inv(s.(deliveries := s.deliveries[d := delivery], ledger := s.ledger[d := NEW_DELIVERY]))
  {
    RowAdded(s, d, delivery);
    BesideKeeps(s, s.(deliveries := s.deliveries[d := delivery], ledger := s.ledger[d := NEW_DELIVERY]));
  }

  lemma DeliverKeeps(s: State, d: Id, envelope: Envelope)
    requires Inv(s)
    ensures Inv(Apply(s, Deliver(d, envelope)))
  {
    if d !in s.deliveries && d !in s.ledger {
      AddRowKeeps(s, d, Classify(envelope));
    }
  }

  lemma MoveKeeps(s: State, github: map<Locator, Canonical>)
    requires Inv(s)
    ensures Inv(s.(github := github))
  {
    BesideKeeps(s, s.(github := github));
  }

  /** A settlement that makes no Run and finds the row open or closed leaves it as true. */
  lemma SettledLedger(s: State, d: Id, o: Outcome)
    requires LedgerSound(s) && d in s.ledger && o != Done
    ensures LedgerSound(Settle(s, d, o))
  {
    var s' := Settle(s, d, o);
    assert s'.ledger[d].state == IsDone <==> s.ledger[d].state == IsDone;
  }

  lemma SettledBeside(s: State, d: Id, o: Outcome)
    requires d in s.ledger && (o.Discarded? ==> !Acting(s, d)) && o != Done
    ensures Beside(s, Settle(s, d, o))
  {
  }

  lemma SettleKeeps(s: State, d: Id, o: Outcome)
    requires Inv(s) && d in s.ledger && (o.Discarded? ==> !Acting(s, d)) && o != Done
    ensures Inv(Settle(s, d, o))
  {
    SettledLedger(s, d, o);
    SettledBeside(s, d, o);
    BesideKeeps(s, Settle(s, d, o));
  }

  /** A failed attempt is recorded over a row that stays open. */
  lemma FailureKeeps(s: State, p: Id, o: Outcome, settled: bool)
    requires Inv(s) && AtPhase(s, p, RolledBack) && o.Received?
    ensures Inv(Put(Settle(s, s.processors[p].delivery, o), p,
                    s.processors[p].(phase := Finished, report := Some(Report(Some(o), None, [], settled)))))
  {
    var proc := s.processors[p];
    SettleKeeps(s, proc.delivery, o);
    var s' := Settle(s, proc.delivery, o);
    assert ProcSound(s', proc);
    PutKeeps(s', p, proc.(phase := Finished, report := Some(Report(Some(o), None, [], settled))));
  }

  predicate Moved(runs: Runs, runs': Runs, id: Id, status: Status) {
    id in runs && IsLive(runs[id].status) && runs' == runs[id := runs[id].(status := status)]
  }

  lemma AdvancedTable(s: State, s': State, id: Id, status: Status)
    requires TableSound(s) && Moved(s.runs, s'.runs, id, status) && s' == s.(runs := s'.runs)
    ensures TableSound(s')
  {
  }

  lemma AdvancedLedger(s: State, s': State, id: Id, status: Status)
    requires LedgerSound(s) && Moved(s.runs, s'.runs, id, status) && s' == s.(runs := s'.runs)
    ensures LedgerSound(s')
  {
    forall d | d in s.ledger ensures Made(s.runs, d) <==> Made(s'.runs, d) {
      assert forall k :: k in s.runs ==> k in s'.runs && s'.runs[k].createdBy == s.runs[k].createdBy;
    }
    forall k | k in s'.runs
      ensures Acting(s', s'.runs[k].createdBy) && s'.runs[k].locator == LocatorOf(s', s'.runs[k].createdBy)
    {
      assert Acting(s, s.runs[k].createdBy);
    }
  }

  lemma AdvanceStands(runs: Runs, runs': Runs, id: Id, status: Status, at: Locator, proc: Processor)
    requires Moved(runs, runs', id, status) && id !in proc.swept && proc.reading.Some?
    requires proc.swept == Matched(runs, at, Spared(proc.reading.value.pr))
    ensures SeenStands(runs, runs', at, proc)
  {
    var pr := proc.reading.value.pr;
    forall k ensures k in Matched(runs', at, Spared(pr)) <==> k in Matched(runs, at, Spared(pr)) {
    }
    assert forall k :: k in runs ==> k in runs' && runs'[k].locator == runs[k].locator && runs'[k].head == runs[k].head;
  }

  lemma AdvanceUndisturbed(s: State, s': State, id: Id, status: Status, proc: Processor)
    requires ProcSound(s, proc) && Moved(s.runs, s'.runs, id, status) && s' == s.(runs := s'.runs)
    requires Locking(proc) ==> id !in proc.swept
    ensures Undisturbed(s, s', proc)
  {
    if HasSwept(proc) {
      AdvanceStands(s.runs, s'.runs, id, status, LocatorOf(s, proc.delivery), proc);
    }
  }

  /** A Run moving on, unless a transaction holds its row, disturbs no processor. */
  lemma AdvanceKeeps(s: State, s': State, id: Id, status: Status)
    requires Inv(s) && Moved(s.runs, s'.runs, id, status) && s' == s.(runs := s'.runs) && !RowLocked(s, id)
    ensures Inv(s')
  {
    AdvancedTable(s, s', id, status);
    AdvancedLedger(s, s', id, status);
    forall p | p in s.processors ensures Undisturbed(s, s', s.processors[p]) {
      AdvanceUndisturbed(s, s', id, status, s.processors[p]);
    }
    BesideKeeps(s, s');
  }

  // --- the read --------------------------------------------------------------------------

  lemma TimeKeeps(s: State)
    requires Inv(s)
    ensures Inv(s.(instant := s.instant + 1))
  {
    BesideKeeps(s, s.(instant := s.instant + 1));
  }

  /** A read is newer than every committed read of the same pull request. */
  lemma ReadIsNewest(s: State, at: Locator)
    requires CommitsSound(s)
    ensures ReadBefore(s.commits, at, s.instant + 1)
  {
  }

  lemma FetchedSound(s: State, p: Id)
    requires AtPhase(s, p, Deciding) && ProcSound(s, s.processors[p]) && CommitsSound(s)
    requires LocatorOf(s, s.processors[p].delivery) in s.github
    ensures var proc := Fetching(s, p, Answered).processors[p];
      && Fetching(s, p, Answered) == Put(s.(instant := s.instant + 1), p, proc)
      && ProcSound(s.(instant := s.instant + 1), proc)
      && Locking(s.processors[p]) && proc.delivery == s.processors[p].delivery && !proc.decision.Created?
  {
    ReadIsNewest(s, LocatorOf(s, s.processors[p].delivery));
  }

  lemma FetchAnsweredKeeps(s: State, p: Id)
    requires Inv(s) && AtPhase(s, p, Deciding) && LocatorOf(s, s.processors[p].delivery) in s.github
    ensures Inv(Fetching(s, p, Answered))
  {
    TimeKeeps(s);
    FetchedSound(s, p);
    PutKeeps(s.(instant := s.instant + 1), p, Fetching(s, p, Answered).processors[p]);
  }

  lemma FetchRefusedKeeps(s: State, p: Id, decision: Decision)
    requires Inv(s) && AtPhase(s, p, Deciding)
    requires decision == GrantGone || decision == Transient || decision == OperatorAttention
    ensures Inv(Decide(s, p, decision))
  {
    assert ProcSound(s, s.processors[p]);
    PutKeeps(s, p, s.processors[p].(phase := Decided, decision := decision));
  }

  // --- the commit ------------------------------------------------------------------------

  lemma InForceAfter(commits: seq<Commit>, c: Commit, at: Locator)
    ensures InForce(commits + [c], at) ==
      if c.locator == at && !Reviewable(c.reading.pr) then None
      else if c.locator == at && c.review then Some(c.reading.pr.head)
      else InForce(commits, at)
  {
    assert (commits + [c])[..|commits|] == commits;
  }

  /** Ending the Runs an update matched leaves none of that pull request live but at the
      head it spared. */
  lemma EndedTable(runs: Runs, at: Locator, spared: Option<nat>, status: Status)
    requires OneLive(runs) && OnePerHead(runs) && !IsLive(status)
    ensures var runs' := WithStatus(runs, Matched(runs, at, spared), status);
      && OneLive(runs') && OnePerHead(runs') && runs'.Keys == runs.Keys
      && (forall id :: id in runs ==>
        runs'[id].locator == runs[id].locator && runs'[id].head == runs[id].head && runs'[id].createdBy == runs[id].createdBy)
      && (forall id :: id in runs && IsLive(runs'[id].status) ==>
        IsLive(runs[id].status) && (runs[id].locator == at ==> Some(runs[id].head) == spared))
  {
  }

  lemma InsertedTable(runs: Runs, id: Id, run: Run)
    requires OneLive(runs) && OnePerHead(runs) && id !in runs && !AtHead(runs, run.locator, run.head)
    requires forall k :: k in runs && IsLive(runs[k].status) && runs[k].locator == run.locator ==> runs[k].head == run.head
    ensures OneLive(runs[id := run]) && OnePerHead(runs[id := run])
  {
    assert forall k :: k in runs && runs[k].locator == run.locator ==> runs[k].head != run.head;
  }

  /** The table a decision leaves is sound, and its live Runs are at the head now in force. */
  lemma CommittedTable(runs: Runs, commits: seq<Commit>, at: Locator, review: bool, d: Id, proc: Processor)
    requires OneLive(runs) && OnePerHead(runs) && AtHeadInForce(runs, commits)
    requires proc.reading.Some? && DecisionSound(runs, at, review, proc)
    ensures var runs' := Committed(runs, at, d, proc);
      OneLive(runs') && OnePerHead(runs') && AtHeadInForce(runs', commits + [Commit(at, review, proc.reading.value)])
  {
    var pr := proc.reading.value.pr;
    var commits' := commits + [Commit(at, review, proc.reading.value)];
    forall k: Locator ensures InForce(commits', k) ==
      if k != at then InForce(commits, k)
      else if !Reviewable(pr) then None else if review then Some(pr.head) else InForce(commits, k)
    {
      InForceAfter(commits, Commit(at, review, proc.reading.value), k);
    }
    if proc.decision.Unchanged? {
      assert WithStatus(runs, {}, Ending(pr)) == runs;
    } else {
      EndedTable(runs, at, Spared(pr), Ending(pr));
      var ended := WithStatus(runs, proc.swept, Ending(pr));
      if proc.decision.Created? {
        assert !AtHead(ended, at, pr.head);
        InsertedTable(ended, proc.decision.runId, Run(at, pr.head, Queued, d));
      }
    }
  }

  /** Which deliveries have made a Run, after a commit. */
  lemma CommittedMade(runs: Runs, at: Locator, d: Id, proc: Processor, k: Id)
    requires proc.decision.Created? ==> proc.reading.Some? && proc.decision.runId !in runs
    ensures Made(Committed(runs, at, d, proc), k) <==> Made(runs, k) || (proc.decision.Created? && k == d)
  {
    var runs' := Committed(runs, at, d, proc);
    if Made(runs, k) {
      var id :| id in runs && runs[id].createdBy == k;
      assert runs'[id].createdBy == k;
    }
    if proc.decision.Created? {
      assert runs'[proc.decision.runId].createdBy == d;
    }
    if Made(runs', k) && !(proc.decision.Created? && k == d) {
      var id :| id in runs' && runs'[id].createdBy == k;
      assert runs[id].createdBy == k;
    }
  }

  /** A table as a commit changes it, as far as who made which Run: the same Runs by the
      same deliveries, and at most one more. */
  predicate Grown(runs: Runs, runs': Runs, at: Locator, d: Id, made: Option<Id>) {
    && (forall a :: a in runs ==> a in runs' && runs'[a].createdBy == runs[a].createdBy && runs'[a].locator == runs[a].locator)
    && (forall a :: a in runs' && a !in runs ==> made == Some(a) && runs'[a].createdBy == d && runs'[a].locator == at)
  }

  lemma CommittedGrows(runs: Runs, at: Locator, d: Id, proc: Processor)
    requires proc.decision.Created? ==> proc.reading.Some? && proc.decision.runId !in runs
    ensures Grown(runs, Committed(runs, at, d, proc), at, d, if proc.decision.Created? then Some(proc.decision.runId) else None)
  {
  }

  lemma GrownOnce(runs: Runs, runs': Runs, at: Locator, d: Id, made: Option<Id>)
    requires Grown(runs, runs', at, d, made) && !Made(runs, d)
    requires forall a, b | a in runs && b in runs && runs[a].createdBy == runs[b].createdBy :: a == b
    ensures forall a, b | a in runs' && b in runs' && runs'[a].createdBy == runs'[b].createdBy :: a == b
  {
    assert forall a :: a in runs ==> runs[a].createdBy != d;
  }

  lemma GrownActing(s: State, s': State, d: Id, made: Option<Id>)
    requires LedgerSound(s) && Acting(s, d) && s'.deliveries == s.deliveries
    requires Grown(s.runs, s'.runs, LocatorOf(s, d), d, made)
    ensures forall a :: a in s'.runs ==> Acting(s', s'.runs[a].createdBy) && s'.runs[a].locator == LocatorOf(s', s'.runs[a].createdBy)
  {
    forall a | a in s'.runs
      ensures Acting(s', s'.runs[a].createdBy) && s'.runs[a].locator == LocatorOf(s', s'.runs[a].createdBy)
    {
      assert a in s.runs ==> Acting(s, s.runs[a].createdBy);
    }
  }

  lemma CommittedDone(s: State, s': State, d: Id, proc: Processor)
    requires LedgerSound(s) && Acting(s, d) && d in s.ledger && s.ledger[d].state == IsReceived
    requires OutcomeFor(proc.decision).Some?
    requires proc.decision.Created? ==> proc.reading.Some? && proc.decision.runId !in s.runs
    requires s'.runs == Committed(s.runs, LocatorOf(s, d), d, proc)
    requires s'.ledger == Settle(s, d, OutcomeFor(proc.decision).value).ledger
    ensures forall k :: k in s'.ledger ==> (s'.ledger[k].state == IsDone <==> Made(s'.runs, k))
  {
    forall k | k in s'.ledger ensures s'.ledger[k].state == IsDone <==> Made(s'.runs, k) {
      CommittedMade(s.runs, LocatorOf(s, d), d, proc, k);
    }
  }

  lemma CommittedLedger(s: State, s': State, d: Id, proc: Processor)
    requires LedgerSound(s) && Acting(s, d) && d in s.ledger && proc.delivery == d
    requires s.ledger[d].state == IsReceived && OutcomeFor(proc.decision).Some?
    requires proc.decision.Created? ==> proc.reading.Some? && proc.decision.runId !in s.runs
    requires s'.deliveries == s.deliveries && s'.runs == Committed(s.runs, LocatorOf(s, d), d, proc)
    requires s'.ledger == Settle(s, d, OutcomeFor(proc.decision).value).ledger
    ensures LedgerSound(s')
  {
    var made := if proc.decision.Created? then Some(proc.decision.runId) else None;
    CommittedGrows(s.runs, LocatorOf(s, d), d, proc);
    CommittedDone(s, s', d, proc);
    GrownOnce(s.runs, s'.runs, LocatorOf(s, d), d, made);
    GrownActing(s, s', d, made);
  }

  predicate NoneElse(s: State, d: Id) {
    forall q :: q in s.processors && Locking(s.processors[q]) ==> !SameLock(s, d, s.processors[q].delivery)
  }

  /** A processor leaving its transaction: nobody else is in that critical section. */
  lemma FinishKeeps(s: State, p: Id, report: Option<Report>)
    requires Inv(s) && AtPhase(s, p, Decided)
    ensures var s1 := Put(s, p, s.processors[p].(phase := Finished, report := report));
      Inv(s1) && (Locking(s.processors[p]) ==> NoneElse(s1, s.processors[p].delivery))
  {
    var proc := s.processors[p];
    var next := proc.(phase := Finished, report := report);
    assert ProcSound(s, proc) && ProcSound(s, next);
    PutKeeps(s, p, next);
    var s1 := Put(s, p, next);
    if Locking(proc) {
      forall q | q in s1.processors && Locking(s1.processors[q]) ensures !SameLock(s1, proc.delivery, s1.processors[q].delivery) {
        assert SameLock(s1, proc.delivery, s1.processors[q].delivery) ==> SameLock(s, proc.delivery, s.processors[q].delivery);
      }
    }
  }

  /** What a commit does to one pull request leaves what is seen of another. */
  lemma ElsewhereStands(
      runs: Runs, at: Locator, review: bool, d: Id, proc: Processor, elsewhere: Locator, other: Processor)
    requires elsewhere != at && proc.reading.Some? && DecisionSound(runs, at, review, proc)
    requires proc.decision.Created? && other.decision.Created? ==> proc.decision.runId != other.decision.runId
    ensures SeenStands(runs, Committed(runs, at, d, proc), elsewhere, other)
  {
    var runs' := Committed(runs, at, d, proc);
    assert forall id :: id in proc.swept ==> id in runs && runs[id].locator == at;
    forall id | id in runs ensures id in runs' && (runs[id].locator == elsewhere ==> runs'[id] == runs[id])
      && runs'[id].locator == runs[id].locator
    {
    }
    forall id | id in runs' && runs'[id].locator == elsewhere ensures id in runs && runs'[id] == runs[id] {
    }
    if other.reading.Some? {
      var pr := other.reading.value.pr;
      forall id ensures id in Matched(runs', elsewhere, Spared(pr)) <==> id in Matched(runs, elsewhere, Spared(pr)) {
      }
      assert AtHead(runs', elsewhere, pr.head) <==> AtHead(runs, elsewhere, pr.head);
    }
  }

  /** The commit, over a state its own processor has already left. */
  predicate CommitOver(s: State, s': State, d: Id, proc: Processor)
    requires Acting(s, d) && d in s.ledger && proc.reading.Some? && OutcomeFor(proc.decision).Some?
  {
    && s'.deliveries == s.deliveries && s'.processors == s.processors && s'.instant == s.instant
    && s'.ledger == Settle(s, d, OutcomeFor(proc.decision).value).ledger
    && s'.runs == Committed(s.runs, LocatorOf(s, d), d, proc)
    && s'.commits == s.commits + [Commit(LocatorOf(s, d), s.deliveries[d].review, proc.reading.value)]
  }

  predicate Committable(s: State, d: Id, proc: Processor) {
    && Acting(s, d) && d in s.ledger && s.ledger[d].state == IsReceived && proc.delivery == d && NoneElse(s, d)
    && proc.reading.Some? && OutcomeFor(proc.decision).Some?
    && DecisionSound(s.runs, LocatorOf(s, d), s.deliveries[d].review, proc)
    && proc.reading.value.at <= s.instant && ReadBefore(s.commits, LocatorOf(s, d), proc.reading.value.at)
    && (proc.decision.Created? ==>
      forall q :: q in s.processors && Locking(s.processors[q]) && s.processors[q].decision.Created? ==>
        s.processors[q].decision.runId != proc.decision.runId)
  }

  lemma CommitUndisturbed(s: State, s': State, d: Id, proc: Processor, other: Processor)
    requires Committable(s, d, proc) && CommitOver(s, s', d, proc)
    requires Acting(s, other.delivery) && other.delivery in s.ledger
    requires Locking(other) ==> !SameLock(s, d, other.delivery)
    requires proc.decision.Created? && Locking(other) && other.decision.Created? ==> proc.decision.runId != other.decision.runId
    ensures Undisturbed(s, s', other)
  {
    if Locking(other) {
      ElsewhereStands(s.runs, LocatorOf(s, d), s.deliveries[d].review, d, proc, LocatorOf(s, other.delivery), other);
    }
  }

  lemma CommitBeside(s: State, s': State, d: Id, proc: Processor)
    requires Inv(s) && Committable(s, d, proc) && CommitOver(s, s', d, proc) && s'.lockKey == s.lockKey
    ensures Beside(s, s')
  {
    forall p | p in s.processors ensures Undisturbed(s, s', s.processors[p]) {
      assert ProcSound(s, s.processors[p]);
      CommitUndisturbed(s, s', d, proc, s.processors[p]);
    }
  }

  lemma CommitKeeps(s: State, s': State, d: Id, proc: Processor)
    requires Inv(s) && Committable(s, d, proc) && CommitOver(s, s', d, proc) && s'.lockKey == s.lockKey
    ensures Inv(s')
  {
    CommitBeside(s, s', d, proc);
    CommittedTable(s.runs, s.commits, LocatorOf(s, d), s.deliveries[d].review, d, proc);
    CommittedLedger(s, s', d, proc);
    BesideKeeps(s, s');
  }

  /** A decision that read nothing writes nothing but the ledger. */
  lemma SettleOwnKeeps(s: State, d: Id, o: Outcome)
    requires Inv(s) && d in s.ledger && o != Done && (o.Discarded? ==> Acting(s, d) && NoneElse(s, d))
    ensures Inv(Settle(s, d, o))
  {
    SettledLedger(s, d, o);
    forall p | p in s.processors ensures Undisturbed(s, Settle(s, d, o), s.processors[p]) {
      assert ProcSound(s, s.processors[p]);
      assert SameLock(s, s.processors[p].delivery, s.processors[p].delivery);
    }
    BesideKeeps(s, Settle(s, d, o));
  }

  lemma ConcludeReading(s: State, p: Id)
    requires Inv(s) && AtPhase(s, p, Decided) && s.processors[p].reading.Some?
    ensures Inv(Concluding(s, p))
  {
    var proc := s.processors[p];
    var s' := Concluding(s, p);
    var s1 := Put(s, p, s'.processors[p]);
    assert ProcSound(s, proc);
    FinishKeeps(s, p, s'.processors[p].report);
    assert Committable(s1, proc.delivery, proc);
    CommitKeeps(s1, s', proc.delivery, proc);
  }

  lemma ConcludeUnread(s: State, p: Id)
    requires Inv(s) && AtPhase(s, p, Decided) && s.processors[p].reading == None
    ensures Inv(Concluding(s, p))
  {
    var proc := s.processors[p];
    var s1 := Put(s, p, Concluding(s, p).processors[p]);
    assert ProcSound(s, proc);
    FinishKeeps(s, p, Concluding(s, p).processors[p].report);
    UnreadIsSettlement(s, p);
    if OutcomeFor(proc.decision).Some? {
      SettleOwnKeeps(s1, proc.delivery, OutcomeFor(proc.decision).value);
    }
  }

  lemma UnreadIsSettlement(s: State, p: Id)
    requires AtPhase(s, p, Decided) && s.processors[p].reading == None
    ensures var s', o := Concluding(s, p), OutcomeFor(s.processors[p].decision);
      var s1 := Put(s, p, s'.processors[p]);
      s' == if o.Some? then Settle(s1, s.processors[p].delivery, o.value) else s1
  {
  }

  // --- every run -------------------------------------------------------------------------

  lemma StepKeeps(s: State, step: Step)
    requires Inv(s)
    ensures Inv(Apply(s, step))
  {
    match step
    case Deliver(d, envelope) => DeliverKeeps(s, d, envelope);
    case SettleDirect(d) =>
      if d in s.ledger && d in s.deliveries && s.deliveries[d].Direct? {
        SettleKeeps(s, d, Discarded(s.deliveries[d].disposition));
      }
    case Move(at, pr) => MoveKeeps(s, s.github[at := pr]);
    case Advance(id, status) =>
      if id in s.runs && IsLive(s.runs[id].status) && !RowLocked(s, id) {
        AdvanceKeeps(s, Apply(s, step), id, status);
      }
    case _ => ProcessorStepKeeps(s, step);
  }

  lemma ProcessorStepKeeps(s: State, step: Step)
    requires Inv(s) && !(step.Deliver? || step.SettleDirect? || step.Move? || step.Advance?)
    ensures Inv(Apply(s, step))
  {
    match step
    case Begin(p, d) => BeginKeeps(s, p, d);
    case Abort(p) => AbortKeeps(s, p);
    case TryLock(p) =>
      if AtPhase(s, p, Begun) {
        TryLockKeeps(s, p);
      }
    case Check(p) =>
      if AtPhase(s, p, Holding) {
        CheckKeeps(s, p);
      }
    case SettleFailure(p, sqlState) =>
      if AtPhase(s, p, RolledBack) {
        FailureKeeps(s, p, OutcomeForFailure(sqlState), s.ledger[s.processors[p].delivery].state == IsReceived);
      }
    case _ => DecidingStepKeeps(s, step);
  }

  lemma DecidingStepKeeps(s: State, step: Step)
    requires Inv(s) && (step.Fetch? || step.Sweep? || step.Probe? || step.Conclude?)
    ensures Inv(Apply(s, step))
  {
    match step
    case Fetch(p, fetched) => FetchStepKeeps(s, p, fetched);
    case Sweep(p, first) => SweepStepKeeps(s, p, first);
    case Probe(p, unused) => ProbeStepKeeps(s, p, unused);
    case Conclude(p) => ConcludeStepKeeps(s, p);
  }

  lemma FetchStepKeeps(s: State, p: Id, fetched: Fetched)
    requires Inv(s)
    ensures Inv(Apply(s, Fetch(p, fetched)))
  {
    if AtPhase(s, p, Deciding) {
      FetchKeeps(s, p, fetched);
    }
  }

  lemma SweepStepKeeps(s: State, p: Id, first: Option<Id>)
    requires Inv(s)
    ensures Inv(Apply(s, Sweep(p, first)))
  {
    if AtPhase(s, p, Knowing) && s.processors[p].reading.Some? {
      SweepKeeps(s, p, first);
    }
  }

  lemma ProbeStepKeeps(s: State, p: Id, unused: Id)
    requires Inv(s)
    ensures Inv(Apply(s, Probe(p, unused)))
  {
    if AtPhase(s, p, Swept) && s.processors[p].reading.Some? {
      ProbeKeeps(s, p, unused);
    }
  }

  lemma ConcludeStepKeeps(s: State, p: Id)
    requires Inv(s)
    ensures Inv(Apply(s, Conclude(p)))
  {
    if AtPhase(s, p, Decided) {
      ConcludeKeeps(s, p);
    }
  }

  lemma ConcludeKeeps(s: State, p: Id)
    requires Inv(s) && AtPhase(s, p, Decided)
    ensures Inv(Concluding(s, p))
  {
    if s.processors[p].reading.Some? {
      ConcludeReading(s, p);
    } else {
      ConcludeUnread(s, p);
    }
  }

  lemma FetchKeeps(s: State, p: Id, fetched: Fetched)
    requires Inv(s) && AtPhase(s, p, Deciding)
    ensures Inv(Fetching(s, p, fetched))
  {
    if fetched == Answered && LocatorOf(s, s.processors[p].delivery) in s.github {
      FetchAnsweredKeeps(s, p);
    } else {
      FetchRefusedKeeps(s, p, match fetched case Gone => GrantGone case Faulted => Transient case _ => OperatorAttention);
    }
  }

  lemma {:induction false} RunKeeps(s: State, steps: seq<Step>)
    requires Inv(s)
    ensures Inv(ApplyAll(s, steps))
    decreases steps
  {
    if steps != [] {
      StepKeeps(s, steps[0]);
      RunKeeps(Apply(s, steps[0]), steps[1..]);
    }
  }

  ghost predicate Reachable(s: State) { exists lockKey, steps :: s == ApplyAll(Initial(lockKey), steps) }

  lemma ReachableSound(s: State)
    requires Reachable(s)
    ensures Inv(s)
  {
    var lockKey, steps :| s == ApplyAll(Initial(lockKey), steps);
    RunKeeps(Initial(lockKey), steps);
  }
}
