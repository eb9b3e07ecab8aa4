/** What the invariant says of runs, reads and deliveries, in every reachable state. */
module IngressPromises {
  import opened Basics
  import opened RunRow
  import opened RunTable
  import opened Ingress
  import opened IngressSafety

  /** The head found by the last committed review that found its pull request open and
      ready. */
  function LastReview(commits: seq<Commit>, at: Locator): Option<nat> {
    if commits == [] then None
    else
      var c := commits[|commits| - 1];
      if c.locator == at && c.review && Reviewable(c.reading.pr) then Some(c.reading.pr.head)
      else LastReview(commits[..|commits| - 1], at)
  }

  lemma {:induction false} InForceIsLastReview(commits: seq<Commit>, at: Locator)
    ensures InForce(commits, at).Some? ==> InForce(commits, at) == LastReview(commits, at)
  {
    if commits != [] {
      InForceIsLastReview(commits[..|commits| - 1], at);
    }
  }

  /** The read at `i` found its pull request closed or a draft, and no committed review has
      found it open and ready since. */
  predicate ClosedSince(commits: seq<Commit>, i: nat) {
    && i < |commits| && !Reviewable(commits[i].reading.pr)
    && forall j :: i < j < |commits| && commits[j].locator == commits[i].locator ==>
      !(commits[j].review && Reviewable(commits[j].reading.pr))
  }

  lemma {:induction false} NothingInForce(commits: seq<Commit>, i: nat)
    requires ClosedSince(commits, i)
    ensures InForce(commits, commits[i].locator) == None
  {
    if i < |commits| - 1 {
      NothingInForce(commits[..|commits| - 1], i);
    }
  }

  /** However processors interleave, retry and crash, and whenever the head moves: reads of
      one pull request take effect in the order they were made; every live Run sits at the
      head the last committed review that found its pull request open and ready found there;
      and once a committed read has found a pull request closed or a draft none of its Runs is
      live, until a review finds it open and ready again. */
  lemma ReadsTakeEffectInOrder(s: State)
    requires Reachable(s)
    ensures InOrder(s.commits)
    ensures forall id :: id in s.runs && IsLive(s.runs[id].status) ==>
      LastReview(s.commits, s.runs[id].locator) == Some(s.runs[id].head)
    ensures forall i: nat, id :: ClosedSince(s.commits, i) ==> !LiveHere(s.runs, id, s.commits[i].locator)
  {
    ReachableSound(s);
    forall id | id in s.runs && IsLive(s.runs[id].status)
      ensures LastReview(s.commits, s.runs[id].locator) == Some(s.runs[id].head)
    {
      InForceIsLastReview(s.commits, s.runs[id].locator);
    }
    forall i: nat, id | ClosedSince(s.commits, i) ensures !LiveHere(s.runs, id, s.commits[i].locator) {
      NothingInForce(s.commits, i);
    }
  }

  /** A commit never uses a read older than one already committed for its pull request. */
  lemma CommitsTheNewestRead(s: State, p: Id)
    requires Reachable(s) && AtPhase(s, p, Decided) && s.processors[p].reading.Some?
    ensures forall i :: 0 <= i < |s.commits| && s.commits[i].locator == LocatorOf(s, s.processors[p].delivery) ==>
      s.commits[i].reading.at < s.processors[p].reading.value.at
  {
    ReachableSound(s);
    assert ProcSound(s, s.processors[p]);
  }

  /** At most one live Run per pull request and one Run per head, by the lock and the order
      of the decision alone. */
  lemma OneRunWhereOneIsMeant(s: State)
    requires Reachable(s)
    ensures OneLive(s.runs) && OnePerHead(s.runs)
  {
    ReachableSound(s);
  }

  /** The Runs a step took out of life. */
  function TakenOut(before: Runs, after: Runs): set<Id> {
    set id | id in before && IsLive(before[id].status) && id in after && !IsLive(after[id].status)
  }

  function Reported(ended: seq<EndedRun>): set<Id> { set e | e in ended :: e.runId }

  lemma SweptIsFirst(runs: Runs, at: Locator, proc: Processor)
    requires OneLive(runs) && proc.reading.Some? && SweptExactly(runs, at, proc)
    ensures proc.swept == if proc.first.Some? then {proc.first.value} else {}
  {
  }

  /** What a delivery reports as ended is what its transaction ended, Run for Run, with the
      status it left them in. */
  lemma EndedRunsExactly(s: State, p: Id)
    requires Reachable(s) && AtPhase(s, p, Decided)
    ensures var s' := Apply(s, Conclude(p));
      && s'.processors[p].report.Some?
      && var ended := s'.processors[p].report.value.ended;
        && TakenOut(s.runs, s'.runs) == Reported(ended)
        && forall e :: e in ended ==> e.runId in s'.runs && s'.runs[e.runId].status == e.status
  {
    ReachableSound(s);
    var proc := s.processors[p];
    assert ProcSound(s, proc);
    if proc.reading.Some? && !proc.decision.Unchanged? {
      SweptIsFirst(s.runs, LocatorOf(s, proc.delivery), proc);
    }
    EndedByTable(s.runs, LocatorOf(s, proc.delivery), s.deliveries[proc.delivery].review, proc.delivery, proc);
  }

  lemma EndedByTable(runs: Runs, at: Locator, review: bool, d: Id, proc: Processor)
    requires DecisionSound(runs, at, review, proc)
    requires proc.swept == if proc.first.Some? then {proc.first.value} else {}
    ensures var runs' := Committed(runs, at, d, proc);
      && TakenOut(runs, runs') == Reported(EndedBy(proc.decision))
      && forall e :: e in EndedBy(proc.decision) ==> e.runId in runs' && runs'[e.runId].status == e.status
  {
    var runs' := Committed(runs, at, d, proc);
    var ended := EndedBy(proc.decision);
    assert ended == (if proc.reading.Some? && proc.first.Some? then [EndedRun(proc.first.value, Ending(proc.reading.value.pr))] else []);
    if proc.reading.Some? && proc.first.Some? {
      assert proc.first.value in proc.swept;
      assert ended[0] in ended;
    }
    forall id ensures id in TakenOut(runs, runs') <==> id in Reported(ended) {
    }
  }

  // --- one delivery, however often it is driven ------------------------------------------------

  /** A delivery creates at most one Run, and its row is `done` exactly when it has. */
  lemma DoneExactlyWhenMade(s: State, d: Id)
    requires Reachable(s) && d in s.ledger
    ensures s.ledger[d].state == IsDone <==> exists id :: id in s.runs && s.runs[id].createdBy == d
    ensures forall a, b | a in s.runs && b in s.runs && s.runs[a].createdBy == d && s.runs[b].createdBy == d :: a == b
  {
    ReachableSound(s);
    assert Made(s.runs, d) <==> exists id :: id in s.runs && s.runs[id].createdBy == d;
  }

  /** An attempt that creates a Run always settles its delivery in the same commit. */
  lemma CreatingSettles(s: State, p: Id)
    requires Reachable(s) && AtPhase(s, p, Decided) && s.processors[p].decision.Created?
    ensures var s' := Apply(s, Conclude(p)); var d, id := s.processors[p].delivery, s.processors[p].decision.runId;
      && s'.processors[p].report == Some(Report(Some(Done), Some(id), EndedBy(s.processors[p].decision), true))
      && s'.ledger[d].state == IsDone && s'.ledger[d].attempts == s.ledger[d].attempts + 1
      && id !in s.runs && id in s'.runs && s'.runs[id].createdBy == d && s'.runs[id].status == Queued
  {
    ReachableSound(s);
    assert ProcSound(s, s.processors[p]);
  }

  /** A concluded row never changes again, whatever is driven against it. */
  lemma ConcludedForGood(s: State, d: Id, step: Step)
    requires d in s.ledger && s.ledger[d].state != IsReceived
    ensures d in Apply(s, step).ledger && Apply(s, step).ledger[d] == s.ledger[d]
  {
  }

  lemma {:induction false} ConcludedForEver(s: State, d: Id, steps: seq<Step>)
    requires d in s.ledger && s.ledger[d].state != IsReceived
    ensures d in ApplyAll(s, steps).ledger && ApplyAll(s, steps).ledger[d] == s.ledger[d]
    decreases steps
  {
    if steps != [] {
      ConcludedForGood(s, d, steps[0]);
      ConcludedForEver(Apply(s, steps[0]), d, steps[1..]);
    }
  }

  /** Driven again once its delivery is concluded, an attempt reports neither a Run nor an
      ended Run. */
  lemma RedriveReportsNothing(s: State, p: Id)
    requires Reachable(s) && AtPhase(s, p, Decided) && s.ledger[s.processors[p].delivery].state != IsReceived
    ensures var report := Apply(s, Conclude(p)).processors[p].report;
      report.Some? && report.value.runId == None && report.value.ended == [] && !report.value.settled
  {
    ReachableSound(s);
    assert ProcSound(s, s.processors[p]);
  }

  // --- what an answer says ---------------------------------------------------------------

  /** The step that gives an attempt's answer: its commit, or the settlement of its failure. */
  predicate Answers(s: State, p: Id, step: Step) {
    (step == Conclude(p) && AtPhase(s, p, Decided)) || (step.SettleFailure? && step.p == p && AtPhase(s, p, RolledBack))
  }

  lemma DoneIsMade(s: State, d: Id)
    requires Inv(s) && d in s.ledger
    ensures s.ledger[d].state == IsDone <==> Made(s.runs, d)
  {
  }

  lemma DoneAfter(s: State, p: Id)
    requires Inv(s) && AtPhase(s, p, Decided)
    ensures ProcSound(s, s.processors[p])
    ensures var s', d := Concluding(s, p), s.processors[p].delivery; s'.ledger[d].state == IsDone <==> Made(s'.runs, d)
  {
    ConcludeKeeps(s, p);
    DoneIsMade(Concluding(s, p), s.processors[p].delivery);
  }

  lemma ConcludeReports(s: State, p: Id)
    requires AtPhase(s, p, Decided) && ProcSound(s, s.processors[p])
    ensures var s', proc := Concluding(s, p), s.processors[p]; var d := proc.delivery;
      && s'.processors[p].report.Some?
      && s'.processors[p].report.value.runId == (if proc.decision.Created? then Some(proc.decision.runId) else None)
      && (proc.decision.Created? ==>
        && s.ledger[d].state == IsReceived && s'.ledger[d].state == IsDone
        && proc.decision.runId in s'.runs && s'.runs[proc.decision.runId].createdBy == d)
      && (!proc.decision.Created? ==> s'.ledger[d].state == IsDone ==> s.ledger[d].state == IsDone)
  {
  }

  lemma ConcludeNames(s: State, p: Id)
    requires Inv(s) && AtPhase(s, p, Decided)
    ensures var s' := Apply(s, Conclude(p)); var d := s.processors[p].delivery;
      && s'.processors[p].report.Some?
      && (s'.processors[p].report.value.runId.Some? <==> Made(s'.runs, d) && s.ledger[d].state == IsReceived)
      && forall id :: s'.processors[p].report.value.runId == Some(id) ==> id in s'.runs && s'.runs[id].createdBy == d
  {
    DoneAfter(s, p);
    ConcludeReports(s, p);
  }

  /** An attempt's answer names its delivery's Run exactly when there is one after it and the
      delivery was still open to it. So of all the attempts at a delivery one answer names the
      Run, that of the attempt that made it: when the platform loses that answer and runs the
      step again, the workflow is told of no Run and dispatches no lifecycle for the one there
      is. */
  lemma AnswerNamesTheRun(s: State, p: Id, step: Step)
    requires Reachable(s) && Answers(s, p, step)
    ensures var s' := Apply(s, step); var d := s.processors[p].delivery;
      && s'.processors[p].report.Some?
      && (s'.processors[p].report.value.runId.Some? <==> Made(s'.runs, d) && s.ledger[d].state == IsReceived)
      && forall id :: s'.processors[p].report.value.runId == Some(id) ==> id in s'.runs && s'.runs[id].createdBy == d
  {
    ReachableSound(s);
    if step.Conclude? {
      ConcludeNames(s, p);
    } else {
      var d := s.processors[p].delivery;
      DoneIsMade(s, d);
    }
  }

  // --- the answer that is lost ---------------------------------------------------------------

  lemma {:induction false} OneStepMore(s: State, steps: seq<Step>, step: Step)
    ensures ApplyAll(s, steps + [step]) == Apply(ApplyAll(s, steps), step)
    decreases steps
  {
    if steps == [] {
      assert [step][1..] == [];
    } else {
      assert (steps + [step])[1..] == steps[1..] + [step];
      OneStepMore(Apply(s, steps[0]), steps[1..], step);
    }
  }

  lemma {:induction false} TwoParts(s: State, a: seq<Step>, b: seq<Step>)
    ensures ApplyAll(s, a + b) == ApplyAll(ApplyAll(s, a), b)
    decreases a
  {
    if a == [] {
      assert a + b == b;
    } else {
      assert (a + b)[1..] == a[1..] + b;
      TwoParts(Apply(s, a[0]), a[1..], b);
    }
  }

  /** A review of an open pull request, delivered and not yet driven. */
  predicate Waiting(s: State, d: Id, at: Locator, pr: Canonical) {
    && s.deliveries == map[d := Acts(true, at)] && s.ledger == map[d := NEW_DELIVERY] && s.runs == map[]
    && s.processors == map[] && at in s.github && s.github[at] == pr && Reviewable(pr)
  }

  lemma Delivered(lockKey: (nat, nat) -> int, d: Id, at: Locator, pr: Canonical) returns (steps: seq<Step>)
    requires Reviewable(pr)
    ensures Waiting(ApplyAll(Initial(lockKey), steps), d, at, pr)
  {
    var envelope :=
      Envelope(at.owner, "pull_request", Some("opened"), Some(at.repository), Some(""), Some(at.pullRequest), Some(0));
    assert Classify(envelope) == Acts(true, at);
    var s0 := Initial(lockKey);
    OneStepMore(s0, [], Deliver(d, envelope));
    OneStepMore(s0, [] + [Deliver(d, envelope)], Move(at, pr));
    steps := [] + [Deliver(d, envelope)] + [Move(at, pr)];
  }

  /** Alone with its delivery and what it has read. */
  predicate Alone(s: State, d: Id, p: Id, at: Locator, pr: Canonical, phase: Phase) {
    && s.deliveries == map[d := Acts(true, at)] && s.ledger == map[d := NEW_DELIVERY] && s.runs == map[] && Reviewable(pr)
    && s.processors.Keys == {p} && s.processors[p].delivery == d && s.processors[p].phase == phase
    && s.processors[p].reading.Some? && s.processors[p].reading.value.pr == pr
    && (!s.processors[p].decision.Created? || phase == Decided) && s.processors[p].first == None
  }

  /** The first attempt under way, with nothing read yet. */
  predicate Entering(s: State, d: Id, p: Id, at: Locator, pr: Canonical, phase: Phase) {
    && s.deliveries == map[d := Acts(true, at)] && s.ledger == map[d := NEW_DELIVERY] && s.runs == map[]
    && at in s.github && s.github[at] == pr && Reviewable(pr)
    && s.processors == map[p := Processor(d, phase, None, {}, None, Unchanged, None)]
  }

  lemma EntersAlone(s: State, d: Id, p: Id, at: Locator, pr: Canonical)
    requires Waiting(s, d, at, pr)
    ensures Entering(Apply(s, Begin(p, d)), d, p, at, pr, Begun)
  {
  }

  lemma LocksAlone(s: State, d: Id, p: Id, at: Locator, pr: Canonical)
    requires Entering(s, d, p, at, pr, Begun)
    ensures Entering(Apply(s, TryLock(p)), d, p, at, pr, Holding)
  {
    assert !Taken(s, LockOf(s, d));
  }

  lemma FindsItOpen(s: State, d: Id, p: Id, at: Locator, pr: Canonical)
    requires Entering(s, d, p, at, pr, Holding)
    ensures Entering(Apply(s, Check(p)), d, p, at, pr, Deciding)
  {
  }

  lemma FetchesAlone(s: State, d: Id, p: Id, at: Locator, pr: Canonical)
    requires Entering(s, d, p, at, pr, Deciding)
    ensures Alone(Apply(s, Fetch(p, Answered)), d, p, at, pr, Knowing)
  {
  }

  lemma ReadsAlone(s: State, d: Id, p: Id, at: Locator, pr: Canonical) returns (steps: seq<Step>)
    requires Waiting(s, d, at, pr)
    ensures Alone(ApplyAll(s, steps), d, p, at, pr, Knowing)
  {
    var one := [] + [Begin(p, d)];
    OneStepMore(s, [], Begin(p, d));
    EntersAlone(s, d, p, at, pr);
    var two := one + [TryLock(p)];
    OneStepMore(s, one, TryLock(p));
    LocksAlone(ApplyAll(s, one), d, p, at, pr);
    var three := two + [Check(p)];
    OneStepMore(s, two, Check(p));
    FindsItOpen(ApplyAll(s, two), d, p, at, pr);
    steps := three + [Fetch(p, Answered)];
    OneStepMore(s, three, Fetch(p, Answered));
    FetchesAlone(ApplyAll(s, three), d, p, at, pr);
  }

  lemma SweepsNothing(s: State, d: Id, p: Id, at: Locator, pr: Canonical)
    requires Alone(s, d, p, at, pr, Knowing)
    ensures Alone(Apply(s, Sweep(p, None)), d, p, at, pr, Phase.Swept)
  {
    assert Matched(s.runs, at, Spared(pr)) == {};
  }

  lemma FindsNone(s: State, d: Id, p: Id, at: Locator, pr: Canonical, id: Id)
    requires Alone(s, d, p, at, pr, Phase.Swept)
    ensures var s' := Apply(s, Probe(p, id)); Alone(s', d, p, at, pr, Decided) && s'.processors[p].decision == Created(id, None)
  {
  }

  /** The Run is made, its delivery done, and the attempt that made it names it. */
  ghost predicate MadeAndNamed(s: State, d: Id, p: Id, at: Locator, id: Id) {
    && Acting(s, d) && LocatorOf(s, d) == at && d in s.ledger && s.ledger[d].state == IsDone
    && id in s.runs && s.runs[id].createdBy == d && s.runs[id].status == Queued
    && s.processors.Keys == {p} && s.processors[p].phase == Finished
    && s.processors[p].report.Some? && s.processors[p].report.value.runId == Some(id)
  }

  lemma Concludes(s: State, d: Id, p: Id, at: Locator, pr: Canonical, id: Id)
    requires Alone(s, d, p, at, pr, Decided) && s.processors[p].decision == Created(id, None)
    ensures MadeAndNamed(Apply(s, Conclude(p)), d, p, at, id)
  {
  }

  lemma MakesARun(lockKey: (nat, nat) -> int, d: Id, p: Id, at: Locator, pr: Canonical, id: Id) returns (steps: seq<Step>)
    requires Reviewable(pr)
    ensures MadeAndNamed(ApplyAll(Initial(lockKey), steps), d, p, at, id)
  {
    var s0 := Initial(lockKey);
    steps := Delivered(lockKey, d, at, pr);
    var s1 := ApplyAll(s0, steps);
    var reading := ReadsAlone(s1, d, p, at, pr);
    TwoParts(s0, steps, reading);
    steps := steps + reading;
    var s2 := ApplyAll(s0, steps);
    SweepsNothing(s2, d, p, at, pr);
    FindsNone(Apply(s2, Sweep(p, None)), d, p, at, pr, id);
    OneStepMore(s0, steps, Sweep(p, None));
    OneStepMore(s0, steps + [Sweep(p, None)], Probe(p, id));
    steps := steps + [Sweep(p, None)] + [Probe(p, id)];
    Concludes(ApplyAll(s0, steps), d, p, at, pr, id);
    OneStepMore(s0, steps, Conclude(p));
    steps := steps + [Conclude(p)];
  }

  /** The Run is there, and a second attempt is under way. */
  ghost predicate DrivenAgain(s: State, d: Id, p: Id, q: Id, at: Locator, id: Id, phase: Phase) {
    && Acting(s, d) && LocatorOf(s, d) == at && d in s.ledger && s.ledger[d].state == IsDone
    && id in s.runs && s.runs[id].createdBy == d && s.runs[id].status == Queued
    && s.processors.Keys == {p, q} && s.processors[p].phase == Finished && q != p
    && s.processors[q] == Processor(d, phase, None, {}, None, Unchanged, None)
  }

  lemma BeginsAgain(s: State, d: Id, p: Id, q: Id, at: Locator, id: Id)
    requires MadeAndNamed(s, d, p, at, id) && p != q
    ensures DrivenAgain(Apply(s, Begin(q, d)), d, p, q, at, id, Begun)
  {
  }

  lemma LocksAgain(s: State, d: Id, p: Id, q: Id, at: Locator, id: Id)
    requires DrivenAgain(s, d, p, q, at, id, Begun)
    ensures DrivenAgain(Apply(s, TryLock(q)), d, p, q, at, id, Holding)
  {
    assert !Taken(s, LockOf(s, d));
  }

  lemma FindsItDone(s: State, d: Id, p: Id, q: Id, at: Locator, id: Id)
    requires DrivenAgain(s, d, p, q, at, id, Holding)
    ensures var s' := Apply(Apply(s, Check(q)), Conclude(q));
      && id in s'.runs && s'.runs[id].createdBy == d && s'.runs[id].status == Queued && d in s'.ledger
      && s'.ledger[d].state == IsDone && q in s'.processors && s'.processors[q].delivery == d
      && s'.processors[q].report == Some(Report(None, None, [], false))
  {
    var s1 := Apply(s, Check(q));
    assert s1 == Decide(s, q, AlreadyConcluded);
  }

  /** From nothing on: a step that committed and whose answer was lost is run again as a
      second attempt, which answers nothing although the Run is there. */
  lemma LostAnswerNamesNothing(
    lockKey: (nat, nat) -> int, d: Id, p: Id, q: Id, at: Locator, pr: Canonical, id: Id) returns (steps: seq<Step>)
    requires Reviewable(pr) && p != q
    ensures var s := ApplyAll(Initial(lockKey), steps);
      && id in s.runs && s.runs[id].createdBy == d && s.runs[id].status == Queued && d in s.ledger && s.ledger[d].state == IsDone
      && q in s.processors && s.processors[q].delivery == d && s.processors[q].report == Some(Report(None, None, [], false))
  {
    var s0 := Initial(lockKey);
    steps := MakesARun(lockKey, d, p, at, pr, id);
    OneStepMore(s0, steps, Begin(q, d));
    BeginsAgain(ApplyAll(s0, steps), d, p, q, at, id);
    steps := steps + [Begin(q, d)];
    OneStepMore(s0, steps, TryLock(q));
    LocksAgain(ApplyAll(s0, steps), d, p, q, at, id);
    steps := steps + [TryLock(q)];
    FindsItDone(ApplyAll(s0, steps), d, p, q, at, id);
    OneStepMore(s0, steps, Check(q));
    OneStepMore(s0, steps + [Check(q)], Conclude(q));
    steps := steps + [Check(q)] + [Conclude(q)];
  }
}
