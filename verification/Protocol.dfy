/** One Run and everything that touches it: dispatchers that start a lifecycle and then
    record it, lifecycles, hosted dispatch, Acceptance, detectors and ingress, each step
    its own transaction, any of them crashing or run again
    (packages/control-plane-workflow/src/ingress.ts and lifecycle.ts,
    packages/worker-hosted/src/dispatch.ts). */
module Protocol {
  import opened Basics
  import opened RunRow
  import opened Lifecycle
  import opened Dispatch

  // --- the state -----------------------------------------------------------------------

  datatype Schedule =
    /** In the loop, between reads or acting on one. */
    | Looping(seen: Option<Woken>, wakes: nat)
    /** Its transition won, and the pass it read is next to be cancelled. */
    | Reclaiming(outcome: Outcome)
    | Returned(outcome: Outcome)
    /** Cancelled by the dispatcher that started it. */
    | Stopped

  datatype Dispatcher =
    | Started(lifecycle: Id)
    | Lost(lifecycle: Id)
    | Obliged(lifecycle: Id)
    | Concluded

  datatype Hosted =
    | Granted(token: Token)
    | PassStarted(token: Token, pass: Id)
    | Settled

  datatype State = State(
    row: Row,
    clock: int,
    schedules: map<Id, Schedule>,
    dispatchers: map<Id, Dispatcher>,
    hosted: map<Id, Hosted>,
    cancelledPasses: set<Id>,
    recordings: nat,
    endings: nat)

  datatype Step =
    | Tick(to: int)
    | DispatchStart(d: Id, l: Id)
    | DispatchRecord(d: Id)
    | DispatchRead(d: Id)
    | DispatchCancel(d: Id)
    | DispatchCrash(d: Id)
    | Wake(l: Id)
    | Rest(l: Id)
    | Return(l: Id)
    | Write(l: Id, observation: Observation, answered: bool)
    | Reclaim(l: Id)
    | HostedClaim(h: Id, liveness: int, minted: Token)
    | StartPass(h: Id, pass: Id)
    | HostedMark(h: Id)
    | HostedCrash(h: Id)
    | Submit(presented: Token, complete: bool, permitted: bool)
    | ReportLost(presented: Token, observation: Observation)
    | Superseding
    | Cancelling

  // --- the steps -----------------------------------------------------------------------

  /** A dispatcher that lost its record goes on to stop the lifecycle it started, unless
      the row turns out to name it. */
  function AfterLosing(mine: Id, recorded: Option<Id>): Dispatcher {
    if ConcludeDispatch(mine, recorded).cancelledLifecycle.Some? then Obliged(mine) else Concluded
  }

  /** One statement over the row, counted where it records or ends. */
  function Issue(s: State, statement: Statement): State {
    var row := After(s.row, statement);
    s.(row := row,
       recordings := s.recordings + if s.row.lifecycle != row.lifecycle then 1 else 0,
       endings := s.endings + if s.row.status != row.status && !IsLive(row.status) then 1 else 0)
  }

  function At(s: State, l: Id): Schedule { if l in s.schedules then s.schedules[l] else Stopped }

  function Put(s: State, l: Id, schedule: Schedule): State { s.(schedules := s.schedules[l := schedule]) }

  function DispatcherAt(s: State, d: Id): Dispatcher { if d in s.dispatchers then s.dispatchers[d] else Concluded }

  function PutDispatcher(s: State, d: Id, dispatcher: Dispatcher): State { s.(dispatchers := s.dispatchers[d := dispatcher]) }

  function HostedAt(s: State, h: Id): Hosted { if h in s.hosted then s.hosted[h] else Settled }

  /** The write a lifecycle makes on what it read, and how it goes on when the platform
      lets it know. A step that crashed after writing is run again on the same read. */
  function Acting(s: State, l: Id, seen: Woken, wakes: nat, observation: Observation, answered: bool): State {
    match Decide(l, seen, wakes)
    case RecordSelf =>
      var s' := Issue(s, RecordLifecycle(l));
      if answered then Put(s', l, Looping(None, wakes)) else s'
    case CloseUnclaimed =>
      var s' := Issue(s, ExpireUnclaimed(l));
      if !answered then s'
      else if Matches(s.row, ExpireUnclaimed(l)) then Put(s', l, Returned(ClosedUnclaimed))
      else Put(s', l, Looping(None, wakes))
    case CloseExecution =>
      var close := TerminateLost(Deadline(s.clock, l), HostedWatchdog, observation);
      var s' := Issue(s, close);
      if !answered then s'
      else if Matches(s.row, close) then
        var outcome := WorkerLost(s.row.status, observation, seen.pass);
        Put(s', l, if seen.pass.Some? then Reclaiming(outcome) else Returned(outcome))
      else Put(s', l, Looping(None, wakes))
    case _ => s
  }

  /** A step out of its place does nothing. */
  function Apply(s: State, step: Step): State {
    match step
    case Tick(to) => if to > s.clock then s.(clock := to) else s
    case DispatchStart(d, l) =>
      if d in s.dispatchers || l in s.schedules then s
      else PutDispatcher(Put(s, l, Looping(None, 0)), d, Started(l))
    case DispatchRecord(d) =>
      (match DispatcherAt(s, d)
       case Started(l) =>
         var s' := Issue(s, RecordLifecycle(l));
         PutDispatcher(s', d, if Matches(s.row, RecordLifecycle(l)) then Concluded else Lost(l))
       case _ => s)
    case DispatchRead(d) =>
      (match DispatcherAt(s, d)
       case Lost(l) => PutDispatcher(s, d, AfterLosing(l, s.row.lifecycle))
       case _ => s)
    case DispatchCancel(d) =>
      (match DispatcherAt(s, d)
       case Obliged(l) =>
         PutDispatcher(if At(s, l).Looping? || At(s, l).Reclaiming? then Put(s, l, Stopped) else s, d, Concluded)
       case _ => s)
    case DispatchCrash(d) => s.(dispatchers := s.dispatchers - {d})
    case Wake(l) =>
      (match At(s, l)
       case Looping(None, wakes) => Put(s, l, Looping(Some(View(s.row, s.clock)), wakes))
       case _ => s)
    case Rest(l) =>
      (match At(s, l)
       case Looping(Some(seen), wakes) =>
         (match Decide(l, seen, wakes)
          case SleepToward(_) => Put(s, l, Looping(None, wakes))
          case LeaveToRecord => Put(s, l, Looping(None, wakes + 1))
          case _ => s)
       case _ => s)
    case Return(l) =>
      (match At(s, l)
       case Looping(Some(seen), wakes) =>
         (match Decide(l, seen, wakes)
          case Orphan(recorded) => Put(s, l, Returned(Orphaned(recorded)))
          case End => Put(s, l, Returned(Ended(seen.status)))
          case NoWindow => Put(s, l, Returned(LeftClaimed(seen.status)))
          case _ => s)
       case _ => s)
    case Write(l, observation, answered) =>
      (match At(s, l)
       case Looping(Some(seen), wakes) => Acting(s, l, seen, wakes, observation, answered)
       case _ => s)
    case Reclaim(l) =>
      (match At(s, l)
       case Reclaiming(outcome) =>
         var pass := if outcome.WorkerLost? && outcome.cancelledPass.Some? then {outcome.cancelledPass.value} else {};
         Put(s, l, Returned(outcome)).(cancelledPasses := s.cancelledPasses + pass)
       case _ => s)
    case HostedClaim(h, liveness, minted) =>
      if h in s.hosted then s
      else
        var claim := ClaimRun(s.clock, liveness, minted);
        Issue(s, claim).(hosted := s.hosted[h := if Matches(s.row, claim) then Granted(minted) else Settled])
    case StartPass(h, pass) =>
      (match HostedAt(s, h)
       case Granted(token) => s.(hosted := s.hosted[h := PassStarted(token, pass)])
       case _ => s)
    case HostedMark(h) =>
      (match HostedAt(s, h)
       case PassStarted(token, pass) => Issue(s, MarkExecuting(token, pass)).(hosted := s.hosted[h := Settled])
       case _ => s)
    case HostedCrash(h) => s.(hosted := s.hosted[h := Settled])
    case Submit(presented, complete, permitted) => Issue(s, AcceptResult(s.clock, presented, complete, permitted))
    case ReportLost(presented, observation) => Issue(s, TerminateLost(Execution(presented), HostedPrompt, observation))
    case Superseding => Issue(s, Supersede)
    case Cancelling => Issue(s, Cancel)
  }

  function Initial(claimableUntil: int, clock: int): State {
    State(Inserted(claimableUntil), clock, map[], map[], map[], {}, 0, 0)
  }

  function ApplyAll(s: State, steps: seq<Step>): State
    decreases steps
  {
    if steps == [] then s else ApplyAll(Apply(s, steps[0]), steps[1..])
  }

  // --- the invariant ---------------------------------------------------------------------

  /** What a read still says of the Run, however long ago it was. */
  predicate StillTold(seen: Woken, r: Row, now: int) {
    && (seen.lifecycle.Some? ==> r.lifecycle == seen.lifecycle)
    && (seen.pass.Some? ==> r.pass == seen.pass)
    && Rank(r.status) <= Rank(seen.status)
    && (!IsLive(seen.status) ==> r.status == seen.status)
    && (IsLive(seen.status) ==> seen.window.Some?)
    && (seen.window.Some? && seen.window.value.passed ==> seen.window.value.deadlineAt <= now)
    && (seen.window.Some? ==> seen.window.value.deadlineAt == r.claimableUntil || Some(seen.window.value.deadlineAt) == r.expiresAt)
  }

  predicate NamesAnother(r: Row, l: Id) { r.lifecycle.Some? && r.lifecycle.value != l }

  predicate Sound(l: Id, schedule: Schedule, r: Row, now: int, cancelledPasses: set<Id>) {
    match schedule
    case Looping(seen, wakes) => wakes <= GRACE_WAKES && (seen.Some? ==> StillTold(seen.value, r, now))
    case Reclaiming(outcome) =>
      && outcome.WorkerLost? && outcome.cancelledPass.Some? && outcome.cancelledPass == r.pass
      && r.status == Failed && r.lifecycle == Some(l) && r.loss.Some? && r.loss.value.lostFrom == outcome.lostFrom
    case Returned(outcome) =>
      && (!IsLive(r.status) || NamesAnother(r, l))
      && !outcome.LeftClaimed?
      && (outcome.Orphaned? ==> NamesAnother(r, l))
      && (outcome.ClosedUnclaimed? ==> r.status == Unscheduled && r.lifecycle == Some(l))
      && (outcome.WorkerLost? ==>
        && r.status == Failed && r.lifecycle == Some(l)
        && r.loss.Some? && r.loss.value.lostFrom == outcome.lostFrom
        && (outcome.cancelledPass.Some? ==> outcome.cancelledPass == r.pass && r.pass.value in cancelledPasses))
    case Stopped => NamesAnother(r, l)
  }

  predicate Bound(dispatcher: Dispatcher, s: State) {
    match dispatcher
    case Started(l) => l in s.schedules
    case Lost(l) => l in s.schedules && s.row.lifecycle.Some?
    case Obliged(l) => l in s.schedules && NamesAnother(s.row, l)
    case Concluded => true
  }

  /** A lifecycle whose loss of the execution was written, and that has not yet let go. */
  predicate Owns(s: State, p: Id) {
    s.row.lifecycle.Some? && At(s, s.row.lifecycle.value).Returned? && At(s, s.row.lifecycle.value).outcome.WorkerLost?
    && At(s, s.row.lifecycle.value).outcome.cancelledPass == Some(p)
  }

  ghost predicate Inv(s: State) {
    && WellKept(s.row)
    && s.recordings == (if s.row.lifecycle.Some? then 1 else 0)
    && s.endings == (if IsLive(s.row.status) then 0 else 1)
    && (s.row.lifecycle.Some? ==> s.row.lifecycle.value in s.schedules)
    && (forall l :: l in s.schedules ==> Sound(l, s.schedules[l], s.row, s.clock, s.cancelledPasses))
    && (forall d :: d in s.dispatchers ==> Bound(s.dispatchers[d], s))
    && (forall p :: p in s.cancelledPasses ==> s.row.status == Failed && s.row.pass == Some(p) && Owns(s, p))
  }

  // --- it holds in every reachable state ----------------------------------------------------

  lemma StaysSound(l: Id, schedule: Schedule, r: Row, r': Row, now: int, now': int, passes: set<Id>, passes': set<Id>)
    requires Sound(l, schedule, r, now, passes) && WellKept(r) && WellKept(r')
    requires Later(r, r') && now <= now' && passes <= passes'
    ensures Sound(l, schedule, r', now', passes')
  {
  }

  /** A statement by anyone, over the row. */
  lemma IssueKeeps(s: State, statement: Statement)
    requires Inv(s) && (statement.RecordLifecycle? ==> statement.id in s.schedules)
    ensures Inv(Issue(s, statement)) && Later(s.row, Issue(s, statement).row)
  {
    StatementKeeps(s.row, statement);
    var s' := Issue(s, statement);
    forall l | l in s'.schedules ensures Sound(l, s'.schedules[l], s'.row, s'.clock, s'.cancelledPasses) {
      StaysSound(l, s.schedules[l], s.row, s'.row, s.clock, s.clock, s.cancelledPasses, s.cancelledPasses);
    }
  }

  /** A schedule going on to where it is sound, its cancellations with it. */
  lemma PutKeeps(s: State, l: Id, schedule: Schedule)
    requires Inv(s) && Sound(l, schedule, s.row, s.clock, s.cancelledPasses)
    requires s.cancelledPasses == {} || At(s, l) == schedule || s.row.lifecycle != Some(l)
    ensures Inv(Put(s, l, schedule))
  {
  }

  lemma RecordSelfKeeps(s: State, l: Id, seen: Woken, wakes: nat, answered: bool)
    requires Inv(s) && l in s.schedules && s.schedules[l] == Looping(Some(seen), wakes)
    ensures var s' := Issue(s, RecordLifecycle(l)); Inv(if answered then Put(s', l, Looping(None, wakes)) else s')
  {
    IssueKeeps(s, RecordLifecycle(l));
    if answered {
      PutKeeps(Issue(s, RecordLifecycle(l)), l, Looping(None, wakes));
    }
  }

  lemma CloseUnclaimedKeeps(s: State, l: Id, seen: Woken, wakes: nat)
    requires Inv(s) && l in s.schedules && s.schedules[l] == Looping(Some(seen), wakes)
    ensures var next := if Matches(s.row, ExpireUnclaimed(l)) then Returned(ClosedUnclaimed) else Looping(None, wakes);
      Inv(Put(Issue(s, ExpireUnclaimed(l)), l, next))
  {
    var next := if Matches(s.row, ExpireUnclaimed(l)) then Returned(ClosedUnclaimed) else Looping(None, wakes);
    IssueKeeps(s, ExpireUnclaimed(l));
    PutKeeps(Issue(s, ExpireUnclaimed(l)), l, next);
  }

  lemma CloseExecutionKeeps(s: State, l: Id, seen: Woken, wakes: nat, observation: Observation)
    requires Inv(s) && l in s.schedules && s.schedules[l] == Looping(Some(seen), wakes)
    requires Matches(s.row, TerminateLost(Deadline(s.clock, l), HostedWatchdog, observation))
    ensures var outcome := WorkerLost(s.row.status, observation, seen.pass);
      Inv(Put(Issue(s, TerminateLost(Deadline(s.clock, l), HostedWatchdog, observation)), l,
              if seen.pass.Some? then Reclaiming(outcome) else Returned(outcome)))
  {
    var close := TerminateLost(Deadline(s.clock, l), HostedWatchdog, observation);
    var outcome := WorkerLost(s.row.status, observation, seen.pass);
    IssueKeeps(s, close);
    PutKeeps(Issue(s, close), l, if seen.pass.Some? then Reclaiming(outcome) else Returned(outcome));
  }

  /** A lifecycle's own move keeps the invariant. */
  lemma ActingKeeps(s: State, l: Id, seen: Woken, wakes: nat, observation: Observation, answered: bool)
    requires Inv(s) && l in s.schedules && s.schedules[l] == Looping(Some(seen), wakes)
    ensures Inv(Acting(s, l, seen, wakes, observation, answered))
  {
    match Decide(l, seen, wakes)
    case RecordSelf => RecordSelfKeeps(s, l, seen, wakes, answered);
    case CloseUnclaimed =>
      IssueKeeps(s, ExpireUnclaimed(l));
      CloseUnclaimedKeeps(s, l, seen, wakes);
    case CloseExecution =>
      var close := TerminateLost(Deadline(s.clock, l), HostedWatchdog, observation);
      IssueKeeps(s, close);
      if Matches(s.row, close) {
        CloseExecutionKeeps(s, l, seen, wakes, observation);
      } else {
        PutKeeps(Issue(s, close), l, Looping(None, wakes));
      }
    case _ =>
  }

  lemma ReclaimKeeps(s: State, l: Id)
    requires Inv(s) && l in s.schedules && s.schedules[l].Reclaiming?
    ensures Inv(Apply(s, Reclaim(l)))
  {
    var s' := Apply(s, Reclaim(l));
    forall k | k in s'.schedules ensures Sound(k, s'.schedules[k], s'.row, s'.clock, s'.cancelledPasses) {
      if k != l {
        StaysSound(k, s.schedules[k], s.row, s'.row, s.clock, s.clock, s.cancelledPasses, s'.cancelledPasses);
      }
    }
  }

  lemma RestKeeps(s: State, l: Id, seen: Woken, wakes: nat)
    requires Inv(s) && At(s, l) == Looping(Some(seen), wakes)
    ensures Inv(Apply(s, Rest(l)))
  {
    match Decide(l, seen, wakes)
    case SleepToward(_) => PutKeeps(s, l, Looping(None, wakes));
    case LeaveToRecord => PutKeeps(s, l, Looping(None, wakes + 1));
    case _ =>
  }

  lemma ReturnKeeps(s: State, l: Id, seen: Woken, wakes: nat)
    requires Inv(s) && At(s, l) == Looping(Some(seen), wakes)
    ensures Inv(Apply(s, Return(l)))
  {
    match Decide(l, seen, wakes)
    case Orphan(recorded) => PutKeeps(s, l, Returned(Orphaned(recorded)));
    case End => PutKeeps(s, l, Returned(Ended(seen.status)));
    case _ =>
  }

  lemma ScheduleStepKeeps(s: State, step: Step)
    requires Inv(s) && (step.Wake? || step.Rest? || step.Return? || step.Write? || step.Reclaim?)
    ensures Inv(Apply(s, step))
  {
    match At(s, step.l)
    case Looping(None, wakes) =>
      if step.Wake? {
        PutKeeps(s, step.l, Looping(Some(View(s.row, s.clock)), wakes));
      }
    case Looping(Some(seen), wakes) =>
      if step.Rest? {
        RestKeeps(s, step.l, seen, wakes);
      } else if step.Return? {
        ReturnKeeps(s, step.l, seen, wakes);
      } else if step.Write? {
        ActingKeeps(s, step.l, seen, wakes, step.observation, step.answered);
      }
    case Reclaiming(_) =>
      if step.Reclaim? {
        ReclaimKeeps(s, step.l);
      }
    case _ =>
  }

  /** Neither dispatchers nor hosted dispatch bear on the Run except by its statements. */
  lemma PutDispatcherKeeps(s: State, d: Id, dispatcher: Dispatcher)
    requires Inv(s) && Bound(dispatcher, s)
    ensures Inv(PutDispatcher(s, d, dispatcher))
  {
  }

  lemma HostedKeeps(s: State, hosted: map<Id, Hosted>)
    requires Inv(s)
    ensures Inv(s.(hosted := hosted))
  {
  }

  lemma StartKeeps(s: State, d: Id, l: Id)
    requires Inv(s) && l !in s.schedules
    ensures Inv(PutDispatcher(Put(s, l, Looping(None, 0)), d, Started(l)))
  {
    PutKeeps(s, l, Looping(None, 0));
    PutDispatcherKeeps(Put(s, l, Looping(None, 0)), d, Started(l));
  }

  lemma CrashKeeps(s: State, d: Id)
    requires Inv(s)
    ensures Inv(s.(dispatchers := s.dispatchers - {d}))
  {
    assert forall k :: k in s.dispatchers - {d} ==> k in s.dispatchers;
  }

  lemma StopKeeps(s: State, d: Id, l: Id)
    requires Inv(s) && Bound(Obliged(l), s)
    ensures Inv(PutDispatcher(if At(s, l).Looping? || At(s, l).Reclaiming? then Put(s, l, Stopped) else s, d, Concluded))
  {
    var s' := if At(s, l).Looping? || At(s, l).Reclaiming? then Put(s, l, Stopped) else s;
    if s' != s {
      PutKeeps(s, l, Stopped);
    }
    PutDispatcherKeeps(s', d, Concluded);
  }

  lemma DispatchStepKeeps(s: State, step: Step)
    requires Inv(s)
    requires step.DispatchStart? || step.DispatchRecord? || step.DispatchRead? || step.DispatchCancel? || step.DispatchCrash?
    ensures Inv(Apply(s, step))
  {
    match step
    case DispatchStart(d, l) =>
      if d !in s.dispatchers && l !in s.schedules {
        StartKeeps(s, d, l);
      }
    case DispatchRecord(d) =>
      if DispatcherAt(s, d).Started? {
        var l := DispatcherAt(s, d).lifecycle;
        IssueKeeps(s, RecordLifecycle(l));
        PutDispatcherKeeps(Issue(s, RecordLifecycle(l)), d, if Matches(s.row, RecordLifecycle(l)) then Concluded else Lost(l));
      }
    case DispatchRead(d) =>
      if DispatcherAt(s, d).Lost? {
        PutDispatcherKeeps(s, d, AfterLosing(DispatcherAt(s, d).lifecycle, s.row.lifecycle));
      }
    case DispatchCancel(d) =>
      if DispatcherAt(s, d).Obliged? {
        StopKeeps(s, d, DispatcherAt(s, d).lifecycle);
      }
    case DispatchCrash(d) => CrashKeeps(s, d);
  }

  lemma HostedStepKeeps(s: State, step: Step)
    requires Inv(s) && (step.HostedClaim? || step.StartPass? || step.HostedMark? || step.HostedCrash?)
    ensures Inv(Apply(s, step))
  {
    match step
    case HostedClaim(h, liveness, minted) =>
      var claim := ClaimRun(s.clock, liveness, minted);
      IssueKeeps(s, claim);
      HostedKeeps(Issue(s, claim), s.hosted[h := if Matches(s.row, claim) then Granted(minted) else Settled]);
    case StartPass(h, pass) =>
      if HostedAt(s, h).Granted? {
        HostedKeeps(s, s.hosted[h := PassStarted(HostedAt(s, h).token, pass)]);
      }
    case HostedMark(h) =>
      if HostedAt(s, h).PassStarted? {
        var mark := MarkExecuting(HostedAt(s, h).token, HostedAt(s, h).pass);
        IssueKeeps(s, mark);
        HostedKeeps(Issue(s, mark), s.hosted[h := Settled]);
      }
    case HostedCrash(h) => HostedKeeps(s, s.hosted[h := Settled]);
  }

  lemma StepKeeps(s: State, step: Step)
    requires Inv(s)
    ensures Inv(Apply(s, step))
  {
    if step.Tick? {
      TickKeeps(s, step.to);
    } else if step.HostedClaim? || step.StartPass? || step.HostedMark? || step.HostedCrash? {
      HostedStepKeeps(s, step);
    } else if step.Wake? || step.Rest? || step.Return? || step.Write? || step.Reclaim? {
      ScheduleStepKeeps(s, step);
    } else {
      match step
      case Submit(presented, complete, permitted) => IssueKeeps(s, AcceptResult(s.clock, presented, complete, permitted));
      case ReportLost(presented, observation) => IssueKeeps(s, TerminateLost(Execution(presented), HostedPrompt, observation));
      case Superseding => IssueKeeps(s, Supersede);
      case Cancelling => IssueKeeps(s, Cancel);
      case _ => DispatchStepKeeps(s, step);
    }
  }

  lemma TickKeeps(s: State, to: int)
    requires Inv(s)
    ensures Inv(Apply(s, Tick(to)))
  {
    if to <= s.clock {
      return;
    }
    forall l | l in s.schedules ensures Sound(l, s.schedules[l], s.row, to, s.cancelledPasses) {
      StaysSound(l, s.schedules[l], s.row, s.row, s.clock, to, s.cancelledPasses, s.cancelledPasses);
    }
  }

  lemma {:induction false} RunKeeps(s: State, steps: seq<Step>)
    requires Inv(s)
    ensures Inv(ApplyAll(s, steps))
    decreases steps
  {
    if steps != [] {
      StepKeeps(s, steps[0]);
      RunKeeps(Apply(s, steps[0]), steps[1..]);
    }
  }

  // --- what every run keeps ------------------------------------------------------------------

  /** In every reachable state, however dispatchers are retried or crash between starting
      and recording, and whichever lifecycles record themselves: the column has been
      written at most once, the Run has ended at most once, and a live Run that names a
      lifecycle names one still at work, neither returned nor cancelled. */
  lemma NamedIsAtWork(claimableUntil: int, clock: int, steps: seq<Step>)
    ensures var s := ApplyAll(Initial(claimableUntil, clock), steps);
      && s.recordings <= 1 && s.endings <= 1
      && (IsLive(s.row.status) <==> s.endings == 0)
      && (IsLive(s.row.status) && s.row.lifecycle.Some? ==> At(s, s.row.lifecycle.value).Looping?)
  {
    RunKeeps(Initial(claimableUntil, clock), steps);
  }

  /** A dispatcher cancels only a lifecycle the Run does not name, and a lifecycle cancels
      a pass only once the Run is lost, and only the pass the Run records. */
  lemma CancelledOnlyWhenSafe(claimableUntil: int, clock: int, steps: seq<Step>, l: Id, p: Id)
    ensures var s := ApplyAll(Initial(claimableUntil, clock), steps);
      && (l in s.schedules && s.schedules[l] == Stopped ==> s.row.lifecycle.Some? && s.row.lifecycle != Some(l))
      && (p in s.cancelledPasses ==> s.row.status == Failed && s.row.pass == Some(p) && s.row.acceptedAt == None)
  {
    RunKeeps(Initial(claimableUntil, clock), steps);
  }

  // --- the pass of a lost Run ----------------------------------------------------------------

  /** The write that loses this Run, made by `l` on what it read. */
  predicate Losing(s: State, l: Id, seen: Woken, wakes: nat, observation: Observation) {
    && At(s, l) == Looping(Some(seen), wakes) && Decide(l, seen, wakes) == CloseExecution
    && Matches(s.row, TerminateLost(Deadline(s.clock, l), HostedWatchdog, observation))
  }

  /** A lost Run with its pass, that `l` is to cancel or has cancelled. */
  predicate Promised(s: State, l: Id, p: Id) {
    && s.row.status == Failed && s.row.pass == Some(p) && s.row.lifecycle == Some(l) && l in s.schedules
    && match s.schedules[l]
       case Reclaiming(outcome) => outcome.WorkerLost? && outcome.cancelledPass == Some(p)
       case Returned(outcome) => p in s.cancelledPasses
       case _ => false
  }

  /** A lost Run with its pass, that nobody is to cancel. */
  ghost predicate Forgotten(s: State, p: Id) {
    && s.row.status == Failed && s.row.pass == Some(p) && p !in s.cancelledPasses
    && forall k :: k in s.schedules ==> !s.schedules[k].Reclaiming?
  }

  lemma IssueOverEnded(s: State, statement: Statement)
    requires WellKept(s.row) && s.row.status == Failed
    ensures var r := Issue(s, statement).row;
      r.status == Failed && r.pass == s.row.pass && (s.row.lifecycle.Some? ==> r.lifecycle == s.row.lifecycle)
  {
    StatementKeeps(s.row, statement);
  }

  lemma ActingOverEnded(s: State, l: Id, seen: Woken, wakes: nat, observation: Observation, answered: bool)
    requires Inv(s) && s.row.status == Failed && At(s, l) == Looping(Some(seen), wakes)
    ensures var s' := Acting(s, l, seen, wakes, observation, answered);
      && s'.row.status == Failed && s'.row.pass == s.row.pass && s'.cancelledPasses == s.cancelledPasses
      && (s.row.lifecycle.Some? ==> s'.row.lifecycle == s.row.lifecycle)
      && s'.schedules.Keys == s.schedules.Keys && (forall k :: k in s.schedules && k != l ==> s'.schedules[k] == s.schedules[k])
      && !At(s', l).Reclaiming?
  {
    IssueOverEnded(s, RecordLifecycle(l));
    IssueOverEnded(s, ExpireUnclaimed(l));
    IssueOverEnded(s, TerminateLost(Deadline(s.clock, l), HostedWatchdog, observation));
  }

  predicate OfSchedule(step: Step) {
    step.Wake? || step.Rest? || step.Return? || step.Write? || step.Reclaim? || step.DispatchStart? || step.DispatchCancel?
  }

  /** What anyone but a lifecycle or the dispatcher stopping one can do about a lost Run. */
  lemma OthersOverEnded(s: State, step: Step)
    requires Inv(s) && s.row.status == Failed && !OfSchedule(step)
    ensures var s' := Apply(s, step);
      && s'.row.status == Failed && s'.row.pass == s.row.pass && (s.row.lifecycle.Some? ==> s'.row.lifecycle == s.row.lifecycle)
      && s'.schedules == s.schedules && s'.cancelledPasses == s.cancelledPasses
  {
    match step
    case DispatchRecord(d) =>
      if DispatcherAt(s, d).Started? {
        IssueOverEnded(s, RecordLifecycle(DispatcherAt(s, d).lifecycle));
      }
    case HostedClaim(h, liveness, minted) => IssueOverEnded(s, ClaimRun(s.clock, liveness, minted));
    case HostedMark(h) =>
      if HostedAt(s, h).PassStarted? {
        IssueOverEnded(s, MarkExecuting(HostedAt(s, h).token, HostedAt(s, h).pass));
      }
    case Submit(presented, complete, permitted) => IssueOverEnded(s, AcceptResult(s.clock, presented, complete, permitted));
    case ReportLost(presented, observation) => IssueOverEnded(s, TerminateLost(Execution(presented), HostedPrompt, observation));
    case Superseding => IssueOverEnded(s, Supersede);
    case Cancelling => IssueOverEnded(s, Cancel);
    case _ =>
  }

  /** No step breaks the promise. */
  lemma PromiseKept(s: State, step: Step, l: Id, p: Id)
    requires Inv(s) && Promised(s, l, p)
    ensures Promised(Apply(s, step), l, p)
  {
    if !OfSchedule(step) {
      OthersOverEnded(s, step);
    } else if step.DispatchCancel? {
      assert DispatcherAt(s, step.d).Obliged? ==> Bound(s.dispatchers[step.d], s);
    } else if step.Write? {
      var at := At(s, step.l);
      if at.Looping? && at.seen.Some? {
        ActingOverEnded(s, step.l, at.seen.value, at.wakes, step.observation, step.answered);
      }
    }
  }

  /** No step makes one. */
  lemma StaysForgotten(s: State, step: Step, p: Id)
    requires Inv(s) && Forgotten(s, p)
    ensures Forgotten(Apply(s, step), p)
  {
    if !OfSchedule(step) {
      OthersOverEnded(s, step);
    } else if step.Write? {
      var at := At(s, step.l);
      if at.Looping? && at.seen.Some? {
        ActingOverEnded(s, step.l, at.seen.value, at.wakes, step.observation, step.answered);
      }
    }
  }

  lemma {:induction false} PromiseKeptAlong(s: State, steps: seq<Step>, l: Id, p: Id)
    requires Inv(s) && Promised(s, l, p)
    ensures Promised(ApplyAll(s, steps), l, p)
    decreases steps
  {
    if steps != [] {
      StepKeeps(s, steps[0]);
      PromiseKept(s, steps[0], l, p);
      PromiseKeptAlong(Apply(s, steps[0]), steps[1..], l, p);
    }
  }

  lemma {:induction false} ForgottenAlong(s: State, steps: seq<Step>, p: Id)
    requires Inv(s) && Forgotten(s, p)
    ensures Forgotten(ApplyAll(s, steps), p)
    decreases steps
  {
    if steps != [] {
      StepKeeps(s, steps[0]);
      StaysForgotten(s, steps[0], p);
      ForgottenAlong(Apply(s, steps[0]), steps[1..], p);
    }
  }

  /** What becomes of the pass a lost Run records is decided when its loss is written: it is
      cancelled, whatever happens afterwards, exactly when the lifecycle is told that its write
      won and had read that pass before it. Otherwise nothing that can happen afterwards
      cancels it: not the mark that came between the read and the write, and not the run of
      the step again, which finds the Run failed and returns. */
  lemma PassCancelledExactly(
    s: State, l: Id, seen: Woken, wakes: nat, observation: Observation, answered: bool, later: seq<Step>)
    requires Inv(s) && Losing(s, l, seen, wakes, observation) && s.row.pass.Some?
    ensures var p, t := s.row.pass.value, ApplyAll(Apply(s, Write(l, observation, answered)), later);
      && t.row.status == Failed && t.row.pass == Some(p)
      && (answered && seen.pass == s.row.pass ==>
           p in t.cancelledPasses || (At(t, l).Reclaiming? && p in Apply(t, Reclaim(l)).cancelledPasses))
      && (!(answered && seen.pass == s.row.pass) ==> p !in t.cancelledPasses)
  {
    var p := s.row.pass.value;
    var s' := Apply(s, Write(l, observation, answered));
    StepKeeps(s, Write(l, observation, answered));
    IssueKeeps(s, TerminateLost(Deadline(s.clock, l), HostedWatchdog, observation));
    assert forall k :: k in s.schedules ==> Sound(k, s.schedules[k], s.row, s.clock, s.cancelledPasses);
    assert s' == Acting(s, l, seen, wakes, observation, answered);
    if answered && seen.pass == s.row.pass {
      PromiseKeptAlong(s', later, l, p);
    } else {
      assert seen.pass.Some? ==> seen.pass == s.row.pass;
      ForgottenAlong(s', later, p);
    }
  }

  /** Of a lifecycle that knows it lost the Run, the outcome tells: the recorded pass is left
      running exactly where the Run was lost from `executing` and the outcome names no pass. */
  lemma OutcomeNamesThePass(claimableUntil: int, clock: int, steps: seq<Step>, l: Id)
    ensures var s := ApplyAll(Initial(claimableUntil, clock), steps);
      l in s.schedules && s.schedules[l].Returned? && s.schedules[l].outcome.WorkerLost? ==>
        var outcome := s.schedules[l].outcome;
        (s.row.pass.Some? && s.row.pass.value !in s.cancelledPasses)
          <==> outcome.lostFrom == Executing && outcome.cancelledPass == None
  {
    RunKeeps(Initial(claimableUntil, clock), steps);
  }

  lemma {:induction false} OneStepMore(s: State, steps: seq<Step>, step: Step)
    ensures ApplyAll(s, steps + [step]) == Apply(ApplyAll(s, steps), step)
    decreases steps
  {
    if steps == [] {
      assert [step][1..] == [];
    } else {
      assert (steps + [step])[1..] == steps[1..] + [step];
      OneStepMore(Apply(s, steps[0]), steps[1..], step);
    }
  }

  /** A Run claimed by a hosted dispatch that has started its pass and not yet marked it. */
  ghost predicate PassUnderWay(s: State, l: Id, h: Id, pass: Id, deadline: int) {
    && s.row.status == Claimed && s.row.lifecycle == Some(l) && s.row.acceptedAt == None && s.row.pass == None
    && s.row.expiresAt == Some(deadline) && s.row.token.Some? && s.cancelledPasses == {}
    && At(s, l) == Looping(None, 0) && HostedAt(s, h) == PassStarted(s.row.token.value, pass)
  }

  lemma ReachesPass() returns (steps: seq<Step>)
    ensures var s := ApplyAll(Initial(10, 0), steps); PassUnderWay(s, 1, 0, 9, 5) && s.clock == 0
  {
    var s0 := Initial(10, 0);
    var s1 := Apply(s0, DispatchStart(0, 1));
    var s2 := Apply(s1, DispatchRecord(0));
    var s3 := Apply(s2, HostedClaim(0, 5, 7));
    steps := [] + [DispatchStart(0, 1)];
    OneStepMore(s0, [], DispatchStart(0, 1));
    OneStepMore(s0, steps, DispatchRecord(0));
    steps := steps + [DispatchRecord(0)];
    OneStepMore(s0, steps, HostedClaim(0, 5, 7));
    steps := steps + [HostedClaim(0, 5, 7)];
    OneStepMore(s0, steps, StartPass(0, 9));
    steps := steps + [StartPass(0, 9)];
  }

  /** From a new Run on: a dispatch that marks its pass between the lifecycle's read and its
      write leaves a failed Run with a pass nobody will cancel. */
  lemma LateMarkOutlives() returns (steps: seq<Step>)
    ensures var s := ApplyAll(Initial(10, 0), steps);
      && s.row.status == Failed && s.row.pass == Some(9) && 9 !in s.cancelledPasses
      && At(s, 1) == Returned(WorkerLost(Executing, DeadlineElapsed, None))
  {
    var s0 := Initial(10, 0);
    steps := ReachesPass();
    OneStepMore(s0, steps, Tick(6));
    steps := steps + [Tick(6)];
    var s := ApplyAll(s0, steps);
    OneStepMore(s0, steps, Wake(1));
    steps := steps + [Wake(1)];
    OneStepMore(s0, steps, HostedMark(0));
    steps := steps + [HostedMark(0)];
    var marked := ApplyAll(s0, steps);
    assert At(marked, 1) == Looping(Some(View(s.row, 6)), 0);
    LosesMarked(marked, 1, View(s.row, 6), 0, DeadlineElapsed);
    OneStepMore(s0, steps, Write(1, DeadlineElapsed, true));
    steps := steps + [Write(1, DeadlineElapsed, true)];
  }

  lemma LosesMarked(s: State, l: Id, seen: Woken, wakes: nat, observation: Observation)
    requires At(s, l) == Looping(Some(seen), wakes) && Decide(l, seen, wakes) == CloseExecution
    requires s.row.status == Executing && s.row.acceptedAt == None && s.row.lifecycle == Some(l) && s.row.pass.Some?
    requires s.row.expiresAt.Some? && s.row.expiresAt.value <= s.clock
    ensures Losing(s, l, seen, wakes, observation)
    ensures var s' := Apply(s, Write(l, observation, true));
      && s'.row.status == Failed && s'.row.pass == s.row.pass && s'.cancelledPasses == s.cancelledPasses
      && (seen.pass == None ==> At(s', l) == Returned(WorkerLost(Executing, observation, None)))
    ensures var s' := Apply(s, Write(l, observation, false));
      && s'.row == Apply(s, Write(l, observation, true)).row && s'.clock == s.clock && s'.cancelledPasses == s.cancelledPasses
      && At(s', l) == At(s, l)
  {
  }

  lemma ReachesDeadline() returns (steps: seq<Step>, seen: Woken)
    ensures var s := ApplyAll(Initial(10, 0), steps);
      && At(s, 1) == Looping(Some(seen), 0) && Decide(1, seen, 0) == CloseExecution && seen.pass == Some(9)
      && s.row.status == Executing && s.row.acceptedAt == None && s.row.lifecycle == Some(1) && s.row.pass == Some(9)
      && s.row.expiresAt.Some? && s.row.expiresAt.value <= s.clock && s.cancelledPasses == {}
  {
    var s0 := Initial(10, 0);
    steps := ReachesPass();
    OneStepMore(s0, steps, HostedMark(0));
    steps := steps + [HostedMark(0)];
    OneStepMore(s0, steps, Tick(6));
    steps := steps + [Tick(6)];
    seen := View(ApplyAll(s0, steps).row, 6);
    OneStepMore(s0, steps, Wake(1));
    steps := steps + [Wake(1)];
  }

  lemma FindsItFailed(s: State, l: Id, seen: Woken, wakes: nat, observation: Observation)
    requires At(s, l) == Looping(Some(seen), wakes) && Decide(l, seen, wakes) == CloseExecution
    requires s.row.status == Failed && s.row.lifecycle == Some(l)
    ensures var s' := Apply(s, Write(l, observation, true));
      && s'.row == s.row && s'.cancelledPasses == s.cancelledPasses && At(s', l) == Looping(None, wakes)
  {
  }

  lemma ReturnsEnded(s: State, l: Id, wakes: nat)
    requires At(s, l) == Looping(None, wakes) && s.row.status == Failed && s.row.lifecycle == Some(l)
    ensures var s' := Apply(Apply(s, Wake(l)), Return(l));
      && s'.row == s.row && s'.cancelledPasses == s.cancelledPasses && At(s', l) == Returned(Ended(Failed))
  {
  }

  /** And so does a step that wrote, crashed before it answered and was run again, although
      the lifecycle had read the pass. */
  lemma LostAnswerOutlives() returns (steps: seq<Step>)
    ensures var s := ApplyAll(Initial(10, 0), steps);
      && s.row.status == Failed && s.row.pass == Some(9) && 9 !in s.cancelledPasses
      && At(s, 1) == Returned(Ended(Failed))
  {
    var s0, seen := Initial(10, 0), Woken(Queued, None, None, None);
    steps, seen := ReachesDeadline();
    var s := ApplyAll(s0, steps);
    var again := Write(1, WorkflowFailed, false);
    LosesMarked(s, 1, seen, 0, WorkflowFailed);
    FindsItFailed(Apply(s, again), 1, seen, 0, WorkflowFailed);
    var told := Write(1, WorkflowFailed, true);
    ReturnsEnded(Apply(Apply(s, again), told), 1, 0);
    steps := FourMore(s0, steps, again, told, Wake(1), Return(1));
  }

  lemma FourMore(s: State, steps: seq<Step>, a: Step, b: Step, c: Step, d: Step) returns (longer: seq<Step>)
    ensures ApplyAll(s, longer) == Apply(Apply(Apply(Apply(ApplyAll(s, steps), a), b), c), d)
  {
    OneStepMore(s, steps, a);
    OneStepMore(s, steps + [a], b);
    OneStepMore(s, steps + [a] + [b], c);
    longer := steps + [a] + [b] + [c] + [d];
    OneStepMore(s, steps + [a] + [b] + [c], d);
  }
}
