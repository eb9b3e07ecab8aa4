/** One Run through the Worker boundary (packages/worker-core/src/run.ts and dispatch.ts).
    The Adapter, the Sandbox provider and the materializer may return anything, or throw,
    at every call. */
module Worker {
  import opened Basics

  // --- the dispatch gates ----------------------------------------------------------------

  datatype Isolation = Microvm | ContainerRootless | Container
  datatype Exposure = NoExposure | Scoped | Account
  datatype Provenance = Internal | External
  datatype Autonomy = Inspect | Verify | Fix

  /** `probedAt` is `None` where it is no usable timestamp. */
  datatype Capability = Capability(
    probedAt: Option<int>, enforcesInstructionBoundary: bool, supportedAutonomy: set<Autonomy>,
    exposure: Option<Exposure>, reportsResolvedModel: bool)

  datatype RefusalReason =
    | CapabilityUnresolved | ProbeStale | BoundaryUnenforceable | AutonomyUnsupported | ExposureAboveMaximum
    | IsolationInsufficient | ProvenanceIneligible | TitleMissing | NarrativeNotProtected | SandboxRefused

  const PROBE_MAX_AGE: int := 5 * 60 * 1000

  function Height(e: Exposure): nat { match e case NoExposure => 0 case Scoped => 1 case Account => 2 }

  predicate IsStrong(i: Isolation) { i != Container }

  function Permitted(e: Exposure, i: Isolation, allowExternal: bool): set<Provenance> {
    match e
    case Account => if IsStrong(i) then {Internal} else {}
    case Scoped => if IsStrong(i) && allowExternal then {Internal, External} else {Internal}
    case NoExposure => if IsStrong(i) then {Internal, External} else {Internal}
  }

  datatype Spec = Spec(
    harness: string, model: string, autonomy: Autonomy, provenance: Provenance, allowExternal: bool, maximum: Exposure)

  /** The first requirement that fails, or none. */
  function CheckDispatch(s: Spec, exposure: Exposure, i: Isolation, c: Capability, now: int): Option<RefusalReason> {
    if c.probedAt == None || !(0 <= now - c.probedAt.value <= PROBE_MAX_AGE) then Some(ProbeStale)
    else if !c.enforcesInstructionBoundary then Some(BoundaryUnenforceable)
    else if s.autonomy !in c.supportedAutonomy then Some(AutonomyUnsupported)
    else if Height(exposure) > Height(s.maximum) then Some(ExposureAboveMaximum)
    else if s.provenance in Permitted(exposure, i, s.allowExternal) then None
    else if s.provenance in Permitted(exposure, Microvm, s.allowExternal) then Some(IsolationInsufficient)
    else Some(ProvenanceIneligible)
  }

  /** What no gate's order can change: a Run that is dispatched is one whose host, Exposure
      and Provenance the matrix permits, and an `account` credential never meets a rootful
      container or an external pull request. */
  lemma DispatchedIsPermitted(s: Spec, exposure: Exposure, i: Isolation, c: Capability, now: int)
    ensures CheckDispatch(s, exposure, i, c, now) == None <==>
      && c.probedAt.Some? && now - PROBE_MAX_AGE <= c.probedAt.value <= now
      && c.enforcesInstructionBoundary && s.autonomy in c.supportedAutonomy
      && Height(exposure) <= Height(s.maximum) && s.provenance in Permitted(exposure, i, s.allowExternal)
    ensures CheckDispatch(s, exposure, i, c, now) == None && exposure == Account ==> IsStrong(i) && s.provenance == Internal
    ensures CheckDispatch(s, exposure, i, c, now) == None && s.provenance == External ==>
      IsStrong(i) && (exposure == NoExposure || (exposure == Scoped && s.allowExternal))
  {
  }

  // --- outcomes --------------------------------------------------------------------------

  datatype Answer<T> = Returned(value: T) | Threw

  datatype PassOutcome = PassCompleted | PassPartial | PassFailed

  /** What an Adapter hands back. The findings and what was observed are its own shape. */
  datatype Output<B> = Output(outcome: PassOutcome, resolvedModel: Option<string>, bundle: B)

  /** The decision over one bundle: the Evidence cross-check, then the schema. Reading a
      shape the Adapter supplied may throw. */
  datatype Conformed<R> = ConformThrew | Complaint(reason: string) | Conforming(result: R)

  datatype FailureReason = PassFailedReason | ModelSubstituted | NotConforming(complaint: string) | TeardownIncomplete

  datatype Outcome<R> = Refusal(refused: RefusalReason) | Failure(reason: FailureReason) | Result(result: R)

  /** A Sandbox as it was handed out: which one, and the Isolation it was launched at. */
  datatype Sandbox = Sandbox(id: int, isolation: Isolation)

  /** What a port was asked and what it answered. The trace of a Run holds nothing else, so
      every gate is judged on answers that were really given. */
  datatype Event<B> =
    | Resolved(host: Answer<(Capability, Isolation)>)
    | Clocked(now: int)
    | Launched(sandbox: Answer<Sandbox>)
    | Materialized(id: int, done: bool)
    | Inspected(id: int, capability: Answer<Capability>)
    | PassRan(id: int, model: string, output: Answer<Output<B>>)
    | TornDown(id: int, confirmed: bool)

  datatype Input = Input(spec: Spec, exposure: Exposure, hasTitle: bool)

  function ExposureOf(input: Input, c: Capability): Exposure {
    if c.exposure.Some? then c.exposure.value else input.exposure
  }

  // --- how far a trace has come ----------------------------------------------------------

  ghost predicate Known<B>(t: seq<Event<B>>) { |t| >= 1 && t[0].Resolved? && t[0].host.Returned? }

  /** What the dispatch gates say of the host that was resolved, at the hour they were asked. */
  ghost function HostGate<B>(input: Input, t: seq<Event<B>>): Option<RefusalReason>
    requires Known(t) && |t| >= 2 && t[1].Clocked?
  {
    var (c, isolation) := t[0].host.value;
    CheckDispatch(input.spec, ExposureOf(input, c), isolation, c, t[1].now)
  }

  ghost predicate Permits<B>(input: Input, t: seq<Event<B>>) {
    Known(t) && |t| >= 2 && t[1].Clocked? && HostGate(input, t) == None && input.hasTitle
  }

  ghost predicate Live<B>(input: Input, t: seq<Event<B>>) {
    Permits(input, t) && |t| >= 3 && t[2].Launched? && t[2].sandbox.Returned?
  }

  ghost function SandboxOf<B>(input: Input, t: seq<Event<B>>): Sandbox
    requires Live(input, t)
  {
    t[2].sandbox.value
  }

  ghost predicate Protected<B>(input: Input, t: seq<Event<B>>) {
    Live(input, t) && |t| >= 4 && t[3] == Materialized(SandboxOf(input, t).id, true)
  }

  ghost predicate Examined<B>(input: Input, t: seq<Event<B>>) {
    && Protected(input, t) && |t| >= 5
    && t[4].Inspected? && t[4].id == SandboxOf(input, t).id && t[4].capability.Returned?
  }

  /** What they say of this Sandbox: its own Isolation, and the capability resolved in it. */
  ghost function InstanceGate<B>(input: Input, t: seq<Event<B>>): Option<RefusalReason>
    requires Examined(input, t) && |t| >= 6 && t[5].Clocked?
  {
    var c := t[4].capability.value;
    CheckDispatch(input.spec, ExposureOf(input, c), SandboxOf(input, t).isolation, c, t[5].now)
  }

  ghost predicate Authorized<B>(input: Input, t: seq<Event<B>>) {
    Examined(input, t) && |t| >= 6 && t[5].Clocked? && InstanceGate(input, t) == None
  }

  /** Nothing is left to do in the Sandbox but to tear it down. */
  ghost predicate Spent<B>(input: Input, t: seq<Event<B>>) {
    && Live(input, t)
    && var id := SandboxOf(input, t).id;
      || (|t| == 4 && t[3] == Materialized(id, false))
      || (|t| == 5 && Protected(input, t) && t[4] == Inspected(id, Threw))
      || (|t| == 6 && Examined(input, t) && t[5].Clocked? && !Authorized(input, t))
      || (|t| == 7 && Authorized(input, t) && t[6].PassRan?)
  }

  /** What a Run may do next, on the answers it has. */
  ghost predicate MayFollow<B>(harness: string, input: Input, t: seq<Event<B>>, e: Event<B>) {
    match e
    case Resolved(_) => t == [] && harness == input.spec.harness
    case Clocked(_) => (|t| == 1 && Known(t)) || (|t| == 5 && Examined(input, t))
    case Launched(_) => |t| == 2 && Permits(input, t)
    case Materialized(id, _) => |t| == 3 && Live(input, t) && id == SandboxOf(input, t).id
    case Inspected(id, _) => |t| == 4 && Protected(input, t) && id == SandboxOf(input, t).id
    case PassRan(id, model, _) =>
      |t| == 6 && Authorized(input, t) && id == SandboxOf(input, t).id && model == input.spec.model
    case TornDown(id, _) => Spent(input, t) && id == SandboxOf(input, t).id
  }

  ghost predicate Orderly<B>(harness: string, input: Input, t: seq<Event<B>>) {
    forall i :: 0 <= i < |t| ==> MayFollow(harness, input, t[..i], t[i])
  }

  /** The Run stopped because there was nothing it might still do. */
  ghost predicate Finished<B(!new)>(harness: string, input: Input, t: seq<Event<B>>) {
    Orderly(harness, input, t) && forall e :: !MayFollow(harness, input, t, e)
  }

  lemma OneMore<B>(harness: string, input: Input, t: seq<Event<B>>, e: Event<B>)
    requires Orderly(harness, input, t) && MayFollow(harness, input, t, e)
    ensures Orderly(harness, input, t + [e])
  {
    var u := t + [e];
    forall i | 0 <= i < |u| ensures MayFollow(harness, input, u[..i], u[i]) {
      if i < |t| {
        assert u[..i] == t[..i];
      } else {
        assert u[..i] == t;
      }
    }
  }

  // --- what a Pass is worth --------------------------------------------------------------

  ghost predicate Usable<B>(pass: Answer<Output<B>>) { pass.Returned? && pass.value.outcome != PassFailed }

  ghost predicate Substituted<B>(spec: Spec, c: Capability, pass: Answer<Output<B>>) {
    Usable(pass) && c.reportsResolvedModel && pass.value.resolvedModel != Some(spec.model)
  }

  /** Every outcome after the Pass, by what makes it: there is a Result exactly where the Pass
      did not fail, ran the pinned Model as far as that is reported, and its bundle conforms. */
  ghost predicate Judged<B, R(!new)>(
    spec: Spec, c: Capability, conform: Output<B> -> Conformed<R>, pass: Answer<Output<B>>, outcome: Outcome<R>)
  {
    && !outcome.Refusal? && outcome != Failure(TeardownIncomplete)
    && (outcome == Failure(ModelSubstituted) <==> Substituted(spec, c, pass))
    && (forall r :: outcome == Result(r) <==>
         Usable(pass) && !Substituted(spec, c, pass) && conform(pass.value) == Conforming(r))
    && (forall why :: outcome == Failure(NotConforming(why)) <==>
         Usable(pass) && !Substituted(spec, c, pass) && conform(pass.value) == Complaint(why))
  }

  /** What a finished Run reports of its trace. */
  ghost predicate Tells<B, R(!new)>(input: Input, conform: Output<B> -> Conformed<R>, t: seq<Event<B>>, outcome: Outcome<R>) {
    if !Known(t) then outcome == Refusal(CapabilityUnresolved)
    else if |t| == 2 && t[1].Clocked? then
      outcome == Refusal(if HostGate(input, t).Some? then HostGate(input, t).value else TitleMissing)
    else if !Live(input, t) then outcome == Refusal(SandboxRefused)
    else if !Protected(input, t) then outcome == Refusal(NarrativeNotProtected)
    else if !Examined(input, t) then outcome == Refusal(CapabilityUnresolved)
    else if !Authorized(input, t) then
      |t| >= 6 && t[5].Clocked? && outcome == Refusal(InstanceGate(input, t).value)
    else
      && |t| == 8 && t[6].PassRan? && t[7].TornDown?
      && (if t[7].confirmed then Judged(input.spec, t[4].capability.value, conform, t[6].output, outcome)
          else outcome == Failure(TeardownIncomplete))
  }

  // --- what a finished Run has done ------------------------------------------------------

  function Count<B>(t: seq<Event<B>>, which: Event<B> -> bool): nat {
    if t == [] then 0 else Count(t[..|t| - 1], which) + if which(t[|t| - 1]) then 1 else 0
  }

  ghost predicate IsLaunch<B>(e: Event<B>) { e.Launched? && e.sandbox.Returned? }

  ghost predicate IsTeardown<B>(e: Event<B>) { e.TornDown? }

  ghost predicate IsPass<B>(e: Event<B>) { e.PassRan? }

  /** Something may follow only a short trace, and never a teardown. */
  lemma MayFollowShort<B>(harness: string, input: Input, t: seq<Event<B>>, e: Event<B>)
    requires MayFollow(harness, input, t, e)
    ensures |t| <= 7 && (t != [] ==> !t[|t| - 1].TornDown?) && (t == [] ==> harness == input.spec.harness)
    ensures (e.Launched? ==> |t| == 2) && (e.PassRan? ==> |t| == 6) && (e.TornDown? ==> |t| >= 4)
  {
  }

  /** Where each kind of event can stand. */
  lemma Places<B>(harness: string, input: Input, t: seq<Event<B>>)
    requires Orderly(harness, input, t)
    ensures |t| <= 8 && (t != [] ==> harness == input.spec.harness)
    ensures forall i :: 0 <= i < |t| && t[i].Launched? ==> i == 2
    ensures forall i :: 0 <= i < |t| && t[i].PassRan? ==> i == 6
    ensures forall i :: 0 <= i < |t| && t[i].TornDown? ==> i == |t| - 1 >= 4
  {
    forall i | 0 <= i < |t|
      ensures (t[i].Launched? ==> i == 2) && (t[i].PassRan? ==> i == 6) && (t[i].TornDown? ==> i >= 4)
    {
      MayFollowShort(harness, input, t[..i], t[i]);
    }
    forall i | 0 <= i < |t| - 1 ensures !t[i].TornDown? {
      MayFollowShort(harness, input, t[..i + 1], t[i + 1]);
    }
    if t != [] {
      MayFollowShort(harness, input, t[..0], t[0]);
      MayFollowShort(harness, input, t[..|t| - 1], t[|t| - 1]);
    }
  }

  /** Only what has been answered before counts: a longer trace has come as far. */
  lemma StillSo<B>(input: Input, t: seq<Event<B>>, n: nat)
    requires n <= |t|
    ensures n >= 3 ==> (Live(input, t[..n]) <==> Live(input, t))
    ensures n >= 6 ==> (Authorized(input, t[..n]) <==> Authorized(input, t))
  {
  }

  /** A count of something that stands in one place at most. */
  lemma {:induction false} CountOne<B>(t: seq<Event<B>>, which: Event<B> -> bool, at: nat)
    requires forall i :: 0 <= i < |t| && which(t[i]) ==> i == at
    ensures Count(t, which) == if at < |t| && which(t[at]) then 1 else 0
  {
    if t != [] {
      var s := t[..|t| - 1];
      CountOne(s, which, at);
      assert at < |s| ==> s[at] == t[at];
    }
  }

  /** A Sandbox that was launched is torn down exactly once, and nothing follows that. */
  lemma TornDownOnce<B(!new)>(harness: string, input: Input, t: seq<Event<B>>)
    requires Finished(harness, input, t)
    ensures Count(t, IsTeardown) == Count(t, IsLaunch) <= 1
    ensures Live(input, t) ==> |t| >= 5 && t[|t| - 1].TornDown? && t[|t| - 1].id == SandboxOf(input, t).id
    ensures Live(input, t) <==> exists e :: e in t && IsLaunch(e)
  {
    Places(harness, input, t);
    LaunchIsLive(harness, input, t);
    if Live(input, t) {
      assert IsLaunch(t[2]) && t[2] in t;
      EndsTornDown(harness, input, t);
      CountOne(t, IsTeardown, |t| - 1);
    } else {
      forall i | 0 <= i < |t| ensures !t[i].TornDown? {
        assert MayFollow(harness, input, t[..i], t[i]);
        if i >= 3 {
          StillSo(input, t, i);
        }
      }
      CountOne(t, IsTeardown, |t|);
    }
    CountOne(t, IsLaunch, 2);
  }

  lemma LaunchIsLive<B>(harness: string, input: Input, t: seq<Event<B>>)
    requires Orderly(harness, input, t)
    ensures Live(input, t) <==> |t| >= 3 && IsLaunch(t[2])
  {
    if |t| >= 3 && IsLaunch(t[2]) {
      assert MayFollow(harness, input, t[..2], t[2]);
    }
  }

  lemma EndsTornDown<B(!new)>(harness: string, input: Input, t: seq<Event<B>>)
    requires Finished(harness, input, t) && Live(input, t)
    ensures |t| >= 5 && t[|t| - 1].TornDown? && t[|t| - 1].id == SandboxOf(input, t).id
  {
    var n := |t| - 1;
    var id := SandboxOf(input, t).id;
    Places(harness, input, t);
    assert !MayFollow(harness, input, t, Materialized(id, true));
    assert !MayFollow(harness, input, t, Inspected(id, Threw));
    assert !MayFollow(harness, input, t, Clocked(0));
    assert !MayFollow(harness, input, t, PassRan(id, input.spec.model, Threw));
    assert !MayFollow(harness, input, t, TornDown(id, true));
    assert MayFollow(harness, input, t[..n], t[n]);
  }

  /** The Pass runs once at most, in the Sandbox that was launched, for the pinned Model, and
      only after both gates passed: the first on the host that was resolved, the second on
      that Sandbox's own Isolation and on the capability resolved in it. */
  lemma PassWasPermitted<B>(harness: string, input: Input, t: seq<Event<B>>)
    requires Orderly(harness, input, t)
    ensures Count(t, IsPass) <= 1
    ensures forall i :: 0 <= i < |t| && t[i].PassRan? ==>
      && harness == input.spec.harness && Authorized(input, t[..i]) && HostGate(input, t[..i]) == None
      && InstanceGate(input, t[..i]) == None && Protected(input, t[..i])
      && t[i].id == SandboxOf(input, t[..i]).id && t[i].model == input.spec.model
  {
    Places(harness, input, t);
    CountOne(t, IsPass, 6);
    forall i | 0 <= i < |t| && t[i].PassRan?
      ensures Authorized(input, t[..i]) && t[i].id == SandboxOf(input, t[..i]).id && t[i].model == input.spec.model
    {
      assert MayFollow(harness, input, t[..i], t[i]);
    }
  }

  /** In the matrix's own terms: an `account` credential is never in a Sandbox that is a
      rootful container, nor near an external pull request, whatever its host was. */
  lemma PassKeepsTheMatrix<B>(harness: string, input: Input, t: seq<Event<B>>, i: nat)
    requires Orderly(harness, input, t) && i < |t| && t[i].PassRan?
    ensures Examined(input, t)
    ensures var e := ExposureOf(input, t[4].capability.value);
      && Height(e) <= Height(input.spec.maximum)
      && (e == Account ==> IsStrong(SandboxOf(input, t).isolation) && input.spec.provenance == Internal)
      && (input.spec.provenance == External ==>
        IsStrong(SandboxOf(input, t).isolation) && (e == NoExposure || (e == Scoped && input.spec.allowExternal)))
  {
    PassWasPermitted(harness, input, t);
    var u := t[..i];
    assert u[2] == t[2] && u[4] == t[4];
    var c := t[4].capability.value;
    DispatchedIsPermitted(input.spec, ExposureOf(input, c), SandboxOf(input, t).isolation, c, t[5].now);
  }

  /** What the outcome says of the trace: a Refusal that no Pass ran, a Failure or a Result
      that one did; a Result that it was usable, pinned and conforming, and that the teardown
      was confirmed; and a teardown that was not is never reported as anything else. */
  lemma OutcomeMeans<B(!new), R(!new)>(harness: string, input: Input, conform: Output<B> -> Conformed<R>, t: seq<Event<B>>, outcome: Outcome<R>)
    requires Finished(harness, input, t) && Tells(input, conform, t, outcome)
    ensures outcome.Refusal? <==> forall i :: 0 <= i < |t| ==> !t[i].PassRan?
    ensures forall r :: outcome == Result(r) <==>
      && |t| == 8 && t[6].PassRan? && t[7].TornDown? && t[7].confirmed
      && Examined(input, t) && Usable(t[6].output) && !Substituted(input.spec, t[4].capability.value, t[6].output)
      && conform(t[6].output.value) == Conforming(r)
    ensures outcome == Failure(TeardownIncomplete) <==> |t| == 8 && t[7].TornDown? && !t[7].confirmed
    ensures harness != input.spec.harness ==> t == [] && outcome == Refusal(CapabilityUnresolved)
  {
    Places(harness, input, t);
    PassWasPermitted(harness, input, t);
    if |t| > 6 && t[6].PassRan? {
      StillSo(input, t, 6);
    }
    if Authorized(input, t) {
      assert |t| == 8 && t[6].PassRan? && t[7].TornDown?;
    }
  }

  // --- the sequence ----------------------------------------------------------------------

  class WorkerCore<B(0,!new), R(!new)> {
    const harness: string
    const conform: Output<B> -> Conformed<R>
    /** The trace of the Run at hand. */
    ghost var events: seq<Event<B>>

    constructor (harness: string, conform: Output<B> -> Conformed<R>)
      ensures this.harness == harness && this.conform == conform && events == []
    {
      this.harness, this.conform, events := harness, conform, [];
    }

    // The ports: each may answer anything, and its answer is what the trace holds.

    method Capabilities() returns (a: Answer<(Capability, Isolation)>)
      modifies this
      ensures events == old(events) + [Resolved(a)]
    {
      a := *;
      events := events + [Resolved(a)];
    }

    method Now() returns (now: int)
      modifies this
      ensures events == old(events) + [Clocked(now)]
    {
      now := *;
      events := events + [Clocked(now)];
    }

    method Launch() returns (a: Answer<Sandbox>)
      modifies this
      ensures events == old(events) + [Launched(a)]
    {
      a := *;
      events := events + [Launched(a)];
    }

    method Materialize(s: Sandbox) returns (done: bool)
      modifies this
      ensures events == old(events) + [Materialized(s.id, done)]
    {
      done := *;
      events := events + [Materialized(s.id, done)];
    }

    method InstanceCapability(s: Sandbox) returns (a: Answer<Capability>)
      modifies this
      ensures events == old(events) + [Inspected(s.id, a)]
    {
      a := *;
      events := events + [Inspected(s.id, a)];
    }

    method AdapterPass(s: Sandbox, model: string) returns (a: Answer<Output<B>>)
      modifies this
      ensures events == old(events) + [PassRan(s.id, model, a)]
    {
      a := *;
      events := events + [PassRan(s.id, model, a)];
    }

    method Teardown(s: Sandbox) returns (confirmed: bool)
      modifies this
      ensures events == old(events) + [TornDown(s.id, confirmed)]
    {
      confirmed := *;
      events := events + [TornDown(s.id, confirmed)];
    }

    /** The dispatch gates, at one reading of the clock. */
    method Gating(input: Input, isolation: Isolation, c: Capability) returns (refused: Option<RefusalReason>, ghost now: int)
      modifies this
      ensures events == old(events) + [Clocked(now)]
      ensures refused == CheckDispatch(input.spec, ExposureOf(input, c), isolation, c, now)
    {
      var asked := Now();
      now := asked;
      var exposure := if c.exposure.Some? then c.exposure.value else input.exposure;
      refused := CheckDispatch(input.spec, exposure, isolation, c, asked);
    }

    /** The Pass, and the judgement of what came of it. */
    method ExecutePass(spec: Spec, s: Sandbox, c: Capability) returns (outcome: Outcome<R>, ghost pass: Answer<Output<B>>)
      modifies this
      ensures events == old(events) + [PassRan(s.id, spec.model, pass)]
      ensures Judged(spec, c, conform, pass, outcome)
    {
      var answer := AdapterPass(s, spec.model);
      pass := answer;
      if answer.Threw? {
        return Failure(PassFailedReason), pass;
      }
      if answer.value.outcome == PassFailed {
        return Failure(PassFailedReason), pass;
      }
      if c.reportsResolvedModel && answer.value.resolvedModel != Some(spec.model) {
        return Failure(ModelSubstituted), pass;
      }
      match conform(answer.value)
      case ConformThrew => return Failure(PassFailedReason), pass;
      case Complaint(reason) => return Failure(NotConforming(reason)), pass;
      case Conforming(result) => return Result(result), pass;
    }

    /** Steps 7 to 11, over a Sandbox that was launched. */
    method InSandbox(input: Input, s: Sandbox) returns (outcome: Outcome<R>)
      requires |events| == 3 && Live(input, events) && SandboxOf(input, events) == s && Orderly(harness, input, events)
      modifies this
      ensures Finished(harness, input, events) && Live(input, events) && Tells(input, conform, events, outcome)
    {
      ghost var t := events;
      var materialized := Materialize(s);
      OneMore(harness, input, t, events[3]);
      t := events;
      if !materialized {
        var confirmed := Teardown(s);
        OneMore(harness, input, t, events[4]);
        return Refusal(NarrativeNotProtected);
      }
      var resolved := InstanceCapability(s);
      OneMore(harness, input, t, events[4]);
      t := events;
      if resolved.Threw? {
        var confirmed := Teardown(s);
        OneMore(harness, input, t, events[5]);
        return Refusal(CapabilityUnresolved);
      }
      outcome := OnInstance(input, s, resolved.value);
    }

    /** Steps 8 to 11, with a capability resolved in the Sandbox itself. */
    method OnInstance(input: Input, s: Sandbox, c: Capability) returns (outcome: Outcome<R>)
      requires |events| == 5 && Examined(input, events) && SandboxOf(input, events) == s && events[4].capability == Returned(c)
      requires Orderly(harness, input, events)
      modifies this
      ensures Finished(harness, input, events) && Live(input, events) && Tells(input, conform, events, outcome)
    {
      ghost var t := events;
      var refused, now := Gating(input, s.isolation, c);
      OneMore(harness, input, t, events[5]);
      t := events;
      if refused.Some? {
        var confirmed := Teardown(s);
        OneMore(harness, input, t, events[6]);
        return Refusal(refused.value);
      }
      ghost var pass;
      outcome, pass := ExecutePass(input.spec, s, c);
      OneMore(harness, input, t, events[6]);
      t := events;
      var confirmed := Teardown(s);
      OneMore(harness, input, t, events[7]);
      if !confirmed {
        outcome := Failure(TeardownIncomplete);
      }
    }

    /** One Run, for every behaviour of its ports: it does only what the answers it has allow,
        it stops only where they allow nothing more, and it reports what happened. */
    method Execute(input: Input) returns (outcome: Outcome<R>)
      modifies this
      ensures Finished(harness, input, events) && Tells(input, conform, events, outcome)
    {
      events := [];
      if harness != input.spec.harness {
        return Refusal(CapabilityUnresolved);
      }
      var resolved := Capabilities();
      OneMore(harness, input, [], events[0]);
      if resolved.Threw? {
        return Refusal(CapabilityUnresolved);
      }
      ghost var t := events;
      var (capability, isolation) := resolved.value;
      var refused, now := Gating(input, isolation, capability);
      OneMore(harness, input, t, events[1]);
      if refused.Some? {
        return Refusal(refused.value);
      }
      if !input.hasTitle {
        return Refusal(TitleMissing);
      }
      t := events;
      var launched := Launch();
      OneMore(harness, input, t, events[2]);
      if launched.Threw? {
        return Refusal(SandboxRefused);
      }
      outcome := InSandbox(input, launched.value);
    }
  }
}
