/** How a request becomes a running Sandbox, over a runtime that may reject any invocation,
    fail it, or answer anything (packages/sandbox-container/src/provider.ts and capability.ts). */
module Provider {
  import opened Basics
  import opened Arguments
  import opened Attestation

  datatype Resource = InstanceOf(id: string) | VolumeOf(id: string)

  datatype Command =
    | HostInfo
    | CreateVolume(id: string)
    | Create(id: string, vector: seq<string>)
    | Inspect(id: string)
    | Start(id: string)
    | RemoveInstance(id: string)
    | RemoveVolume(id: string)
    | ListInstances(id: string)
    | ListVolumes(id: string)

  /** What could be read off the output. */
  datatype Said = Unreadable | Names(lines: seq<string>) | Host(report: HostReport) | Report(instance: Attestation.Instance)

  /** What one invocation came to: it rejected, or it exited and said something. */
  datatype Invoked = Rejected | Exited(ok: bool, said: Said)

  /** An invocation and its answer. */
  datatype Event = Event(command: Command, answer: Invoked)

  /** What an invocation may bring into being. Creating an instance may make the volume it
      mounts, and so may starting it. */
  function Makes(c: Command): set<Resource> {
    match c
    case CreateVolume(id) => {VolumeOf(id)}
    case Create(id, _) => {InstanceOf(id), VolumeOf(id)}
    case Start(id) => {InstanceOf(id), VolumeOf(id)}
    case _ => {}
  }

  function Listed(a: Invoked): seq<string> { if a.Exited? && a.said.Names? then a.said.lines else [] }

  /** All a listing is trusted for: when it succeeds, it names a resource exactly when that
      resource is there. It may name neighbours as well. */
  predicate Truthful(c: Command, a: Invoked, alive: set<Resource>) {
    match c
    case ListInstances(id) => Arguments.Instance(id) in Listed(a) <==> InstanceOf(id) in alive
    case ListVolumes(id) => WorkspaceVolume(id) in Listed(a) <==> VolumeOf(id) in alive
    case _ => true
  }

  function Owned(id: string): set<Resource> { {InstanceOf(id), VolumeOf(id)} }

  datatype Refusal = Quarantined | RequestRefused | HostRefused | FingerprintDrifted | AuditRefused | AttestationRefused

  datatype Launch =
    | Launched(id: string, attested: Input)
    | Refused(refusal: Refusal)
    | Failed

  datatype Teardown = TornDown | CleanupFailed | Incomplete(residue: set<Resource>)

  // --- what a launch and a cleanup invoke ------------------------------------------------

  function LaunchCommands(r: Request, id: string): seq<Command> {
    [HostInfo, CreateVolume(id), Create(id, CreateArguments(r, id)), Inspect(id), Start(id)]
  }

  function CleanupCommands(id: string): seq<Command> {
    [RemoveInstance(id), RemoveVolume(id), ListInstances(id), ListVolumes(id)]
  }

  /** The resources of a launch that its two listings name. */
  function Named(id: string, instances: Event, volumes: Event): set<Resource> {
    (if Arguments.Instance(id) in Listed(instances.answer) then {InstanceOf(id)} else {})
    + (if WorkspaceVolume(id) in Listed(volumes.answer) then {VolumeOf(id)} else {})
  }

  /** Invoked so far as it goes in this order. */
  predicate Follows(events: seq<Event>, commands: seq<Command>) {
    |events| <= |commands| && forall k :: 0 <= k < |events| ==> events[k].command == commands[k]
  }

  /** The invocation exited well, and what had to be read could be. */
  predicate Answered(e: Event) {
    && e.answer.Exited? && e.answer.ok
    && (e.command.HostInfo? ==> e.answer.said.Host?) && (e.command.Inspect? ==> e.answer.said.Report?)
  }

  predicate AllAnswered(events: seq<Event>) { forall k :: 0 <= k < |events| ==> Answered(events[k]) }

  predicate AllButLast(events: seq<Event>) { forall k :: 0 <= k < |events| - 1 ==> Answered(events[k]) }

  /** A cleanup goes on as long as it is answered: removals at all, listings well. It finds
      what the listings name, and where they could not be had presumes everything. */
  predicate Cleaned(events: seq<Event>, id: string, residue: set<Resource>) {
    && Follows(events, CleanupCommands(id)) && events != []
    && (forall k :: 0 <= k < |events| - 1 ==> events[k].answer.Exited? && (k >= 2 ==> events[k].answer.ok))
    && var last := events[|events| - 1];
      if |events| == 4 && Answered(last) then
        residue == Named(id, events[2], last)
      else
        residue == Owned(id) && (last.answer.Rejected? || (|events| >= 3 && !Answered(last)))
  }

  /** The launch's own invocations: it stops at the first that is not answered, and there it
      has failed; it refuses only before any, after the host's report, or over the instance's;
      and it has launched exactly where the start was answered. */
  predicate Attempted(events: seq<Event>, r: Request, id: string, launch: Launch) {
    && Follows(events, LaunchCommands(r, id))
    && AllButLast(events)
    && (launch == Failed <==> events != [] && !Answered(events[|events| - 1]))
    && (launch.Launched? <==> |events| == 5 && Answered(events[4]))
    && (launch == Refused(AttestationRefused) <==> |events| == 4 && Answered(events[3]))
    && (launch == Refused(HostRefused) || launch == Refused(FingerprintDrifted) || launch == Refused(AuditRefused) <==>
         |events| == 1 && Answered(events[0]))
    && (launch == Refused(Quarantined) || launch == Refused(RequestRefused) <==> events == [])
  }

  /** Everything a launch invoked: its own invocations, and a cleanup exactly where it had
      begun to make something and did not end in a Sandbox. */
  datatype Trail = Trail(own: seq<Event>, cleanup: seq<Event>, residue: set<Resource>)

  predicate Ran(trail: Trail, r: Request, id: string, launch: Launch) {
    && Attempted(trail.own, r, id, launch)
    && if |trail.own| <= 1 || launch.Launched? then trail.cleanup == [] && trail.residue == {}
       else Cleaned(trail.cleanup, id, trail.residue)
  }

  lemma NoneAfter(a: seq<Event>)
    ensures a + [] == a
  {
  }

  lemma Grouped(a: seq<Event>, b: seq<Event>, c: seq<Event>)
    ensures (a + b) + c == a + (b + c)
  {
  }

  lemma TrailRan(
    first: Event, events: seq<Event>, cleanup: seq<Event>, residue: set<Resource>, r: Request, id: string, launch: Launch)
    requires events != [] && Attempted([first] + events, r, id, launch)
    requires if launch.Launched? then cleanup == [] && residue == {} else Cleaned(cleanup, id, residue)
    ensures var trail := Trail([first] + events, cleanup, residue);
      && Ran(trail, r, id, launch) && |trail.own| > 1 && trail.own[0] == first
      && [first] + (events + cleanup) == trail.own + trail.cleanup
  {
    Grouped([first], events, cleanup);
  }

  /** A launch that ended over the host's report, or before the first resource. */
  lemma EndedOnHost(first: Event, r: Request, id: string, launch: Launch)
    requires first.command == HostInfo && (launch == Failed <==> !Answered(first))
    requires launch in [Failed, Refused(HostRefused), Refused(FingerprintDrifted), Refused(AuditRefused)]
    ensures Ran(Trail([first], [], {}), r, id, launch) && [first] + [] == [first]
  {
  }

  lemma AttemptFailed(first: Event, events: seq<Event>, r: Request, id: string)
    requires first.command == HostInfo && Answered(first) && 1 <= |events| <= 3
    requires Follows(events, LaunchCommands(r, id)[1..]) && AllButLast(events) && !Answered(events[|events| - 1])
    ensures Attempted([first] + events, r, id, Failed)
  {
  }

  lemma AllButLastAnswered(events: seq<Event>)
    requires events != [] && AllButLast(events) && Answered(events[|events| - 1])
    ensures AllAnswered(events)
  {
  }

  lemma StartEnds(first: Event, made: seq<Event>, last: Event, r: Request, id: string, i: Input)
    requires first.command == HostInfo && Answered(first) && |made| == 3 && AllAnswered(made)
    requires Follows(made, LaunchCommands(r, id)[1..]) && last.command == Start(id)
    ensures Attempted([first] + (made + [last]), r, id, if Answered(last) then Launched(id, i) else Failed)
  {
  }

  // --- what a start needs ----------------------------------------------------------------

  /** The last thing invoked was the host's report, and this is its fingerprint. */
  predicate JustRead(log: seq<Event>, first: Event, observed: seq<string>) {
    && log != [] && log[|log| - 1] == first
    && first.command == HostInfo && Answered(first) && Fingerprint(first.answer.said.report) == observed
  }

  predicate Passed(r: Request, id: string, host: Capability) {
    Accepted(r) && Audited(Options(r, id)) && HostSatisfied(host)
  }

  /** An Attestation of this launch. */
  predicate IsOf(i: Input, r: Request, quotas: Quotas, host: Capability, id: string) {
    i.request == r && i.quotas == quotas && i.host == host && i.volume == WorkspaceVolume(id)
  }

  /** What the host's gates come to, and what is remembered of the host afterwards. */
  ghost predicate Handed(launch: Launch, r: Request, quotas: Quotas, host: Capability, id: string, log: seq<Event>) {
    launch.Launched? ==> launch.id == id && IsOf(launch.attested, r, quotas, host, id) && StartedBy(log, id, launch.attested)
  }

  predicate Gated(report: HostReport, before: Option<Capability>, launch: Launch, after: Option<Capability>) {
    var host := HostOf(report, before);
    && (launch == Refused(HostRefused) <==> !HostSatisfied(host))
    && (launch == Refused(FingerprintDrifted) <==> HostSatisfied(host) && Fingerprint(report) != host.fingerprint)
    && after == (if launch == Refused(FingerprintDrifted) then None else Some(host))
    && (launch.Launched? ==> launch.attested.host == host)
  }

  /** What this launch read of its host and inspected of its instance, and that an Attestation
      over it is not authorized. */
  predicate Unattested(own: seq<Event>, r: Request, quotas: Quotas, host: Capability, id: string) {
    && |own| == 4 && Answered(own[0]) && own[0].command.HostInfo? && Answered(own[3]) && own[3].command.Inspect?
    && !Authorized(Input(r, quotas, own[3].answer.said.instance, host, Fingerprint(own[0].answer.said.report), NO_NETWORK,
                         WorkspaceVolume(id)))
  }

  /** An Attestation refuses only what is not authorized, on the host this launch went by. */
  predicate FairlyRefused(own: seq<Event>, r: Request, quotas: Quotas, before: Option<Capability>, id: string, launch: Launch) {
    launch == Refused(AttestationRefused) ==>
      && own != [] && own[0].command.HostInfo? && Answered(own[0])
      && Unattested(own, r, quotas, HostOf(own[0].answer.said.report, before), id)
  }

  /** Whether a launch came so far as to draw its id. */
  predicate Drew(trail: Trail, launch: Launch) { |trail.own| > 1 || launch == Refused(AuditRefused) }

  function HostOf(report: HostReport, before: Option<Capability>): Capability {
    if before.Some? then before.value else Establish(report)
  }

  /** The launch's request and host passed their gates, and this Attestation is authorized. */
  predicate Grounded(i: Input, id: string) {
    && i.volume == WorkspaceVolume(id) && i.network == NO_NETWORK
    && Passed(i.request, id, i.host) && Authorized(i)
  }

  /** This launch has read its host, made its volume, created its instance with the audited
      vector and inspected it, one right after the other, and an Attestation over exactly what
      they answered is authorized. */
  ghost predicate ClearedBy(log: seq<Event>, id: string, i: Input) {
    var n := |log|;
    && n >= 4 && Follows(log[n - 4..], LaunchCommands(i.request, id)) && AllAnswered(log[n - 4..])
    && i.fingerprint == Fingerprint(log[n - 4].answer.said.report) && i.instance == log[n - 1].answer.said.instance
    && Grounded(i, id)
  }

  ghost predicate Cleared(log: seq<Event>, id: string) { exists i :: ClearedBy(log, id, i) }

  /** The last thing invoked was the start it cleared. */
  ghost predicate StartedBy(log: seq<Event>, id: string, i: Input) {
    log != [] && log[|log| - 1].command == Start(id) && ClearedBy(log[..|log| - 1], id, i)
  }

  lemma StartedNow(made: seq<Event>, last: Event, id: string, i: Input)
    requires ClearedBy(made, id, i) && last.command == Start(id)
    ensures StartedBy(made + [last], id, i)
  {
    assert (made + [last])[..|made|] == made;
  }

  /** No instance was ever started but so. */
  ghost predicate StartsCleared(log: seq<Event>) {
    forall k {:trigger log[..k]} :: 0 <= k < |log| && log[k].command.Start? ==> Cleared(log[..k], log[k].command.id)
  }

  lemma StartsClearedNext(log: seq<Event>, e: Event)
    requires StartsCleared(log) && (e.command.Start? ==> Cleared(log, e.command.id))
    ensures StartsCleared(log + [e])
  {
    var after := log + [e];
    forall k | 0 <= k < |after| && after[k].command.Start? ensures Cleared(after[..k], after[k].command.id) {
      assert after[..k] == log[..k];
      assert log[..|log|] == log;
    }
  }

  lemma ClearedNow(before: seq<Event>, first: Event, made: seq<Event>, id: string, i: Input)
    requires JustRead(before, first, i.fingerprint) && |made| == 3
    requires Follows(made, LaunchCommands(i.request, id)[1..]) && AllAnswered(made)
    requires i.instance == made[2].answer.said.instance
    requires Grounded(i, id)
    ensures ClearedBy(before + made, id, i)
  {
    var log := before + made;
    assert log[|log| - 4..] == [first] + made;
  }

  lemma RefusedUnattested(first: Event, made: seq<Event>, i: Input, id: string)
    requires first.command == HostInfo && Answered(first) && i.fingerprint == Fingerprint(first.answer.said.report)
    requires |made| == 3 && AllAnswered(made) && Follows(made, LaunchCommands(i.request, id)[1..])
    requires i.instance == made[2].answer.said.instance && i.network == NO_NETWORK && i.volume == WorkspaceVolume(id)
    requires !Authorized(i)
    ensures Attempted([first] + made, i.request, id, Refused(AttestationRefused))
    ensures Unattested([first] + made, i.request, i.quotas, i.host, id)
  {
    assert i == Input(i.request, i.quotas, made[2].answer.said.instance, i.host, Fingerprint(first.answer.said.report),
                      NO_NETWORK, WorkspaceVolume(id));
    assert ([first] + made)[3] == made[2];
  }

  class SandboxProvider {
    /** The runtime's side: what exists. */
    var alive: set<Resource>
    /** The shared cache. */
    var established: Option<Capability>
    var quarantined: Option<string>
    /** Every invocation so far, with what it answered. */
    ghost var log: seq<Event>
    /** The ids ever drawn, and those of Sandboxes handed out and not torn down since. */
    var drawn: set<string>
    ghost var held: set<string>

    constructor (alive: set<Resource>)
      ensures Valid() && quarantined == None && established == None && drawn == {} && held == {}
      ensures this.alive == alive && log == []
    {
      this.alive, established, quarantined := alive, None, None;
      log, drawn, held := [], {}, {};
    }

    /** While the runtime is not quarantined, nothing any launch made is left but what
        belongs to a Sandbox still held; and nothing was started uncleared. */
    ghost predicate Valid()
      reads this
    {
      && StartsCleared(log) && held <= drawn
      && (quarantined == None ==> forall id :: id in drawn && id !in held ==> Gone(id))
    }

    predicate Gone(id: string)
      reads this
    {
      InstanceOf(id) !in alive && VolumeOf(id) !in alive
    }

    /** One invocation. Whatever it answers, it may have had its effect or not. */
    method Attempt(c: Command) returns (r: Invoked)
      requires StartsCleared(log) && (c.Start? ==> Cleared(log, c.id))
      modifies `alive, `log
      ensures log == old(log) + [Event(c, r)] && StartsCleared(log)
      ensures alive <= old(alive) + Makes(c)
      ensures r.Exited? && r.ok ==> Truthful(c, r, alive)
    {
      var after: set<Resource> := *;
      if after <= alive + Makes(c) {
        alive := after;
      }
      var said: Said := *;
      var ok: bool := *;
      var rejects: bool := *;
      r := if rejects then Rejected else Exited(ok && Truthful(c, Exited(true, said), alive), said);
      StartsClearedNext(log, Event(c, r));
      log := log + [Event(c, r)];
    }

    /** The instance, then its volume, each removed if the runtime will. A removal that exits
        badly is passed over; a rejection, `false`, ends it. */
    method Release(id: string) returns (asked: bool, ghost events: seq<Event>)
      requires StartsCleared(log)
      modifies `alive, `log
      ensures alive <= old(alive) && StartsCleared(log) && log == old(log) + events
      ensures Follows(events, CleanupCommands(id)) && 1 <= |events| <= 2
      ensures forall k :: 0 <= k < |events| - 1 ==> events[k].answer.Exited?
      ensures (asked <==> events[|events| - 1].answer.Exited?) && (asked ==> |events| == 2)
    {
      var r := Attempt(RemoveInstance(id));
      events := [Event(RemoveInstance(id), r)];
      if r.Rejected? {
        return false, events;
      }
      r := Attempt(RemoveVolume(id));
      asked, events := r.Exited?, events + [Event(RemoveVolume(id), r)];
    }

    /** What of a launch is still listed, if the listings could be had. */
    method Survivors(id: string) returns (residue: Option<set<Resource>>, ghost events: seq<Event>)
      requires StartsCleared(log)
      modifies `alive, `log
      ensures alive <= old(alive) && StartsCleared(log) && log == old(log) + events
      ensures residue.Some? ==> residue.value <= Owned(id) && forall x :: x in Owned(id) && x in alive ==> x in residue.value
      ensures Follows(events, CleanupCommands(id)[2..]) && 1 <= |events| <= 2 && (|events| == 2 ==> Answered(events[0]))
      ensures (residue.Some? <==> |events| == 2 && Answered(events[1])) && (residue == None ==> !Answered(events[|events| - 1]))
      ensures residue.Some? ==> residue.value == Named(id, events[0], events[1])
    {
      var instances := Attempt(ListInstances(id));
      events := [Event(ListInstances(id), instances)];
      if instances.Rejected? || !instances.ok {
        return None, events;
      }
      var volumes := Attempt(ListVolumes(id));
      events := events + [Event(ListVolumes(id), volumes)];
      if volumes.Rejected? || !volumes.ok {
        return None, events;
      }
      residue := Some((if Arguments.Instance(id) in Listed(instances) then {InstanceOf(id)} else {})
                      + (if WorkspaceVolume(id) in Listed(volumes) then {VolumeOf(id)} else {}));
    }

    /** The removals, and then the listings, to know what they left. Where that cannot be
        known nothing is presumed gone. */
    method Destroy(id: string) returns (residue: set<Resource>, detail: string, ghost events: seq<Event>)
      requires StartsCleared(log)
      modifies `alive, `log
      ensures alive <= old(alive) && StartsCleared(log) && log == old(log) + events
      ensures residue <= Owned(id) && forall x :: x in Owned(id) && x in alive ==> x in residue
      ensures Cleaned(events, id, residue)
    {
      var asked;
      asked, events := Release(id);
      if !asked {
        return Owned(id), "teardown could not be confirmed", events;
      }
      var left;
      ghost var listed;
      left, listed := Survivors(id);
      Grouped(old(log), events, listed);
      events := events + listed;
      if left == None {
        return Owned(id), "teardown could not be confirmed", events;
      }
      return left.value, "teardown left something behind", events;
    }

    /** A runtime that is quarantined already keeps the reason it has. */
    method Quarantine(reason: string)
      modifies `quarantined
      ensures quarantined == if old(quarantined).Some? then old(quarantined) else Some(reason)
    {
      if quarantined == None {
        quarantined := Some(reason);
      }
    }

    /** What a launch or a teardown leaves of its own resources: nothing, or a quarantine. */
    method Abandon(id: string) returns (residue: set<Resource>, ghost events: seq<Event>)
      requires StartsCleared(log)
      modifies `alive, `log, `quarantined
      ensures alive <= old(alive) && StartsCleared(log) && log == old(log) + events
      ensures Cleaned(events, id, residue) && residue <= Owned(id)
      ensures residue == {} ==> Gone(id) && quarantined == old(quarantined)
      ensures residue != {} ==> quarantined.Some? && (old(quarantined).Some? ==> quarantined == old(quarantined))
    {
      var detail;
      residue, detail, events := Destroy(id);
      if residue != {} {
        Quarantine(detail);
      }
    }

    /** The volume and the instance, and what the runtime reports of it. `None` is a fault
        anywhere on the way. */
    method CreateAndInspect(r: Request, id: string) returns (report: Option<Attestation.Instance>, ghost events: seq<Event>)
      requires StartsCleared(log)
      modifies `alive, `log
      ensures alive <= old(alive) + Owned(id) && StartsCleared(log) && log == old(log) + events
      ensures 1 <= |events| <= 3 && Follows(events, LaunchCommands(r, id)[1..]) && AllButLast(events)
      ensures report.Some? <==> Answered(events[|events| - 1])
      ensures report.Some? ==> |events| == 3 && events[2].answer.said.instance == report.value
    {
      var volume := Attempt(CreateVolume(id));
      events := [Event(CreateVolume(id), volume)];
      if volume.Rejected? || !volume.ok {
        return None, events;
      }
      var created := Attempt(Create(id, CreateArguments(r, id)));
      events := events + [Event(Create(id, CreateArguments(r, id)), created)];
      if created.Rejected? || !created.ok {
        return None, events;
      }
      var read := Attempt(Inspect(id));
      events := events + [Event(Inspect(id), read)];
      if read.Rejected? || !read.ok || !read.said.Report? {
        return None, events;
      }
      report := Some(read.said.instance);
    }

    /** The start of an instance whose Attestation is authorized. */
    method StartAttested(i: Input, id: string, ghost before: seq<Event>, ghost first: Event, ghost made: seq<Event>)
      returns (launch: Launch, ghost events: seq<Event>)
      requires StartsCleared(log) && log == before + made && JustRead(before, first, i.fingerprint)
      requires |made| == 3 && AllAnswered(made) && Follows(made, LaunchCommands(i.request, id)[1..])
      requires i.instance == made[2].answer.said.instance && Grounded(i, id)
      modifies `alive, `log
      ensures alive <= old(alive) + Owned(id) && StartsCleared(log) && log == before + events && events != []
      ensures Attempted([first] + events, i.request, id, launch)
      ensures launch == Failed || (launch == Launched(id, i) && StartedBy(log, id, i))
    {
      ClearedNow(before, first, made, id, i);
      var begun := Attempt(Start(id));
      ghost var last := Event(Start(id), begun);
      StartedNow(before + made, last, id, i);
      Grouped(before, made, [last]);
      StartEnds(first, made, last, i.request, id, i);
      events := made + [last];
      launch := if begun.Exited? && begun.ok then Launched(id, i) else Failed;
    }

    /** What is owned, attested and started, with nothing released yet. `first` is the host's
        report this launch began with. */
    method Begin(r: Request, quotas: Quotas, id: string, host: Capability, observed: seq<string>, ghost first: Event)
      returns (launch: Launch, ghost events: seq<Event>)
      requires StartsCleared(log) && JustRead(log, first, observed) && Passed(r, id, host)
      modifies `alive, `log
      ensures alive <= old(alive) + Owned(id) && StartsCleared(log) && log == old(log) + events && events != []
      ensures Attempted([first] + events, r, id, launch) && (launch.Refused? ==> launch.refusal == AttestationRefused)
      ensures Handed(launch, r, quotas, host, id, log)
      ensures launch == Refused(AttestationRefused) ==> Unattested([first] + events, r, quotas, host, id)
    {
      var report;
      report, events := CreateAndInspect(r, id);
      if report == None {
        AttemptFailed(first, events, r, id);
        return Failed, events;
      }
      AllButLastAnswered(events);
      var i := Input(r, quotas, report.value, host, observed, NO_NETWORK, WorkspaceVolume(id));
      if !Authorized(i) {
        RefusedUnattested(first, events, i, id);
        return Refused(AttestationRefused), events;
      }
      launch, events := StartAttested(i, id, old(log), first, events);
    }

    /** Every launch but this one accounted for, and this one not yet handed out. */
    ghost predicate Owning(id: string)
      reads this
    {
      && StartsCleared(log) && held <= drawn && id in drawn && id !in held && quarantined == None
      && forall other :: other in drawn && other !in held && other != id ==> Gone(other)
    }

    /** An id of this launch's own. */
    method Draw(id: string)
      requires Valid() && id !in drawn && Gone(id) && quarantined == None
      modifies `drawn
      ensures Owning(id) && Valid() && drawn == old(drawn) + {id}
    {
      drawn := drawn + {id};
    }

    twostate lemma StillOwning(id: string)
      requires old(Owning(id)) && StartsCleared(log) && alive <= old(alive) + Owned(id)
      requires held == old(held) && drawn == old(drawn) && quarantined == old(quarantined)
      ensures Owning(id)
    {
    }

    /** A Sandbox is handed out; anything else is released whole. */
    method Settle(launch: Launch, id: string) returns (ghost cleanup: seq<Event>, ghost residue: set<Resource>)
      requires Owning(id)
      modifies `alive, `log, `quarantined, `held
      ensures Valid() && alive <= old(alive) && log == old(log) + cleanup && (quarantined.Some? <==> residue != {})
      ensures if launch.Launched? then cleanup == [] && residue == {} else Cleaned(cleanup, id, residue)
      ensures held == old(held) + (if launch.Launched? then {id} else {})
      ensures !launch.Launched? ==> Gone(id) || quarantined.Some?
    {
      cleanup, residue := [], {};
      if launch.Launched? {
        held := held + {id};
      } else {
        var left;
        left, cleanup := Abandon(id);
        residue := left;
      }
    }

    /** From the first resource to the authorized start, released whole if any of it fails. */
    method Own(r: Request, quotas: Quotas, id: string, host: Capability, observed: seq<string>, ghost first: Event)
      returns (launch: Launch, ghost events: seq<Event>, ghost trail: Trail)
      requires Owning(id) && Gone(id) && JustRead(log, first, observed) && Passed(r, id, host)
      modifies `alive, `log, `quarantined, `held
      ensures Valid() && alive <= old(alive) + Owned(id) && log == old(log) + events
      ensures launch.Refused? ==> launch.refusal == AttestationRefused
      ensures [first] + events == trail.own + trail.cleanup && |trail.own| > 1 && trail.own[0] == first && Ran(trail, r, id, launch)
      ensures quarantined.Some? <==> trail.residue != {}
      ensures Handed(launch, r, quotas, host, id, log)
      ensures held == old(held) + if launch.Launched? then {id} else {}
      ensures !launch.Launched? ==> Gone(id) || quarantined.Some?
      ensures launch == Refused(AttestationRefused) ==> Unattested(trail.own, r, quotas, host, id)
    {
      launch, events := Begin(r, quotas, id, host, observed, first);
      StillOwning(id);
      ghost var begun := log;
      ghost var cleanup, residue := Settle(launch, id);
      trail := Trail([first] + events, cleanup, residue);
      TrailRan(first, events, cleanup, residue, r, id, launch);
      NoneAfter(begun);
      Grouped(old(log), events, cleanup);
      events := events + cleanup;
    }

    /** The host, read afresh. `None` is a fault. */
    method ReadHost() returns (report: Option<HostReport>, ghost first: Event)
      requires StartsCleared(log)
      modifies `alive, `log
      ensures alive <= old(alive) && StartsCleared(log) && log == old(log) + [first]
      ensures first.command == HostInfo && (report.Some? <==> Answered(first))
      ensures report.Some? ==> first.answer.said == Said.Host(report.value)
    {
      var r := Attempt(HostInfo);
      first := Event(HostInfo, r);
      if r.Rejected? || !r.ok || !r.said.Host? {
        return None, first;
      }
      report := Some(r.said.report);
    }

    /** `capability`: what is remembered of the host, or what is read of it now. */
    method Measure() returns (host: Option<Capability>, ghost events: seq<Event>)
      requires Valid()
      modifies `alive, `log, `established
      ensures Valid() && alive <= old(alive) && log == old(log) + events && established == host
      ensures old(established).Some? ==> host == old(established) && events == []
      ensures old(established) == None ==>
        && |events| == 1 && events[0].command == HostInfo
        && host == if Answered(events[0]) then Some(Establish(events[0].answer.said.report)) else None
    {
      events := [];
      if established == None {
        var report;
        ghost var first;
        report, first := ReadHost();
        events := [first];
        if report.Some? {
          established := Some(Establish(report.value));
        }
      }
      host := established;
    }

    /** What a launch that drew this id invoked, says and leaves. */
    twostate predicate Concluded(launch: Launch, trail: Trail, r: Request, quotas: Quotas, id: string)
      reads this
    {
      && Valid() && alive <= old(alive) + Owned(id) && drawn == old(drawn) + (if Drew(trail, launch) then {id} else {})
      && log == old(log) + (trail.own + trail.cleanup) && Ran(trail, r, id, launch)
      && (old(quarantined) == None ==> (quarantined.Some? <==> trail.residue != {}))
      && (launch.Launched? ==>
        && launch.id == id && IsOf(launch.attested, r, quotas, launch.attested.host, id) && StartedBy(log, id, launch.attested)
        && held == old(held) + {id})
      && (!launch.Launched? ==> held == old(held) && (Gone(id) || quarantined.Some?))
    }

    /** Gates 5 to 10: the vector, its audit, and the resources. */
    method LaunchRendered(r: Request, quotas: Quotas, id: string, host: Capability, observed: seq<string>, ghost first: Event)
      returns (launch: Launch, ghost events: seq<Event>, ghost trail: Trail)
      requires Valid() && id !in drawn && Gone(id) && quarantined == None
      requires JustRead(log, first, observed) && Accepted(r) && HostSatisfied(host)
      modifies `alive, `log, `quarantined, `held, `drawn
      ensures Valid() && alive <= old(alive) + Owned(id) && drawn == old(drawn) + {id} && log == old(log) + events
      ensures [first] + events == trail.own + trail.cleanup && trail.own != [] && trail.own[0] == first && Ran(trail, r, id, launch)
      ensures quarantined.Some? <==> trail.residue != {}
      ensures Handed(launch, r, quotas, host, id, log)
      ensures held == old(held) + if launch.Launched? then {id} else {}
      ensures !launch.Launched? ==> Gone(id) || quarantined.Some?
      ensures launch == Refused(AuditRefused) <==> !Audited(Options(r, id))
      ensures launch.Refused? ==> launch.refusal == AuditRefused || launch.refusal == AttestationRefused
      ensures launch == Refused(AttestationRefused) ==> Unattested(trail.own, r, quotas, host, id)
      ensures Drew(trail, launch)
    {
      Draw(id);
      if !Audited(Options(r, id)) {
        EndedOnHost(first, r, id, Refused(AuditRefused));
        NoneAfter(log);
        return Refused(AuditRefused), [], Trail([first], [], {});
      }
      launch, events, trail := Own(r, quotas, id, host, observed, first);
    }

    /** Gates 3 and 4: what the host can do, and whether it is still that host. A host that
        drifted loses its capability. */
    method CheckHost(report: HostReport) returns (host: Capability, refused: Option<Refusal>)
      modifies `established
      ensures host == HostOf(report, old(established))
      ensures refused == Some(HostRefused) <==> !HostSatisfied(host)
      ensures refused == Some(FingerprintDrifted) <==> HostSatisfied(host) && Fingerprint(report) != host.fingerprint
      ensures refused.Some? ==> refused.value in {HostRefused, FingerprintDrifted}
      ensures established == if refused == Some(FingerprintDrifted) then None else Some(host)
    {
      if established == None {
        established := Some(Establish(report));
      }
      host := established.value;
      if !HostSatisfied(host) {
        return host, Some(HostRefused);
      }
      if Fingerprint(report) != host.fingerprint {
        established := None;
        return host, Some(FingerprintDrifted);
      }
      refused := None;
    }

    /** From the host's report on. */
    method LaunchOnHost(r: Request, quotas: Quotas, newId: string) returns (launch: Launch, ghost trail: Trail)
      requires Valid() && newId !in drawn && Gone(newId) && quarantined == None && Accepted(r)
      modifies this
      ensures Concluded(launch, trail, r, quotas, newId) && trail.own != []
      ensures !Answered(trail.own[0]) ==> established == old(established)
      ensures Answered(trail.own[0]) ==> Gated(trail.own[0].answer.said.report, old(established), launch, established)
      ensures launch == Refused(AuditRefused) ==> !Audited(Options(r, newId))
      ensures FairlyRefused(trail.own, r, quotas, old(established), newId, launch)
    {
      var report;
      ghost var first;
      report, first := ReadHost();
      trail := Trail([first], [], {});
      if report == None {
        EndedOnHost(first, r, newId, Failed);
        return Failed, trail;
      }
      var host, refused := CheckHost(report.value);
      if refused.Some? {
        EndedOnHost(first, r, newId, Refused(refused.value));
        return Refused(refused.value), trail;
      }
      ghost var events;
      launch, events, trail := LaunchRendered(r, quotas, newId, host, Fingerprint(report.value), first);
      Grouped(old(log), [first], events);
    }

    /** One launch. A quarantined runtime, and a request that is refused, are never so much
        as invoked, and whatever does not end in a Sandbox leaves nothing behind, or a
        quarantine that says so. */
    method LaunchSandbox(r: Request, quotas: Quotas, newId: string) returns (launch: Launch, ghost trail: Trail)
      requires Valid() && newId !in drawn && Gone(newId)
      modifies this
      ensures Concluded(launch, trail, r, quotas, newId)
      ensures old(quarantined).Some? <==> launch == Refused(Quarantined)
      ensures old(quarantined) == None ==> (!Accepted(r) <==> launch == Refused(RequestRefused))
      ensures launch == Refused(Quarantined) || launch == Refused(RequestRefused) ==> Now() == old(Now())
      ensures trail.own != [] && Answered(trail.own[0]) ==>
        Gated(trail.own[0].answer.said.report, old(established), launch, established)
      ensures launch == Refused(AuditRefused) ==> !Audited(Options(r, newId))
      ensures FairlyRefused(trail.own, r, quotas, old(established), newId, launch)
    {
      trail := Trail([], [], {});
      NoneAfter([]);
      NoneAfter(log);
      if quarantined.Some? {
        return Refused(Quarantined), trail;
      }
      if !Accepted(r) {
        return Refused(RequestRefused), trail;
      }
      launch, trail := LaunchOnHost(r, quotas, newId);
    }

    /** A Sandbox's teardown. Its accesses are closed first, and a close that fails
        quarantines by itself; the resources are destroyed either way. */
    method TeardownSandbox(id: string, accessCloses: bool)
      returns (t: Teardown, ghost residue: set<Resource>, ghost events: seq<Event>)
      requires Valid() && id in drawn
      modifies this
      ensures Valid() && held == old(held) - {id} && alive <= old(alive) && drawn == old(drawn) && established == old(established)
      ensures log == old(log) + events && Cleaned(events, id, residue)
      ensures t == if residue != {} then Incomplete(residue) else if accessCloses then TornDown else CleanupFailed
      ensures t == TornDown ==> Gone(id) && quarantined == old(quarantined)
      ensures t != TornDown ==> quarantined.Some?
      ensures old(quarantined).Some? ==> quarantined == old(quarantined)
    {
      if !accessCloses {
        Quarantine("Sandbox host access cleanup failed");
      }
      var left;
      left, events := Abandon(id);
      residue := left;
      held := held - {id};
      if left != {} {
        t := Incomplete(left);
      } else {
        t := if accessCloses then TornDown else CleanupFailed;
      }
    }

    lemma ValidAccounts()
      requires Valid()
      ensures Accounted(Now())
    {
    }

    ghost function Now(): Moment
      reads this
    {
      Moment(alive, quarantined, established, log, drawn, held)
    }
  }

  // --- any sequence of them --------------------------------------------------------------

  datatype Act =
    | DoMeasure
    | DoLaunch(request: Request, quotas: Quotas, id: string)
    | DoTeardown(id: string, accessCloses: bool)

  function DrawnBy(act: Act): set<string> { if act.DoLaunch? then {act.id} else {} }

  function OwnedBy(act: Act): set<Resource> { if act.DoLaunch? then Owned(act.id) else {} }

  datatype Came = Nothing | MeasureCame(host: Option<Capability>) | LaunchCame(launch: Launch) | TeardownCame(teardown: Teardown)

  /** A provider between two acts. */
  datatype Moment = Moment(
    alive: set<Resource>, quarantined: Option<string>, established: Option<Capability>, log: seq<Event>, drawn: set<string>,
    held: set<string>)

  ghost predicate Accounted(m: Moment) {
    && StartsCleared(m.log)
    && (m.quarantined == None ==> forall id :: id in m.drawn && id !in m.held ==> m.alive !! Owned(id))
  }

  predicate StartsNothing(events: seq<Event>) { forall k :: 0 <= k < |events| ==> !events[k].command.Start? }

  /** From one moment to a later one: nothing invoked is forgotten, a quarantine keeps its
      reason, and under one nothing is started. */
  ghost predicate Onward(a: Moment, b: Moment) {
    && a.drawn <= b.drawn && a.log <= b.log
    && (a.quarantined.Some? ==> b.quarantined == a.quarantined && StartsNothing(b.log[|a.log|..]))
  }

  lemma OnwardOnward(a: Moment, b: Moment, c: Moment)
    requires Onward(a, b) && Onward(b, c)
    ensures Onward(a, c)
  {
    assert c.log[|a.log|..] == b.log[|a.log|..] + c.log[|b.log|..];
  }

  lemma OnwardBy(a: Moment, b: Moment, events: seq<Event>)
    requires a.drawn <= b.drawn && b.log == a.log + events
    requires a.quarantined.Some? ==> b.quarantined == a.quarantined && StartsNothing(events)
    ensures Onward(a, b)
  {
    assert b.log[|a.log|..] == events;
  }

  /** A cleanup starts nothing. */
  lemma CleanupStartsNothing(events: seq<Event>, id: string)
    requires Follows(events, CleanupCommands(id))
    ensures StartsNothing(events)
  {
  }

  /** What a measurement comes to. */
  ghost predicate MeasureActed(a: Moment, host: Option<Capability>, events: seq<Event>, b: Moment) {
    && b == a.(alive := b.alive, log := a.log + events, established := host) && b.alive <= a.alive
    && if a.established.Some? then host == a.established && events == []
       else
         && |events| == 1 && events[0].command == HostInfo
         && host == if Answered(events[0]) then Some(Establish(events[0].answer.said.report)) else None
  }

  /** What a launch comes to: what it invoked, what it says, why it refused, and what it
      leaves of its own. */
  ghost predicate LaunchActed(a: Moment, r: Request, q: Quotas, id: string, launch: Launch, trail: Trail, b: Moment) {
    && b.log == a.log + (trail.own + trail.cleanup) && Ran(trail, r, id, launch)
    && (launch == Refused(Quarantined) <==> a.quarantined.Some?)
    && (a.quarantined.Some? || !Accepted(r) ==> b == a)
    && (a.quarantined == None ==> (b.quarantined.Some? <==> trail.residue != {}))
    && b.held == a.held + (if launch.Launched? then {id} else {})
    && id !in a.drawn && b.drawn == a.drawn + (if Drew(trail, launch) then {id} else {})
    && b.alive <= a.alive + Owned(id) && (!launch.Launched? ==> b.quarantined.Some? || b.alive !! Owned(id))
    && FairlyRefused(trail.own, r, q, a.established, id, launch)
    && (trail.own != [] && Answered(trail.own[0]) ==>
      trail.own[0].command.HostInfo? && Gated(trail.own[0].answer.said.report, a.established, launch, b.established))
    && (launch.Launched? ==>
      launch.id == id && IsOf(launch.attested, r, q, launch.attested.host, id) && StartedBy(b.log, id, launch.attested))
  }

  /** What a teardown comes to. */
  ghost predicate TeardownActed(
    a: Moment, id: string, closes: bool, t: Teardown, residue: set<Resource>, events: seq<Event>, b: Moment)
  {
    && b.log == a.log + events && Cleaned(events, id, residue) && b.held == a.held - {id}
    && b.alive <= a.alive && b.drawn == a.drawn && b.established == a.established
    && t == (if residue != {} then Incomplete(residue) else if closes then TornDown else CleanupFailed)
    && if t == TornDown then b.alive !! Owned(id) && b.quarantined == a.quarantined else b.quarantined.Some?
  }

  /** What one act comes to. */
  ghost predicate Acted(a: Moment, act: Act, came: Came, b: Moment) {
    match act
    case DoMeasure => came.MeasureCame? && exists events :: MeasureActed(a, came.host, events, b)
    case DoLaunch(r, q, id) => came.LaunchCame? && exists trail :: LaunchActed(a, r, q, id, came.launch, trail, b)
    case DoTeardown(id, closes) =>
      if id !in a.drawn then came == Nothing && b == a
      else came.TeardownCame? && exists residue, events :: TeardownActed(a, id, closes, came.teardown, residue, events, b)
  }

  method PerformMeasure(p: SandboxProvider) returns (host: Option<Capability>, ghost events: seq<Event>)
    requires p.Valid()
    modifies p
    ensures p.Valid() && Onward(old(p.Now()), p.Now())
    ensures MeasureActed(old(p.Now()), host, events, p.Now())
  {
    ghost var before := p.Now();
    host, events := p.Measure();
    OnwardBy(before, p.Now(), events);
  }

  method PerformLaunch(p: SandboxProvider, r: Request, q: Quotas, id: string) returns (launch: Launch, ghost trail: Trail)
    requires p.Valid() && p.Gone(id) && id !in p.drawn
    modifies p
    ensures p.Valid() && Onward(old(p.Now()), p.Now())
    ensures LaunchActed(old(p.Now()), r, q, id, launch, trail, p.Now())
    ensures p.alive <= old(p.alive) + Owned(id) && p.drawn <= old(p.drawn) + {id}
  {
    ghost var before := p.Now();
    launch, trail := p.LaunchSandbox(r, q, id);
    OnwardBy(before, p.Now(), trail.own + trail.cleanup);
  }

  method PerformTeardown(p: SandboxProvider, id: string, closes: bool)
    returns (t: Teardown, ghost residue: set<Resource>, ghost events: seq<Event>)
    requires p.Valid() && id in p.drawn
    modifies p
    ensures p.Valid() && Onward(old(p.Now()), p.Now())
    ensures TeardownActed(old(p.Now()), id, closes, t, residue, events, p.Now())
    ensures p.alive <= old(p.alive) && p.drawn == old(p.drawn)
  {
    ghost var before := p.Now();
    t, residue, events := p.TeardownSandbox(id, closes);
    CleanupStartsNothing(events, id);
    OnwardBy(before, p.Now(), events);
  }

  /** One act. */
  method Perform(p: SandboxProvider, act: Act) returns (ghost came: Came)
    requires p.Valid() && p.alive !! OwnedBy(act) && p.drawn !! DrawnBy(act)
    modifies p
    ensures p.Valid() && Accounted(p.Now()) && Onward(old(p.Now()), p.Now()) && Acted(old(p.Now()), act, came, p.Now())
    ensures p.alive <= old(p.alive) + OwnedBy(act) && p.drawn <= old(p.drawn) + DrawnBy(act)
  {
    ghost var before := p.Now();
    came := Nothing;
    OnwardBy(before, before, []);
    match act {
      case DoMeasure =>
        var host;
        ghost var events;
        host, events := PerformMeasure(p);
        came := MeasureCame(host);
      case DoLaunch(request, quotas, id) =>
        var launch;
        ghost var trail;
        launch, trail := PerformLaunch(p, request, quotas, id);
        came := LaunchCame(launch);
      case DoTeardown(id, closes) =>
        if id in p.drawn {
          var t;
          ghost var residue, events;
          t, residue, events := PerformTeardown(p, id, closes);
          came := TeardownCame(t);
        }
    }
    p.ValidAccounts();
  }

  // --- the moments of a sequence ---------------------------------------------------------

  ghost predicate AllAccounted(run: seq<Moment>) { forall k {:trigger Accounted(run[k])} :: 0 <= k < |run| ==> Accounted(run[k]) }

  ghost predicate AllOnward(run: seq<Moment>) {
    forall j, k {:trigger Onward(run[j], run[k])} :: 0 <= j <= k < |run| ==> Onward(run[j], run[k])
  }

  ghost predicate AllActed(run: seq<Moment>, acts: seq<Act>, came: seq<Came>)
    requires |run| == |came| + 1 && |came| <= |acts|
  {
    forall k {:trigger came[k]} :: 0 <= k < |came| ==> Acted(run[k], acts[k], came[k], run[k + 1])
  }

  ghost predicate History(run: seq<Moment>, acts: seq<Act>, came: seq<Came>) {
    |run| == |came| + 1 && |came| <= |acts| && AllAccounted(run) && AllOnward(run) && AllActed(run, acts, came)
  }

  lemma OneMoreMoment(run: seq<Moment>, acts: seq<Act>, came: seq<Came>, m: Moment, c: Came)
    requires History(run, acts, came) && |came| < |acts| && Accounted(m)
    requires Onward(run[|came|], m) && Acted(run[|came|], acts[|came|], c, m)
    ensures History(run + [m], acts, came + [c])
  {
    OneMoreAccounted(run, m);
    OneMoreOnward(run, m);
    OneMoreActed(run, acts, came, m, c);
  }

  lemma FirstMoment(m: Moment, acts: seq<Act>)
    requires Accounted(m)
    ensures History([m], acts, [])
  {
    OnwardBy(m, m, []);
  }

  lemma OneMoreAccounted(run: seq<Moment>, m: Moment)
    requires AllAccounted(run) && Accounted(m)
    ensures AllAccounted(run + [m])
  {
    var longer := run + [m];
    forall k | 0 <= k < |longer| ensures Accounted(longer[k]) {
      assert k < |run| ==> Accounted(run[k]);
    }
  }

  lemma OneMoreOnward(run: seq<Moment>, m: Moment)
    requires run != [] && AllOnward(run) && Onward(run[|run| - 1], m)
    ensures AllOnward(run + [m])
  {
    OnwardBy(m, m, []);
    var longer := run + [m];
    forall j, k | 0 <= j <= k < |longer| ensures Onward(longer[j], longer[k]) {
      if j < |run| {
        assert Onward(run[j], run[if k < |run| then k else |run| - 1]);
        OnwardOnward(run[j], run[|run| - 1], m);
      }
    }
  }

  lemma OneMoreActed(run: seq<Moment>, acts: seq<Act>, came: seq<Came>, m: Moment, c: Came)
    requires |run| == |came| + 1 && |came| < |acts| && AllActed(run, acts, came)
    requires Acted(run[|came|], acts[|came|], c, m)
    ensures AllActed(run + [m], acts, came + [c])
  {
    var longer, all := run + [m], came + [c];
    forall k | 0 <= k < |all| ensures Acted(longer[k], acts[k], all[k], longer[k + 1]) {
      assert k < |came| ==> longer[k] == run[k] && longer[k + 1] == run[k + 1] && all[k] == came[k];
    }
  }

  /** Once quarantined, a launch changes nothing, and says why. */
  lemma QuarantineHolds(run: seq<Moment>, acts: seq<Act>, came: seq<Came>, j: nat, k: nat)
    requires History(run, acts, came)
    requires j <= k < |came| && run[j].quarantined.Some? && acts[k].DoLaunch?
    ensures run[k + 1] == run[k] && came[k] == LaunchCame(Refused(Quarantined))
  {
    assert Onward(run[j], run[k]);
    assert Acted(run[k], acts[k], came[k], run[k + 1]);
  }

  // --- what was given up stays gone ------------------------------------------------------

  /** A launch that did not end in a Sandbox, or a Sandbox that was torn down. */
  predicate GivenUp(act: Act, came: Came) {
    || (act.DoLaunch? && came.LaunchCame? && !came.launch.Launched?)
    || (act.DoTeardown? && came == TeardownCame(TornDown))
  }

  predicate Clear(m: Moment, id: string) { m.quarantined.Some? || m.alive !! Owned(id) }

  lemma GivenUpIsClear(a: Moment, act: Act, came: Came, b: Moment)
    requires Acted(a, act, came, b) && GivenUp(act, came)
    ensures Clear(b, act.id) && (act.DoTeardown? ==> act.id in a.drawn)
  {
  }

  /** No other act brings back what is gone. */
  lemma OthersLeaveClear(a: Moment, act: Act, came: Came, b: Moment, id: string)
    requires Acted(a, act, came, b) && Onward(a, b) && Clear(a, id) && (act.DoLaunch? ==> act.id != id)
    ensures Clear(b, id)
  {
    assert b.alive <= a.alive + OwnedBy(act);
  }

  lemma {:induction false} StaysClear(run: seq<Moment>, acts: seq<Act>, came: seq<Came>, id: string, k: nat, m: nat)
    requires History(run, acts, came) && k <= m < |run| && Clear(run[k], id)
    requires forall j :: k <= j < m && acts[j].DoLaunch? ==> acts[j].id != id
    ensures Clear(run[m], id)
    decreases m
  {
    if k < m {
      StaysClear(run, acts, came, id, k, m - 1);
      ActedAt(run, acts, came, m - 1);
      OthersLeaveClear(run[m - 1], acts[m - 1], came[m - 1], run[m], id);
    }
  }

  lemma ActedAt(run: seq<Moment>, acts: seq<Act>, came: seq<Came>, k: nat)
    requires History(run, acts, came) && k < |came|
    ensures Acted(run[k], acts[k], came[k], run[k + 1]) && Onward(run[k], run[k + 1])
  {
    assert came[k] == came[k];
  }

  /** An id once drawn is never launched again. */
  lemma DrawnOnce(run: seq<Moment>, acts: seq<Act>, came: seq<Came>, k: nat, j: nat)
    requires History(run, acts, came) && k <= j < |came| && acts[j].DoLaunch?
    ensures acts[j].id !in run[k].drawn
  {
    ActedAt(run, acts, came, j);
    assert Onward(run[k], run[j]);
  }

  lemma NeverAgain(run: seq<Moment>, acts: seq<Act>, came: seq<Came>, k: nat, j: nat)
    requires History(run, acts, came) && Distinct(acts)
    requires k < j < |came| && acts[j].DoLaunch? && GivenUp(acts[k], came[k])
    ensures acts[j].id != acts[k].id
  {
    if acts[k].DoTeardown? {
      ActedAt(run, acts, came, k);
      GivenUpIsClear(run[k], acts[k], came[k], run[k + 1]);
      DrawnOnce(run, acts, came, k, j);
    }
  }

  lemma ClearAfter(run: seq<Moment>, acts: seq<Act>, came: seq<Came>, k: nat)
    requires History(run, acts, came) && k < |came| && GivenUp(acts[k], came[k])
    ensures Clear(run[k + 1], acts[k].id)
  {
    ActedAt(run, acts, came, k);
    GivenUpIsClear(run[k], acts[k], came[k], run[k + 1]);
  }

  /** Every instance and volume of a launch that was refused or failed, or of a Sandbox that
      was torn down, is gone at every later moment at which the runtime is not quarantined. */
  lemma GivenUpStaysGone(run: seq<Moment>, acts: seq<Act>, came: seq<Came>, k: nat, m: nat)
    requires History(run, acts, came) && Distinct(acts)
    requires k < m < |run| && GivenUp(acts[k], came[k]) && run[m].quarantined == None
    ensures run[m].alive !! Owned(acts[k].id)
  {
    ClearAfter(run, acts, came, k);
    forall j | k + 1 <= j < m && acts[j].DoLaunch? ensures acts[j].id != acts[k].id {
      NeverAgain(run, acts, came, k, j);
    }
    StaysClear(run, acts, came, acts[k].id, k + 1, m);
  }

  /** The ids the acts from `k` on will draw are nobody's yet. */
  predicate Fresh(acts: seq<Act>, k: nat, alive: set<Resource>, drawn: set<string>) {
    forall i :: k <= i < |acts| && acts[i].DoLaunch? ==> alive !! Owned(acts[i].id) && acts[i].id !in drawn
  }

  predicate Distinct(acts: seq<Act>) {
    forall i, j :: 0 <= i < j < |acts| && acts[i].DoLaunch? && acts[j].DoLaunch? ==> acts[i].id != acts[j].id
  }

  lemma StillFresh(acts: seq<Act>, k: nat, a: Moment, b: Moment)
    requires k < |acts| && Distinct(acts) && Fresh(acts, k, a.alive, a.drawn)
    requires b.alive <= a.alive + OwnedBy(acts[k]) && b.drawn <= a.drawn + DrawnBy(acts[k])
    ensures Fresh(acts, k + 1, b.alive, b.drawn)
  {
  }

  /** Over any sequence of measurements, launches and teardowns, at every moment of it: while
      the runtime is not quarantined, every instance and volume of a launch that was refused
      or failed, or whose Sandbox was torn down, is gone; from the moment it is quarantined on
      it stays so for that reason, no launch invokes anything or is answered otherwise, and
      nothing is started; and no instance was ever started but after an authorized Attestation
      of what its own launch had just inspected. */
  method Drive(p: SandboxProvider, acts: seq<Act>) returns (ghost run: seq<Moment>, ghost came: seq<Came>)
    requires p.Valid()
    requires Distinct(acts) && Fresh(acts, 0, p.alive, p.drawn)
    modifies p
    ensures p.Valid()
    ensures |run| == |acts| + 1 && |came| == |acts| && run[0] == old(p.Now()) && run[|acts|] == p.Now()
    ensures History(run, acts, came)
    ensures forall k, m :: 0 <= k < m <= |acts| && GivenUp(acts[k], came[k]) && run[m].quarantined == None ==>
      run[m].alive !! Owned(acts[k].id)
    ensures forall j, k :: 0 <= j <= k < |acts| && run[j].quarantined.Some? && acts[k].DoLaunch? ==>
      run[k + 1] == run[k] && came[k] == LaunchCame(Refused(Quarantined))
  {
    run, came := [p.Now()], [];
    p.ValidAccounts();
    FirstMoment(p.Now(), acts);
    for k := 0 to |acts|
      invariant p.Valid() && |run| == k + 1 && |came| == k && run[0] == old(p.Now()) && run[k] == p.Now()
      invariant Fresh(acts, k, p.alive, p.drawn)
      invariant History(run, acts, came)
    {
      ghost var before := p.Now();
      ghost var c := Perform(p, acts[k]);
      StillFresh(acts, k, before, p.Now());
      OneMoreMoment(run, acts, came, p.Now(), c);
      run, came := run + [p.Now()], came + [c];
    }
    forall k, m | 0 <= k < m <= |acts| && GivenUp(acts[k], came[k]) && run[m].quarantined == None
      ensures run[m].alive !! Owned(acts[k].id)
    {
      GivenUpStaysGone(run, acts, came, k, m);
    }
    forall j, k | 0 <= j <= k < |acts| && run[j].quarantined.Some? && acts[k].DoLaunch?
      ensures run[k + 1] == run[k] && came[k] == LaunchCame(Refused(Quarantined))
    {
      QuarantineHolds(run, acts, came, j, k);
    }
  }
}
