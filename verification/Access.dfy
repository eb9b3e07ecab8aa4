/** Host-side access to one Sandbox (packages/sandbox-container/src/access.ts). Each method
    is one uninterrupted stretch of the event loop; between any two, any other may run. */
module Access {
  import opened Basics

  /** The identity of a setup, and of the resource it makes. */
  type Id = nat

  datatype Kind = Proxy | Endpoint

  datatype Closing =
    | NotClosing
    /** Waiting for the setups under way when it was first asked. */
    | Awaiting(registered: set<Id>)
    /** Every release called, and these not yet settled. */
    | Releasing(unsettled: set<Id>, rejected: bool)
    | Settled(rejected: bool)

  class SandboxAccess {
    const streaming: bool
    var closeRequested: bool
    var closing: Closing
    var registrations: map<Id, Kind>
    var processes: set<Id>
    var endpoints: set<Id>
    var proxies: set<Id>
    var next: Id
    /** What exists because of this access: resources whose setup succeeded, and processes. */
    ghost var made: set<Id>
    /** How often the release of each was called. */
    ghost var released: multiset<Id>

    constructor (streaming: bool)
      ensures Valid() && !closeRequested && made == {} && released == multiset{} && closing == NotClosing
      ensures this.streaming == streaming && registrations == map[] && next == 0
    {
      this.streaming, closeRequested, closing := streaming, false, NotClosing;
      registrations, processes, endpoints, proxies, next := map[], {}, {}, {}, 0;
      made, released := {}, multiset{};
    }

    ghost function Holding(): set<Id>
      reads this
    {
      proxies + endpoints + processes
    }

    ghost predicate Valid()
      reads this
    {
      && (closeRequested <==> closing != NotClosing)
      && (forall id :: id in registrations || id in made ==> id < next)
      && registrations.Keys !! made
      && proxies !! endpoints && proxies !! processes && endpoints !! processes
      && match closing
        case NotClosing => Holding() == made && released == multiset{}
        case Awaiting(registered) => Holding() == made && released == multiset{} && registrations.Keys <= registered
        case Releasing(unsettled, _) =>
          Holding() == made && released == multiset(made) && registrations == map[] && unsettled <= made
        case Settled(_) => Holding() == {} && released == multiset(made) && registrations == map[]
    }

    /** `openProxy` and `exposePort`, as far as their registration: both refuse once a close
        was requested. */
    method Establish(kind: Kind) returns (registered: Option<Id>)
      requires Valid()
      modifies this
      ensures Valid() && made == old(made) && released == old(released) && closing == old(closing)
      ensures registered == (if closeRequested then None else Some(old(next)))
      ensures next == old(next) + (if closeRequested then 0 else 1)
      ensures registrations == if registered.Some? then old(registrations)[registered.value := kind] else old(registrations)
    {
      if closeRequested {
        return None;
      }
      registered := Some(next);
      registrations := registrations[next := kind];
      next := next + 1;
    }

    /** A setup settling. A resource it made is kept whether or not a close was requested
        meanwhile; it is only handed out if none was. */
    method Complete(id: Id, succeeded: bool) returns (handedOut: bool)
      requires Valid() && id in registrations
      modifies this
      ensures Valid() && closing == old(closing) && released == old(released)
      ensures made == old(made) + (if succeeded then {id} else {})
      ensures handedOut <==> succeeded && !closeRequested
      ensures registrations == old(registrations) - {id} && next == old(next)
    {
      if succeeded {
        match registrations[id] {
          case Proxy => proxies := proxies + {id};
          case Endpoint => endpoints := endpoints + {id};
        }
        made := made + {id};
      }
      handedOut := succeeded && !closeRequested;
      registrations := registrations - {id};
    }

    /** Starts a process, unless the access is closed, the runtime cannot stream, or the
        spawn throws. */
    method Start(spawns: bool) returns (process: Option<Id>)
      requires Valid()
      modifies this
      ensures Valid() && closing == old(closing) && released == old(released) && registrations == old(registrations)
      ensures process == (if !closeRequested && streaming && spawns then Some(old(next)) else None)
      ensures next == old(next) + (if process.Some? then 1 else 0)
      ensures made == old(made) + if process.Some? then {process.value} else {}
    {
      if closeRequested || !streaming || !spawns {
        return None;
      }
      process := Some(next);
      processes := processes + {next};
      made := made + {next};
      next := next + 1;
    }

    /** The first call begins the one release there is; every call gets that one's answer. */
    method Close()
      requires Valid()
      modifies this
      ensures Valid() && closeRequested && made == old(made) && released == old(released)
      ensures registrations == old(registrations) && next == old(next)
      ensures closing == if old(closing) == NotClosing then Awaiting(registrations.Keys) else old(closing)
    {
      closeRequested := true;
      if closing == NotClosing {
        closing := Awaiting(registrations.Keys);
      }
    }

    /** One resource's own release being called: `close` of a proxy or an endpoint, `kill` of
        a process. */
    method Dispose(id: Id)
      modifies this`released
      ensures released == old(released) + multiset{id}
    {
      released := released + multiset{id};
    }

    /** The release of each of these, one call after another. */
    method DisposeAll(ids: set<Id>)
      modifies this`released
      ensures released == old(released) + multiset(ids)
    {
      var left := ids;
      while left != {}
        invariant left <= ids && released == old(released) + multiset(ids - left)
      {
        var id :| id in left;
        Dispose(id);
        assert ids - (left - {id}) == (ids - left) + {id};
        left := left - {id};
      }
      assert ids - left == ids;
    }

    /** Once the setups it waited for have settled, what the three sets hold is released, a
        call for each. */
    method Release() returns (called: bool)
      requires Valid()
      modifies this
      ensures Valid() && made == old(made) && registrations == old(registrations) && next == old(next)
      ensures called <==> old(closing).Awaiting? && old(closing).registered !! old(registrations).Keys
      ensures called ==> closing == Releasing(made, false) && released == multiset(made)
      ensures !called ==> closing == old(closing) && released == old(released)
    {
      if !closing.Awaiting? || exists id :: id in closing.registered && id in registrations {
        return false;
      }
      assert registrations == map[];
      DisposeAll(proxies);
      DisposeAll(endpoints);
      DisposeAll(processes);
      assert released == multiset(Holding());
      closing := Releasing(proxies + endpoints + processes, false);
      called := true;
    }

    /** One release settling, for better or worse. */
    method ReleaseSettles(id: Id, rejects: bool)
      requires Valid()
      modifies this
      ensures Valid() && made == old(made) && released == old(released)
      ensures registrations == old(registrations) && next == old(next)
      ensures closing ==
        if old(closing).Releasing? && id in old(closing).unsettled
        then Releasing(old(closing).unsettled - {id}, old(closing).rejected || rejects) else old(closing)
    {
      if closing.Releasing? && id in closing.unsettled {
        closing := Releasing(closing.unsettled - {id}, closing.rejected || rejects);
      }
    }

    /** When all have settled the close does, having rejected if any of them did. */
    method CloseSettles() returns (settled: bool)
      requires Valid()
      modifies this
      ensures Valid() && made == old(made) && released == old(released)
      ensures registrations == old(registrations) && next == old(next)
      ensures settled <==> old(closing).Releasing? && old(closing).unsettled == {}
      ensures closing == if settled then Settled(old(closing).rejected) else old(closing)
    {
      if !closing.Releasing? || closing.unsettled != {} {
        return false;
      }
      closing := Settled(closing.rejected);
      proxies, endpoints, processes := {}, {}, {};
      settled := true;
    }
  }

  datatype Event =
    | Asked(kind: Kind)
    | Completed(id: Id, succeeded: bool)
    | Started(spawns: bool)
    | CloseAsked
    | ReleaseTurn
    | Settles(id: Id, rejects: bool)
    | CloseTurn

  /** What a sequence of events makes, told from the events alone: the next identity, whether
      a close was requested, the setups under way, and what there is. */
  datatype Account = Account(next: Id, closed: bool, underWay: set<Id>, made: set<Id>)

  function Counting(a: Account, event: Event, streaming: bool): Account {
    match event
    case Asked(_) => if a.closed then a else a.(next := a.next + 1, underWay := a.underWay + {a.next})
    case Completed(id, succeeded) =>
      if id !in a.underWay then a
      else a.(underWay := a.underWay - {id}, made := a.made + if succeeded then {id} else {})
    case Started(spawns) =>
      if a.closed || !streaming || !spawns then a else a.(next := a.next + 1, made := a.made + {a.next})
    case CloseAsked => a.(closed := true)
    case _ => a
  }

  function Counted(events: seq<Event>, streaming: bool): Account {
    if events == [] then Account(0, false, {}, {})
    else Counting(Counted(events[..|events| - 1], streaming), events[|events| - 1], streaming)
  }

  /** What became of the releases: of which resources they have settled, and whether any of
      them rejected. */
  datatype Settlement = Settlement(of: set<Id>, rejected: bool)

  /** However the events interleave: when the close has settled, every resource whose setup
      succeeded and every process that was started has been released by it exactly once,
      setups that finished after the close was requested included, every one of those releases
      has settled, and the close has rejected exactly if one of them did; no setup is left
      under way. Nothing is released before a close was requested, nothing twice, and nothing
      that was not made. */
  method Interleave(events: seq<Event>, streaming: bool) returns (access: SandboxAccess, ghost done: Settlement)
    ensures access.Valid()
    ensures var produced := Counted(events, streaming).made;
      && (access.closing.Settled? ==>
        && access.released == multiset(produced) && access.registrations == map[] && access.Holding() == {}
        && done.of == produced && access.closing.rejected == done.rejected)
      && (forall id :: id in access.released ==> id in produced && access.released[id] == 1)
      && (access.released == multiset{} || access.released == multiset(produced))
      && (!access.closeRequested ==> access.released == multiset{} && access.Holding() == produced)
    ensures access.closeRequested == Counted(events, streaming).closed
    ensures access.registrations.Keys == Counted(events, streaming).underWay
  {
    access := new SandboxAccess(streaming);
    done := Settlement({}, false);
    for i := 0 to |events|
      invariant access.Valid() && access.streaming == streaming && AccountOf(access) == Counted(events[..i], streaming)
      invariant Waits(access.closing, access.made, done)
      modifies access
    {
      done := Take(access, events[i], done);
      assert events[..i + 1][..i] == events[..i];
    }
    assert events[..|events|] == events;
  }

  ghost function AccountOf(access: SandboxAccess): Account
    reads access
  {
    Account(access.next, access.closeRequested, access.registrations.Keys, access.made)
  }

  /** The releases that have settled, one event on. */
  ghost function Settling(closing: Closing, event: Event, done: Settlement): Settlement {
    if event.Settles? && closing.Releasing? && event.id in closing.unsettled
    then Settlement(done.of + {event.id}, done.rejected || event.rejects) else done
  }

  /** One event. */
  method Take(access: SandboxAccess, event: Event, ghost before: Settlement) returns (ghost done: Settlement)
    requires access.Valid() && Waits(access.closing, access.made, before)
    modifies access
    ensures done == Settling(old(access.closing), event, before)
    ensures access.Valid() && Waits(access.closing, access.made, done)
    ensures AccountOf(access) == Counting(old(AccountOf(access)), event, access.streaming)
  {
    done := Settling(access.closing, event, before);
    if event.ReleaseTurn? || event.Settles? || event.CloseTurn? {
      TakeReleasing(access, event, before);
    } else {
      TakeMaking(access, event, before);
    }
  }

  /** An event that may make something, or asks for the close: the releases are not under way
      where it makes anything. */
  method TakeMaking(access: SandboxAccess, event: Event, ghost before: Settlement)
    requires access.Valid() && Waits(access.closing, access.made, before)
    requires event.Asked? || event.Completed? || event.Started? || event.CloseAsked?
    modifies access
    ensures access.Valid() && Waits(access.closing, access.made, before)
    ensures AccountOf(access) == Counting(old(AccountOf(access)), event, access.streaming)
  {
    ghost var was := AccountOf(access);
    match event
    case Asked(kind) => var registered := access.Establish(kind);
    case Completed(id, succeeded) =>
      if id in access.registrations {
        var handedOut := access.Complete(id, succeeded);
        assert access.registrations.Keys == was.underWay - {id};
      }
    case Started(spawns) => var process := access.Start(spawns);
    case CloseAsked => access.Close();
  }

  /** An event of the close itself, which makes nothing. */
  method TakeReleasing(access: SandboxAccess, event: Event, ghost before: Settlement)
    requires access.Valid() && Waits(access.closing, access.made, before)
    requires event.ReleaseTurn? || event.Settles? || event.CloseTurn?
    modifies access
    ensures access.Valid() && Waits(access.closing, access.made, Settling(old(access.closing), event, before))
    ensures AccountOf(access) == old(AccountOf(access))
  {
    match event
    case ReleaseTurn => var called := access.Release();
    case Settles(id, rejects) =>
      if access.closing.Releasing? && id in access.closing.unsettled {
        SettlingWaits(access.closing, id, rejects, access.made, before);
      }
      access.ReleaseSettles(id, rejects);
    case CloseTurn =>
      NoneLeft(access.closing, access.made, before);
      var settled := access.CloseSettles();
  }

  lemma NoneLeft(closing: Closing, produced: set<Id>, before: Settlement)
    requires Waits(closing, produced, before)
    ensures closing.Releasing? && closing.unsettled == {} ==> before.of == produced
  {
    if closing.Releasing? {
      assert produced == closing.unsettled + before.of;
    }
  }

  /** Whose release settles is no longer waited for. */
  lemma SettlingWaits(closing: Closing, id: Id, rejects: bool, produced: set<Id>, before: Settlement)
    requires closing.Releasing? && id in closing.unsettled && Waits(closing, produced, before)
    ensures Waits(Releasing(closing.unsettled - {id}, closing.rejected || rejects), produced,
                  Settlement(before.of + {id}, before.rejected || rejects))
  {
  }

  /** What a close still waits for. */
  ghost predicate Waits(closing: Closing, produced: set<Id>, done: Settlement) {
    match closing
    case Releasing(unsettled, rejected) => unsettled == produced - done.of && done.of <= produced && rejected == done.rejected
    case Settled(rejected) => done.of == produced && rejected == done.rejected
    case _ => done == Settlement({}, false)
  }

  /** After the close has settled nothing is made or released again, whatever is asked. */
  method AfterSettled(access: SandboxAccess, events: seq<Event>)
    requires access.Valid() && access.closing.Settled?
    modifies access
    ensures access.Valid() && access.closing == old(access.closing)
    ensures access.made == old(access.made) && access.released == old(access.released)
  {
    for i := 0 to |events|
      invariant access.Valid() && access.closing == old(access.closing)
      invariant access.made == old(access.made) && access.released == old(access.released)
    {
      match events[i]
      case Asked(kind) => var registered := access.Establish(kind);
      case Completed(id, succeeded) =>
      case Started(spawns) => var process := access.Start(spawns);
      case CloseAsked => access.Close();
      case ReleaseTurn => var called := access.Release();
      case Settles(id, rejects) => access.ReleaseSettles(id, rejects);
      case CloseTurn => var settled := access.CloseSettles();
    }
  }
}
