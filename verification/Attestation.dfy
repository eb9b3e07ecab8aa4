/** What an instance is held to before it may start
    (packages/sandbox-container/src/attestation.ts and capability.ts). */
module Attestation {
  import opened Basics
  import opened Arguments

  /** A host, reduced to what its capability turns on. */
  datatype HostReport = HostReport(
    runtime: string, serverVersion: string, kernelVersion: string, cgroupVersion: string, rootless: bool,
    seccompEnabled: bool, cpuQuotaSupported: bool, memoryLimitSupported: bool, processLimitSupported: bool)

  function Truth(b: bool): string { if b then "true" else "false" }

  /** The fields a digest is taken over, in their order. The digest itself is not modelled:
      equal fields are equal fingerprints. */
  function Fingerprint(r: HostReport): seq<string> {
    [r.runtime, r.serverVersion, r.kernelVersion, r.cgroupVersion, Truth(r.rootless), Truth(r.seccompEnabled),
     Truth(r.cpuQuotaSupported), Truth(r.memoryLimitSupported), Truth(r.processLimitSupported)]
  }

  datatype Capability = Capability(fingerprint: seq<string>, rootless: bool, seccomp: bool, cpu: bool, memory: bool, processes: bool)

  function Establish(r: HostReport): Capability {
    Capability(Fingerprint(r), r.rootless, r.seccompEnabled, r.cpuQuotaSupported, r.memoryLimitSupported, r.processLimitSupported)
  }

  predicate HostSatisfied(c: Capability) { c.seccomp && c.cpu && c.memory && c.processes }

  datatype MountKind = VolumeMount | TmpfsMount | BindMount

  datatype Observed = Observed(kind: MountKind, source: string, destination: string)

  datatype Instance = Instance(
    privileged: bool, securityOptions: seq<string>, added: seq<string>, dropped: seq<string>, binds: seq<string>,
    mounts: seq<Observed>, networkMode: string, pidMode: string, memoryBytes: int, processLimit: int, cpuQuotaNanos: int,
    readOnlyRoot: bool)

  /** The limits that were asked for, as the numbers an instance reports. */
  datatype Quotas = Quotas(cpuNanos: int, memoryBytes: int, processes: int)

  datatype Input = Input(
    request: Request, quotas: Quotas, instance: Instance, host: Capability, fingerprint: seq<string>, network: string,
    volume: string)

  // --- storage ---------------------------------------------------------------------------

  datatype Key = Key(kind: MountKind, destination: string)

  function Expected(r: Request): set<Key> {
    {Key(VolumeMount, r.workspace)} + set m | m in r.mounts && m.Ephemeral? :: Key(TmpfsMount, m.path)
  }

  function KeyOf(m: Observed): Key { Key(m.kind, m.destination) }

  function ObservedKeys(mounts: seq<Observed>): set<Key> { set m | m in mounts :: KeyOf(m) }

  predicate MountsSatisfied(i: Input) {
    && (forall m :: m in i.instance.mounts ==> KeyOf(m) in Expected(i.request))
    && (forall k :: k in Expected(i.request) ==> k in ObservedKeys(i.instance.mounts))
    && i.instance.readOnlyRoot
  }

  predicate WorkspaceSatisfied(i: Input) {
    exists m ::
      m in i.instance.mounts && m.kind == VolumeMount && m.destination == i.request.workspace && m.source == i.volume
      && multiset(i.instance.mounts)[m] == 1
      && forall n :: n in i.instance.mounts && n.kind == VolumeMount && n.destination == i.request.workspace ==> n == m
  }

  // --- the rest --------------------------------------------------------------------------

  predicate NetworkSatisfied(i: Input) { i.instance.networkMode == i.network && !IsSharedNamespace(i.instance.networkMode) }

  predicate PidSatisfied(i: Input) { i.instance.pidMode == "" || i.instance.pidMode == "private" }

  predicate PrivilegesSatisfied(i: Input) {
    && !i.instance.privileged && "no-new-privileges" in i.instance.securityOptions
    && i.instance.added == [] && "ALL" in i.instance.dropped
  }

  predicate ReachSatisfied(i: Input) {
    && (forall b :: b in i.instance.binds ==> !IsRuntimeSocket(BindSource(b)) && !StartsWith(BindSource(b), '/'))
    && (forall m :: m in i.instance.mounts ==> !IsRuntimeSocket(m.destination))
  }

  function SeccompOption(options: seq<string>): Option<string> {
    if options == [] then None
    else if SECCOMP <= options[0] then Some(options[0])
    else SeccompOption(options[1..])
  }

  predicate SeccompSatisfied(i: Input) {
    var applied := SeccompOption(i.instance.securityOptions);
    applied != Some(SECCOMP + UNCONFINED) && (i.request.seccomp.ProfileFile? ==> applied.Some?) && i.host.seccomp
  }

  predicate LimitsSatisfied(i: Input) {
    && i.instance.cpuQuotaNanos == i.quotas.cpuNanos > 0
    && i.instance.memoryBytes == i.quotas.memoryBytes > 0
    && i.instance.processLimit == i.quotas.processes > 0
  }

  /** `attestInstance`: every outcome, and-ed. */
  predicate Authorized(i: Input) {
    && i.fingerprint == i.host.fingerprint
    && NetworkSatisfied(i) && PidSatisfied(i) && MountsSatisfied(i) && PrivilegesSatisfied(i) && ReachSatisfied(i)
    && SeccompSatisfied(i) && LimitsSatisfied(i) && WorkspaceSatisfied(i)
  }

  /** An authorized instance mounts what its request names and no more, so nothing of the
      host is mounted into it however the mount was requested, and its one Workspace is the
      volume that was made for it. */
  lemma AuthorizedStorage(i: Input)
    requires Authorized(i)
    ensures ObservedKeys(i.instance.mounts) == Expected(i.request)
    ensures forall m :: m in i.instance.mounts ==> m.kind != BindMount
    ensures forall m :: m in i.instance.mounts && m.kind == VolumeMount ==> m.destination == i.request.workspace && m.source == i.volume
  {
    forall m | m in i.instance.mounts && m.kind == VolumeMount
      ensures m.destination == i.request.workspace && m.source == i.volume
    {
      assert KeyOf(m) in Expected(i.request);
    }
    forall m | m in i.instance.mounts ensures m.kind != BindMount {
      assert KeyOf(m) in Expected(i.request);
    }
  }
}
