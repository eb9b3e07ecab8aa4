/** The argument vector of a launch and the audit of it
    (packages/sandbox-container/src/arguments.ts, requirements.ts and broker.ts). */
module Arguments {
  import opened Basics

  // --- the request -----------------------------------------------------------------------

  /** A number is the text it prints as. */
  datatype Limits = Limits(cpus: string, memoryBytes: string, processes: string)

  datatype Seccomp = RuntimeDefault | ProfileFile(path: string)

  datatype Mount = Ephemeral(path: string, sizeBytes: Option<string>) | Host(hostPath: string, path: string)

  datatype Variable = Variable(name: string, value: string)

  datatype Request = Request(
    image: string, command: seq<string>, workspace: string, workspaceBytes: string, limits: Limits,
    seccomp: Seccomp, environment: seq<Variable>, mounts: seq<Mount>)

  predicate StartsWith(s: string, c: char) { s != [] && s[0] == c }

  /** What a positive finite number prints as: a digit first, then digits, a point, an
      exponent, and a digit of the mantissa that is not zero. */
  predicate Positive(t: string) {
    && t != [] && '0' <= t[0] <= '9'
    && (forall i :: 0 <= i < |t| ==> '0' <= t[i] <= '9' || t[i] in ".e+-")
    && exists i :: 0 <= i < |t| && '1' <= t[i] <= '9' && 'e' !in t[..i]
  }

  // --- names and paths -------------------------------------------------------------------

  predicate IsNameStart(c: char) { 'A' <= c <= 'Z' || 'a' <= c <= 'z' || c == '_' }

  predicate IsEnvironmentName(s: string) {
    s != [] && IsNameStart(s[0]) && forall i :: 0 <= i < |s| ==> IsNameStart(s[i]) || '0' <= s[i] <= '9'
  }

  /** Only reached by names that are made of ASCII letters, digits and underscores. */
  function Upper(s: string): string {
    seq(|s|, i requires 0 <= i < |s| => if 'a' <= s[i] <= 'z' then s[i] - 'a' + 'A' else s[i])
  }

  predicate IsDenied(name: string) {
    Upper(name) in [
      "DOCKER_HOST", "CONTAINER_HOST", "DOCKER_CONFIG", "XDG_RUNTIME_DIR", "LD_PRELOAD", "LD_LIBRARY_PATH",
      "SSH_AUTH_SOCK", "NODE_OPTIONS", "PYTHONPATH", "PYTHONSTARTUP", "PERL5LIB"]
  }

  /** Splits where `cut` says. */
  function SplitOn(s: string, cut: char -> bool): (pieces: seq<string>)
    ensures pieces != []
  {
    if s == [] then [[]]
    else
      var rest := SplitOn(s[1..], cut);
      if cut(s[0]) then [[]] + rest else [s[..1] + rest[0]] + rest[1..]
  }

  predicate IsCredential(name: string) {
    exists piece :: piece in SplitOn(Upper(name), c => c == '_') && piece in [
      "TOKEN", "SECRET", "KEY", "APIKEY", "PASSWORD", "PASSPHRASE", "CREDENTIAL", "CREDENTIALS", "AUTH", "COOKIE", "SESSION"]
  }

  function WithoutTrailingSlashes(s: string): string {
    if s != [] && s[|s| - 1] == '/' then WithoutTrailingSlashes(s[..|s| - 1]) else s
  }

  function LastSegment(s: string): string {
    var pieces := SplitOn(s, c => c == '/');
    pieces[|pieces| - 1]
  }

  predicate IsRuntimeSocket(path: string) {
    LastSegment(WithoutTrailingSlashes(path)) in ["docker.sock", "podman.sock", "containerd.sock", "crio.sock"]
  }

  const PLACEHOLDER: string := "reprove-brokered-placeholder"
  const UNCONFINED: string := "unconfined"

  /** `checkRequest`, every outcome satisfied. */
  predicate Accepted(r: Request) {
    && (forall m :: m in r.mounts ==> m.Ephemeral? && StartsWith(m.path, '/'))
    && (forall v :: v in r.environment ==>
      && IsEnvironmentName(v.name) && !IsDenied(v.name)
      && (IsCredential(v.name) ==> v.value == PLACEHOLDER))
    && (r.seccomp.ProfileFile? ==> r.seccomp.path != "" && r.seccomp.path != UNCONFINED)
    && Positive(r.limits.cpus) && Positive(r.limits.memoryBytes) && Positive(r.limits.processes)
    && StartsWith(r.workspace, '/') && Positive(r.workspaceBytes)
  }

  // --- flags -----------------------------------------------------------------------------

  /** Every flag the renderer writes or the audit looks for. */
  datatype FlagName =
    | Name | Label | Network | Net | CapDrop | CapAdd | SecurityOpt | PidsLimit | Memory | Cpus | ReadOnly | Volume | V
    | Tmpfs | Env | Privileged | MountFlag | Device | VolumesFrom | Pid | Ipc | Userns | Uts | Cgroupns

  function Spelled(f: FlagName): string {
    match f
    case Name => "--name" case Label => "--label" case Network => "--network" case Net => "--net"
    case CapDrop => "--cap-drop" case CapAdd => "--cap-add" case SecurityOpt => "--security-opt"
    case PidsLimit => "--pids-limit" case Memory => "--memory" case Cpus => "--cpus" case ReadOnly => "--read-only"
    case Volume => "--volume" case V => "-v" case Tmpfs => "--tmpfs" case Env => "--env"
    case Privileged => "--privileged" case MountFlag => "--mount" case Device => "--device"
    case VolumesFrom => "--volumes-from" case Pid => "--pid" case Ipc => "--ipc" case Userns => "--userns"
    case Uts => "--uts" case Cgroupns => "--cgroupns"
  }

  /** A length and two letters tell the spellings apart. */
  function Tell(f: FlagName): (nat, char, char) {
    match f
    case Name => (6, 'n', 'e') case Label => (7, 'l', 'l') case Network => (9, 'n', 'k') case Net => (5, 'n', 't')
    case CapDrop => (10, 'c', 'p') case CapAdd => (9, 'c', 'd') case SecurityOpt => (14, 's', 't')
    case PidsLimit => (12, 'p', 't') case Memory => (8, 'm', 'y') case Cpus => (6, 'c', 's') case ReadOnly => (11, 'r', 'y')
    case Volume => (8, 'v', 'e') case V => (2, 'v', 'v') case Tmpfs => (7, 't', 's') case Env => (5, 'e', 'v')
    case Privileged => (12, 'p', 'd') case MountFlag => (7, 'm', 't') case Device => (8, 'd', 'e')
    case VolumesFrom => (14, 'v', 'm') case Pid => (5, 'p', 'd') case Ipc => (5, 'i', 'c') case Userns => (8, 'u', 's')
    case Uts => (5, 'u', 's') case Cgroupns => (10, 'c', 's')
  }

  lemma SpellingTells(f: FlagName)
    ensures var s := Spelled(f);
      |s| >= 2 && s[0] == '-' && '=' !in s && Tell(f) == (|s|, if |s| > 2 then s[2] else s[1], s[|s| - 1])
  {
  }

  lemma SpellingsDiffer(f: FlagName, g: FlagName)
    requires Spelled(f) == Spelled(g)
    ensures f == g
  {
    SpellingTells(f);
    SpellingTells(g);
  }

  /** A flag as it is meant, and as a token list spells it. */
  datatype Flag = Flag(name: FlagName, value: Option<string>)

  function Tokens(flags: seq<Flag>): seq<string> {
    if flags == [] then []
    else
      [Spelled(flags[0].name)] + (if flags[0].value.Some? then [flags[0].value.value] else []) + Tokens(flags[1..])
  }

  // --- rendering -------------------------------------------------------------------------

  function Instance(id: string): string { "reprove-sbx-" + id }

  function WorkspaceVolume(id: string): string { "reprove-ws-" + id }

  const SANDBOX_LABEL: string := "io.reprove.sandbox=1"
  const NO_NETWORK: string := "none"
  const TMPFS_OPTIONS: string := "rw,nosuid,nodev,noexec"
  const SECCOMP: string := "seccomp="

  function TmpfsArgument(m: Mount): string
    requires m.Ephemeral?
  {
    m.path + ":" + TMPFS_OPTIONS + (if m.sizeBytes.Some? then ",size=" + m.sizeBytes.value else "")
  }

  function EphemeralFlags(mounts: seq<Mount>): seq<Flag> {
    if mounts == [] then []
    else (if mounts[0].Ephemeral? then [Flag(Tmpfs, Some(TmpfsArgument(mounts[0])))] else []) + EphemeralFlags(mounts[1..])
  }

  function EnvironmentFlags(environment: seq<Variable>): seq<Flag> {
    if environment == [] then []
    else [Flag(Env, Some(environment[0].name + "=" + environment[0].value))] + EnvironmentFlags(environment[1..])
  }

  function SeccompFlags(s: Seccomp): seq<Flag> {
    if s.ProfileFile? then [Flag(SecurityOpt, Some(SECCOMP + s.path))] else []
  }

  function LeadingFlags(id: string): seq<Flag> {
    [Flag(Name, Some(Instance(id))), Flag(Label, Some(SANDBOX_LABEL)), Flag(Network, Some(NO_NETWORK)),
     Flag(CapDrop, Some("ALL")), Flag(SecurityOpt, Some("no-new-privileges"))]
  }

  function LimitFlags(r: Request, id: string): seq<Flag> {
    [Flag(PidsLimit, Some(r.limits.processes)), Flag(Memory, Some(r.limits.memoryBytes)), Flag(Cpus, Some(r.limits.cpus)),
     Flag(ReadOnly, None), Flag(Volume, Some(WorkspaceVolume(id) + ":" + r.workspace))]
  }

  /** What a launch means to tell the runtime, flag by flag. */
  function Intended(r: Request, id: string): seq<Flag> {
    LeadingFlags(id) + SeccompFlags(r.seccomp) + LimitFlags(r, id) + EphemeralFlags(r.mounts) + EnvironmentFlags(r.environment)
  }

  /** The flag region, as the renderer writes it. */
  function Options(r: Request, id: string): seq<string> { Tokens(Intended(r, id)) }

  function CreateArguments(r: Request, id: string): seq<string> {
    ["create"] + Options(r, id) + ["--", r.image] + r.command
  }

  // --- reading it back -------------------------------------------------------------------

  datatype Pair = Pair(flag: string, value: Option<string>)

  /** `indexOf`, or the length where there is none. */
  function IndexOf(s: string, c: char): (n: nat)
    ensures n <= |s| && c !in s[..n] && (n < |s| ==> s[n] == c)
  {
    if s == [] || s[0] == c then 0
    else
      var n := 1 + IndexOf(s[1..], c);
      assert s[..n] == s[..1] + s[1..][..n - 1];
      n
  }

  /** The pair the first token starts, if it starts one. */
  function HeadPair(options: seq<string>): seq<Pair>
    requires options != []
  {
    var token := options[0];
    if !StartsWith(token, '-') then []
    else
      var split := IndexOf(token, '=');
      if split < |token| then [Pair(token[..split], Some(token[split + 1..]))]
      else [Pair(token, if |options| == 1 || StartsWith(options[1], '-') then None else Some(options[1]))]
  }

  /** Every token that looks like a flag, with the value it carries or is followed by. */
  function PairsOf(options: seq<string>): seq<Pair> {
    if options == [] then [] else HeadPair(options) + PairsOf(options[1..])
  }

  method FlagPairs(options: seq<string>) returns (pairs: seq<Pair>)
    ensures pairs == PairsOf(options)
  {
    pairs := [];
    for index := 0 to |options|
      invariant pairs + PairsOf(options[index..]) == PairsOf(options)
    {
      var token := options[index];
      ghost var rest := options[index..];
      assert rest[1..] == options[index + 1..];
      assert pairs + (HeadPair(rest) + PairsOf(rest[1..])) == (pairs + HeadPair(rest)) + PairsOf(rest[1..]);
      if !StartsWith(token, '-') {
        assert pairs + HeadPair(rest) == pairs;
        continue;
      }
      var split := IndexOf(token, '=');
      if split < |token| {
        pairs := pairs + [Pair(token[..split], Some(token[split + 1..]))];
        continue;
      }
      var value := if index + 1 == |options| || StartsWith(options[index + 1], '-') then None else Some(options[index + 1]);
      pairs := pairs + [Pair(token, value)];
    }
  }

  // --- the audit -------------------------------------------------------------------------

  /** The values given to any of these flags, the empty text where one has none. */
  function ValuesOf(pairs: seq<Pair>, flags: set<string>): seq<string> {
    if pairs == [] then []
    else
      (if pairs[0].flag in flags then [if pairs[0].value.Some? then pairs[0].value.value else ""] else [])
      + ValuesOf(pairs[1..], flags)
  }

  predicate Has(pairs: seq<Pair>, flags: set<string>) { exists i :: 0 <= i < |pairs| && pairs[i].flag in flags }

  predicate IsSharedNamespace(v: string) { v == "" || v == "host" || "container:" <= v || "ns:" <= v }

  predicate OnePositive(values: seq<string>) { |values| == 1 && Positive(values[0]) }

  /** What comes before the first colon, or all of it. */
  function BindSource(v: string): string { v[..IndexOf(v, ':')] }

  predicate IsHostSource(source: string) { source != [] && source[0] in "/.~" }

  predicate Contains(s: string, part: string) { exists i :: 0 <= i <= |s| && part <= s[i..] }

  function Pieces(token: string): seq<string> { SplitOn(token, c => c == ':' || c == ',' || c == '=') }

  predicate NamesNoSocket(options: seq<string>) {
    forall i :: 0 <= i < |options| ==> forall piece :: piece in Pieces(options[i]) ==> !IsRuntimeSocket(piece)
  }

  function Spellings(flags: set<FlagName>): set<string> { set f | f in flags :: Spelled(f) }

  const NAMESPACE_FLAGS: set<FlagName> := {Pid, Ipc, Userns, Uts, Cgroupns}

  datatype Requirement =
    | NotPrivileged | NoAddedCapabilities | SeccompEnabled | OwnNetwork | OwnPid | NoHostBind
    | NoRuntimeSocket | CpuLimit | MemoryLimit | ProcessLimit

  /** The outcome of one requirement over a flag region. */
  predicate Satisfied(q: Requirement, options: seq<string>, pairs: seq<Pair>) {
    match q
    case NotPrivileged => !Has(pairs, Spellings({Privileged}))
    case NoAddedCapabilities => !Has(pairs, Spellings({CapAdd})) && "ALL" in ValuesOf(pairs, Spellings({CapDrop}))
    case SeccompEnabled => SECCOMP + UNCONFINED !in ValuesOf(pairs, Spellings({SecurityOpt}))
    case OwnNetwork =>
      var networks := ValuesOf(pairs, Spellings({Network, Net}));
      |networks| == 1 && !IsSharedNamespace(networks[0])
    case OwnPid =>
      && !Has(pairs, Spellings({Pid}))
      && forall v :: v in ValuesOf(pairs, Spellings(NAMESPACE_FLAGS)) ==> !IsSharedNamespace(v)
    case NoHostBind =>
      && (forall v :: v in ValuesOf(pairs, Spellings({Volume, V})) ==> !IsHostSource(BindSource(v)))
      && (forall v :: v in ValuesOf(pairs, Spellings({MountFlag})) ==> !Contains(v, "type=bind"))
      && !Has(pairs, Spellings({Device, VolumesFrom}))
    case NoRuntimeSocket => NamesNoSocket(options)
    case CpuLimit => OnePositive(ValuesOf(pairs, Spellings({Cpus})))
    case MemoryLimit => OnePositive(ValuesOf(pairs, Spellings({Memory})))
    case ProcessLimit => OnePositive(ValuesOf(pairs, Spellings({PidsLimit})))
  }

  predicate Audited(options: seq<string>) {
    forall q: Requirement :: Satisfied(q, options, PairsOf(options))
  }
}
