/** What the audit and the runtime read from a rendered vector. */
module ArgumentAudit {
  import opened Basics
  import opened Arguments

  function ToPairs(flags: seq<Flag>): seq<Pair> {
    if flags == [] then [] else [Pair(Spelled(flags[0].name), flags[0].value)] + ToPairs(flags[1..])
  }

  predicate Undashed(flags: seq<Flag>) {
    forall i :: 0 <= i < |flags| && flags[i].value.Some? ==> !StartsWith(flags[i].value.value, '-')
  }

  // --- the flag parser reads the renderer ----------------------------------------------------

  lemma NoEquals(s: string)
    requires '=' !in s
    ensures IndexOf(s, '=') == |s|
  {
  }

  lemma TokensOpen(flags: seq<Flag>)
    ensures Tokens(flags) == [] <==> flags == []
    ensures flags != [] ==> StartsWith(Tokens(flags)[0], '-')
  {
    if flags != [] {
      SpellingTells(flags[0].name);
    }
  }

  lemma NameReads(name: FlagName, next: seq<string>)
    ensures HeadPair([Spelled(name)] + next) ==
      [Pair(Spelled(name), if next == [] || StartsWith(next[0], '-') then None else Some(next[0]))]
    ensures PairsOf([Spelled(name)] + next) == HeadPair([Spelled(name)] + next) + PairsOf(next)
  {
    SpellingTells(name);
    NoEquals(Spelled(name));
    assert ([Spelled(name)] + next)[1..] == next;
  }

  lemma ValueReads(value: string, rest: seq<string>)
    requires !StartsWith(value, '-')
    ensures PairsOf([value] + rest) == PairsOf(rest)
  {
    assert ([value] + rest)[1..] == rest;
  }

  /** A flag as its tokens. */
  function Head(f: Flag): seq<string> { [Spelled(f.name)] + (if f.value.Some? then [f.value.value] else []) }

  /** One flag at the head of a token list, its value, and the rest. */
  lemma FlagReads(first: Flag, rest: seq<string>)
    requires first.value.Some? ==> !StartsWith(first.value.value, '-')
    requires rest != [] ==> StartsWith(rest[0], '-')
    ensures PairsOf(Head(first) + rest) == [Pair(Spelled(first.name), first.value)] + PairsOf(rest)
  {
    if first.value.Some? {
      var next := [first.value.value] + rest;
      NameReads(first.name, next);
      ValueReads(first.value.value, rest);
      assert Head(first) + rest == [Spelled(first.name)] + next;
    } else {
      NameReads(first.name, rest);
      assert Head(first) + rest == [Spelled(first.name)] + rest;
    }
  }

  lemma TokensOpenWithHead(flags: seq<Flag>)
    requires flags != []
    ensures Tokens(flags) == Head(flags[0]) + Tokens(flags[1..])
  {
  }

  /** Tokens whose values do not open like a flag are read as the flags they were. */
  lemma {:induction false} PairsOfTokens(flags: seq<Flag>)
    requires Undashed(flags)
    ensures PairsOf(Tokens(flags)) == ToPairs(flags)
    decreases flags
  {
    if flags != [] {
      PairsOfTokens(flags[1..]);
      TokensOpen(flags[1..]);
      TokensOpenWithHead(flags);
      FlagReads(flags[0], Tokens(flags[1..]));
    }
  }

  /** As much of an accepted request as the vector turns on. */
  predicate Shaped(r: Request) {
    && (forall m :: m in r.mounts ==> m.Ephemeral? && StartsWith(m.path, '/'))
    && (forall v :: v in r.environment ==> IsEnvironmentName(v.name))
    && (r.seccomp.ProfileFile? ==> r.seccomp.path != UNCONFINED)
    && LimitsShaped(r.limits)
  }

  predicate LimitsShaped(l: Limits) { Positive(l.cpus) && Positive(l.memoryBytes) && Positive(l.processes) }

  lemma AcceptedIsShaped(r: Request)
    requires Accepted(r)
    ensures Shaped(r)
  {
  }

  lemma UndashedConcat(a: seq<Flag>, b: seq<Flag>)
    requires Undashed(a) && Undashed(b)
    ensures Undashed(a + b)
  {
  }

  lemma LeadingUndashed(id: string)
    ensures Undashed(LeadingFlags(id))
  {
    assert Instance(id)[0] == 'r';
  }

  lemma LimitsUndashed(r: Request, id: string)
    requires Shaped(r)
    ensures Undashed(LimitFlags(r, id))
  {
    assert (WorkspaceVolume(id) + ":" + r.workspace)[0] == 'r';
  }

  lemma {:induction false} EphemeralUndashed(mounts: seq<Mount>)
    requires forall m :: m in mounts ==> m.Ephemeral? && StartsWith(m.path, '/')
    ensures Undashed(EphemeralFlags(mounts)) && forall f :: f in EphemeralFlags(mounts) ==> f.name == Tmpfs
  {
    if mounts != [] {
      EphemeralUndashed(mounts[1..]);
      assert mounts[0] in mounts;
      assert TmpfsArgument(mounts[0])[0] == '/';
    }
  }

  lemma {:induction false} EnvironmentUndashed(environment: seq<Variable>)
    requires forall v :: v in environment ==> IsEnvironmentName(v.name)
    ensures Undashed(EnvironmentFlags(environment)) && forall f :: f in EnvironmentFlags(environment) ==> f.name == Env
  {
    if environment != [] {
      EnvironmentUndashed(environment[1..]);
      assert environment[0] in environment;
      assert (environment[0].name + "=" + environment[0].value)[0] == environment[0].name[0];
    }
  }

  lemma IntendedUndashed(r: Request, id: string)
    requires Shaped(r)
    ensures Undashed(Intended(r, id))
  {
    LeadingUndashed(id);
    LimitsUndashed(r, id);
    EphemeralUndashed(r.mounts);
    EnvironmentUndashed(r.environment);
    assert Undashed(SeccompFlags(r.seccomp));
    UndashedConcat(LeadingFlags(id), SeccompFlags(r.seccomp));
    UndashedConcat(LeadingFlags(id) + SeccompFlags(r.seccomp), LimitFlags(r, id));
    UndashedConcat(LeadingFlags(id) + SeccompFlags(r.seccomp) + LimitFlags(r, id), EphemeralFlags(r.mounts));
    UndashedConcat(LeadingFlags(id) + SeccompFlags(r.seccomp) + LimitFlags(r, id) + EphemeralFlags(r.mounts),
                   EnvironmentFlags(r.environment));
  }

  /** For every accepted request the audit's parser reads exactly the intended flags and
      values, in order: no field of the request is read as a flag. */
  lemma AuditReadsTheIntended(r: Request, id: string)
    requires Accepted(r)
    ensures PairsOf(Options(r, id)) == ToPairs(Intended(r, id))
  {
    AcceptedIsShaped(r);
    PairsOfShaped(r, id);
  }

  lemma PairsOfShaped(r: Request, id: string)
    requires Shaped(r)
    ensures PairsOf(Options(r, id)) == ToPairs(Intended(r, id))
  {
    IntendedUndashed(r, id);
    PairsOfTokens(Intended(r, id));
  }

  // --- and so does the runtime ---------------------------------------------------------------

  predicate TakesValue(f: FlagName) { f != ReadOnly && f != Privileged }

  datatype Parsed = Parsed(flags: seq<Flag>, positional: seq<string>) | Unknown

  function And(flag: Flag, rest: Parsed): Parsed {
    match rest
    case Parsed(flags, positional) => Parsed([flag] + flags, positional)
    case Unknown => Unknown
  }

  /** A command line as the runtimes read one: flags, each with its value if it takes one,
      until a terminator or the first token that is no flag. */
  function Parse(argv: seq<string>): Parsed
    decreases |argv|
  {
    if argv == [] then Parsed([], [])
    else if argv[0] == "--" then Parsed([], argv[1..])
    else if !StartsWith(argv[0], '-') then Parsed([], argv)
    else if f :| Spelled(f) == argv[0] then
      if !TakesValue(f) then And(Flag(f, None), Parse(argv[1..]))
      else if |argv| == 1 then Unknown
      else And(Flag(f, Some(argv[1])), Parse(argv[2..]))
    else Unknown
  }

  predicate Valued(flags: seq<Flag>) { forall f :: f in flags ==> (f.value.Some? <==> TakesValue(f.name)) }

  lemma NotATerminator(f: FlagName)
    ensures Spelled(f) != "--"
  {
    SpellingTells(f);
    if f == V {
      assert "-v"[1] == 'v';
    }
  }

  lemma HeadParses(first: Flag, rest: seq<string>)
    requires first.value.Some? <==> TakesValue(first.name)
    ensures Parse(Head(first) + rest) == And(first, Parse(rest))
  {
    var argv := Head(first) + rest;
    SpellingTells(first.name);
    NotATerminator(first.name);
    forall f | Spelled(f) == argv[0] ensures f == first.name {
      SpellingsDiffer(f, first.name);
    }
    if first.value.Some? {
      assert argv[2..] == rest && argv[1] == first.value.value;
    } else {
      assert argv[1..] == rest;
    }
  }

  lemma TerminatorParses(positional: seq<string>)
    ensures Parse(["--"] + positional) == Parsed([], positional)
  {
    assert (["--"] + positional)[1..] == positional;
  }

  lemma Grouped(a: seq<string>, b: seq<string>, c: seq<string>)
    ensures (a + b) + c == a + (b + c)
  {
  }

  lemma Prepended(first: Flag, flags: seq<Flag>, positional: seq<string>)
    requires flags != [] && flags[0] == first
    ensures And(first, Parsed(flags[1..], positional)) == Parsed(flags, positional)
  {
  }

  lemma {:induction false} TokensParse(flags: seq<Flag>, positional: seq<string>)
    requires Valued(flags)
    ensures Parse(Tokens(flags) + (["--"] + positional)) == Parsed(flags, positional)
    decreases flags
  {
    var after := ["--"] + positional;
    if flags == [] {
      assert Tokens(flags) + after == after;
      TerminatorParses(positional);
    } else {
      assert flags[0] in flags;
      TokensParse(flags[1..], positional);
      TokensOpenWithHead(flags);
      Grouped(Head(flags[0]), Tokens(flags[1..]), after);
      HeadParses(flags[0], Tokens(flags[1..]) + after);
      Prepended(flags[0], flags, positional);
    }
  }

  lemma {:induction false} EphemeralValued(mounts: seq<Mount>)
    ensures Valued(EphemeralFlags(mounts))
  {
    if mounts != [] {
      EphemeralValued(mounts[1..]);
    }
  }

  lemma {:induction false} EnvironmentValued(environment: seq<Variable>)
    ensures Valued(EnvironmentFlags(environment))
  {
    if environment != [] {
      EnvironmentValued(environment[1..]);
    }
  }

  lemma ValuedConcat(a: seq<Flag>, b: seq<Flag>)
    requires Valued(a) && Valued(b)
    ensures Valued(a + b)
  {
  }

  lemma FixedValued(r: Request, id: string)
    ensures Valued(LeadingFlags(id)) && Valued(SeccompFlags(r.seccomp)) && Valued(LimitFlags(r, id))
  {
    LeadingValued(id);
    LimitsValued(r, id);
  }

  lemma LeadingValued(id: string)
    ensures Valued(LeadingFlags(id))
  {
    var a := LeadingFlags(id);
    assert forall i :: 0 <= i < |a| ==> a[i].value.Some? && TakesValue(a[i].name);
  }

  lemma LimitsValued(r: Request, id: string)
    ensures Valued(LimitFlags(r, id))
  {
    var a := LimitFlags(r, id);
    assert forall i :: 0 <= i < |a| ==> (a[i].value.Some? <==> TakesValue(a[i].name));
  }

  lemma IntendedValued(r: Request, id: string)
    ensures Valued(Intended(r, id))
  {
    FixedValued(r, id);
    EphemeralValued(r.mounts);
    EnvironmentValued(r.environment);
    ValuedConcat(LeadingFlags(id), SeccompFlags(r.seccomp));
    ValuedConcat(LeadingFlags(id) + SeccompFlags(r.seccomp), LimitFlags(r, id));
    ValuedConcat(LeadingFlags(id) + SeccompFlags(r.seccomp) + LimitFlags(r, id), EphemeralFlags(r.mounts));
    ValuedConcat(LeadingFlags(id) + SeccompFlags(r.seccomp) + LimitFlags(r, id) + EphemeralFlags(r.mounts),
                 EnvironmentFlags(r.environment));
  }

  lemma AfterFirst(first: string, options: seq<string>, terminator: string, image: string, command: seq<string>)
    ensures ([first] + options + [terminator, image] + command)[1..] == options + ([terminator] + ([image] + command))
  {
  }

  /** Whatever the request holds, a runtime that reads flags until `--` reads the intended
      flags, and takes the image and the command for what they are. */
  lemma RuntimeReadsTheIntended(r: Request, id: string)
    ensures Parse(CreateArguments(r, id)[1..]) == Parsed(Intended(r, id), [r.image] + r.command)
  {
    IntendedValued(r, id);
    TokensParse(Intended(r, id), [r.image] + r.command);
    AfterFirst("create", Options(r, id), "--", r.image, r.command);
  }

  // --- the values the audit looks at ---------------------------------------------------------

  function ValueOf(f: Flag): string { if f.value.Some? then f.value.value else "" }

  function One(f: Flag, names: set<FlagName>): seq<string> { if f.name in names then [ValueOf(f)] else [] }

  function FlagValues(flags: seq<Flag>, names: set<FlagName>): seq<string> {
    if flags == [] then [] else One(flags[0], names) + FlagValues(flags[1..], names)
  }

  predicate Named(flags: seq<Flag>, names: set<FlagName>) { exists i :: 0 <= i < |flags| && flags[i].name in names }

  lemma SpelledAmong(f: FlagName, names: set<FlagName>)
    ensures Spelled(f) in Spellings(names) <==> f in names
  {
    if Spelled(f) in Spellings(names) {
      var g :| g in names && Spelled(g) == Spelled(f);
      SpellingsDiffer(f, g);
    }
  }

  lemma {:induction false} ValuesOfPairs(flags: seq<Flag>, names: set<FlagName>)
    ensures ValuesOf(ToPairs(flags), Spellings(names)) == FlagValues(flags, names)
  {
    if flags != [] {
      ValuesOfPairs(flags[1..], names);
      SpelledAmong(flags[0].name, names);
      assert ToPairs(flags)[1..] == ToPairs(flags[1..]);
    }
  }

  lemma {:induction false} PairAtFlag(flags: seq<Flag>)
    ensures |ToPairs(flags)| == |flags|
    ensures forall i :: 0 <= i < |flags| ==> ToPairs(flags)[i] == Pair(Spelled(flags[i].name), flags[i].value)
  {
    if flags != [] {
      PairAtFlag(flags[1..]);
    }
  }

  lemma HasPairs(flags: seq<Flag>, names: set<FlagName>)
    ensures Has(ToPairs(flags), Spellings(names)) <==> Named(flags, names)
  {
    PairAtFlag(flags);
    forall i | 0 <= i < |flags| ensures ToPairs(flags)[i].flag in Spellings(names) <==> flags[i].name in names {
      SpelledAmong(flags[i].name, names);
    }
  }

  lemma {:induction false} FlagValuesConcat(a: seq<Flag>, b: seq<Flag>, names: set<FlagName>)
    ensures FlagValues(a + b, names) == FlagValues(a, names) + FlagValues(b, names)
  {
    if a == [] {
      assert a + b == b;
    } else {
      FlagValuesConcat(a[1..], b, names);
      assert (a + b)[1..] == a[1..] + b && (a + b)[0] == a[0];
      Grouped(One(a[0], names), FlagValues(a[1..], names), FlagValues(b, names));
    }
  }

  lemma {:induction false} OthersGiveNothing(flags: seq<Flag>, names: set<FlagName>)
    requires !Named(flags, names)
    ensures FlagValues(flags, names) == []
  {
    if flags != [] {
      assert flags[0].name !in names;
      assert forall i :: 0 <= i < |flags[1..]| ==> flags[1..][i] == flags[i + 1];
      OthersGiveNothing(flags[1..], names);
    }
  }

  lemma Five(a: Flag, b: Flag, c: Flag, d: Flag, e: Flag, names: set<FlagName>)
    ensures FlagValues([a, b, c, d, e], names) ==
      One(a, names) + (One(b, names) + (One(c, names) + (One(d, names) + One(e, names))))
  {
    assert [a, b, c, d, e][1..] == [b, c, d, e];
    assert [b, c, d, e][1..] == [c, d, e];
    assert [c, d, e][1..] == [d, e];
    assert [d, e][1..] == [e] && [e][1..] == [];
    assert FlagValues([e], names) == One(e, names) + [];
    assert FlagValues([d, e], names) == One(d, names) + One(e, names);
    assert FlagValues([c, d, e], names) == One(c, names) + (One(d, names) + One(e, names));
  }

  lemma FiveParts(a: seq<Flag>, b: seq<Flag>, c: seq<Flag>, d: seq<Flag>, e: seq<Flag>, names: set<FlagName>)
    requires !Named(d, names) && !Named(e, names)
    ensures FlagValues(a + b + c + d + e, names) == FlagValues(a, names) + FlagValues(b, names) + FlagValues(c, names)
  {
    FlagValuesConcat(a, b, names);
    FlagValuesConcat(a + b, c, names);
    FlagValuesConcat(a + b + c, d, names);
    FlagValuesConcat(a + b + c + d, e, names);
    OthersGiveNothing(d, names);
    OthersGiveNothing(e, names);
  }

  lemma NamedNot(flags: seq<Flag>, name: FlagName, names: set<FlagName>)
    requires name !in names && forall f :: f in flags ==> f.name == name
    ensures !Named(flags, names)
  {
  }

  /** The values of some flags other than the mounts' and the environment's. */
  lemma IntendedValues(r: Request, id: string, names: set<FlagName>)
    requires Shaped(r) && Tmpfs !in names && Env !in names
    ensures FlagValues(Intended(r, id), names) ==
      FlagValues(LeadingFlags(id), names) + FlagValues(SeccompFlags(r.seccomp), names) + FlagValues(LimitFlags(r, id), names)
  {
    EphemeralUndashed(r.mounts);
    EnvironmentUndashed(r.environment);
    NamedNot(EphemeralFlags(r.mounts), Tmpfs, names);
    NamedNot(EnvironmentFlags(r.environment), Env, names);
    FiveParts(LeadingFlags(id), SeccompFlags(r.seccomp), LimitFlags(r, id), EphemeralFlags(r.mounts),
              EnvironmentFlags(r.environment), names);
  }

  // --- every outcome but one -------------------------------------------------------------------

  const RENDERED: set<FlagName> :=
    {Name, Label, Network, CapDrop, SecurityOpt, PidsLimit, Memory, Cpus, ReadOnly, Volume, Tmpfs, Env}

  predicate AllOf(flags: seq<Flag>, names: set<FlagName>) { forall i :: 0 <= i < |flags| ==> flags[i].name in names }

  lemma AllOfConcat(a: seq<Flag>, b: seq<Flag>, names: set<FlagName>)
    requires AllOf(a, names) && AllOf(b, names)
    ensures AllOf(a + b, names)
  {
  }

  lemma IntendedNames(r: Request, id: string)
    requires Shaped(r)
    ensures AllOf(Intended(r, id), RENDERED)
  {
    EphemeralUndashed(r.mounts);
    EnvironmentUndashed(r.environment);
    AllOfConcat(LeadingFlags(id), SeccompFlags(r.seccomp), RENDERED);
    AllOfConcat(LeadingFlags(id) + SeccompFlags(r.seccomp), LimitFlags(r, id), RENDERED);
    AllOfConcat(LeadingFlags(id) + SeccompFlags(r.seccomp) + LimitFlags(r, id), EphemeralFlags(r.mounts), RENDERED);
    AllOfConcat(LeadingFlags(id) + SeccompFlags(r.seccomp) + LimitFlags(r, id) + EphemeralFlags(r.mounts),
                EnvironmentFlags(r.environment), RENDERED);
  }

  lemma RenderedOnly(r: Request, id: string, names: set<FlagName>)
    requires Shaped(r) && names !! RENDERED
    ensures !Named(Intended(r, id), names) && FlagValues(Intended(r, id), names) == []
  {
    IntendedNames(r, id);
    OthersGiveNothing(Intended(r, id), names);
  }

  /** What the two fixed runs of flags give each flag the audit reads a value of. */
  lemma LeadingValues(id: string, f: FlagName)
    ensures FlagValues(LeadingFlags(id), {f}) ==
      match f
      case Name => [Instance(id)] case Label => [SANDBOX_LABEL] case Network => [NO_NETWORK] case CapDrop => ["ALL"]
      case SecurityOpt => ["no-new-privileges"] case _ => []
  {
    var a := LeadingFlags(id);
    Five(a[0], a[1], a[2], a[3], a[4], {f});
    assert a == [a[0], a[1], a[2], a[3], a[4]];
  }

  lemma LimitValues(r: Request, id: string, f: FlagName)
    ensures FlagValues(LimitFlags(r, id), {f}) ==
      match f
      case PidsLimit => [r.limits.processes] case Memory => [r.limits.memoryBytes] case Cpus => [r.limits.cpus]
      case ReadOnly => [""] case Volume => [WorkspaceVolume(id) + ":" + r.workspace] case _ => []
  {
    var c := LimitFlags(r, id);
    Five(c[0], c[1], c[2], c[3], c[4], {f});
    assert c == [c[0], c[1], c[2], c[3], c[4]];
  }

  lemma SeccompValues(s: Seccomp, f: FlagName)
    ensures FlagValues(SeccompFlags(s), {f}) == if f == SecurityOpt && s.ProfileFile? then [SECCOMP + s.path] else []
  {
    if s.ProfileFile? {
      assert SeccompFlags(s)[1..] == [];
    }
  }

  lemma {:induction false} AbsentAddsNothing(flags: seq<Flag>, present: set<FlagName>, absent: set<FlagName>)
    requires !Named(flags, absent)
    ensures FlagValues(flags, present + absent) == FlagValues(flags, present)
  {
    if flags != [] {
      assert flags[0].name !in absent;
      assert forall i :: 0 <= i < |flags[1..]| ==> flags[1..][i] == flags[i + 1];
      AbsentAddsNothing(flags[1..], present, absent);
    }
  }

  /** A flag with a twin spelling the renderer never writes. */
  lemma AuditReadsTwins(r: Request, id: string, f: FlagName, twin: FlagName)
    requires Shaped(r) && f != Tmpfs && f != Env && twin !in RENDERED
    ensures ValuesOf(PairsOf(Options(r, id)), Spellings({f, twin})) == ValuesOf(PairsOf(Options(r, id)), Spellings({f}))
  {
    PairsOfShaped(r, id);
    RenderedOnly(r, id, {twin});
    ValuesOfPairs(Intended(r, id), {f, twin});
    ValuesOfPairs(Intended(r, id), {f});
    AbsentAddsNothing(Intended(r, id), {f}, {twin});
    assert {f} + {twin} == {f, twin};
  }

  lemma AuditFindsNone(r: Request, id: string, names: set<FlagName>)
    requires Shaped(r) && names !! RENDERED
    ensures !Has(PairsOf(Options(r, id)), Spellings(names)) && ValuesOf(PairsOf(Options(r, id)), Spellings(names)) == []
  {
    PairsOfShaped(r, id);
    RenderedOnly(r, id, names);
    HasPairs(Intended(r, id), names);
    ValuesOfPairs(Intended(r, id), names);
  }

  /** The values the vector gives a flag. */
  function Given(r: Request, id: string, f: FlagName): seq<string> {
    match f
    case Name => [Instance(id)]
    case Label => [SANDBOX_LABEL]
    case Network => [NO_NETWORK]
    case CapDrop => ["ALL"]
    case SecurityOpt =>
      ["no-new-privileges"] + if r.seccomp.ProfileFile? then [SECCOMP + r.seccomp.path] else []
    case PidsLimit => [r.limits.processes]
    case Memory => [r.limits.memoryBytes]
    case Cpus => [r.limits.cpus]
    case ReadOnly => [""]
    case Volume => [WorkspaceVolume(id) + ":" + r.workspace]
    case _ => []
  }

  lemma IntendedGives(r: Request, id: string, f: FlagName)
    requires Shaped(r) && f != Tmpfs && f != Env
    ensures FlagValues(Intended(r, id), {f}) == Given(r, id, f)
  {
    IntendedValues(r, id, {f});
    LeadingValues(id, f);
    SeccompValues(r.seccomp, f);
    LimitValues(r, id, f);
  }

  /** The values the audit reads of one flag. */
  lemma AuditReads(r: Request, id: string, f: FlagName)
    requires Shaped(r) && f != Tmpfs && f != Env
    ensures ValuesOf(PairsOf(Options(r, id)), Spellings({f})) == Given(r, id, f)
  {
    PairsOfShaped(r, id);
    ValuesOfPairs(Intended(r, id), {f});
    IntendedGives(r, id, f);
  }

  lemma CpuLimitPasses(r: Request, id: string)
    requires Shaped(r)
    ensures Satisfied(CpuLimit, Options(r, id), PairsOf(Options(r, id)))
  {
    AuditReads(r, id, Cpus);
  }

  lemma MemoryLimitPasses(r: Request, id: string)
    requires Shaped(r)
    ensures Satisfied(MemoryLimit, Options(r, id), PairsOf(Options(r, id)))
  {
    AuditReads(r, id, Memory);
  }

  lemma ProcessLimitPasses(r: Request, id: string)
    requires Shaped(r)
    ensures Satisfied(ProcessLimit, Options(r, id), PairsOf(Options(r, id)))
  {
    AuditReads(r, id, PidsLimit);
  }

  lemma NoNetworkIsOwn()
    ensures !IsSharedNamespace(NO_NETWORK)
  {
    assert NO_NETWORK[0] == 'n' && NO_NETWORK[1] == 'o' && "ns:"[1] == 's' && "container:"[0] == 'c' && "host"[0] == 'h';
  }

  lemma NetworkPasses(r: Request, id: string)
    requires Shaped(r)
    ensures Satisfied(OwnNetwork, Options(r, id), PairsOf(Options(r, id)))
  {
    AuditReadsTwins(r, id, Network, Net);
    AuditReads(r, id, Network);
    NoNetworkIsOwn();
  }

  lemma NoPidFlag(r: Request, id: string)
    requires Shaped(r)
    ensures !Has(PairsOf(Options(r, id)), Spellings({Pid}))
  {
    AuditFindsNone(r, id, {Pid});
  }

  lemma NamespacesPass(r: Request, id: string)
    requires Shaped(r)
    ensures Satisfied(OwnPid, Options(r, id), PairsOf(Options(r, id)))
  {
    NoPidFlag(r, id);
    AuditFindsNone(r, id, NAMESPACE_FLAGS);
  }

  lemma PrivilegesPass(r: Request, id: string)
    requires Shaped(r)
    ensures Satisfied(NotPrivileged, Options(r, id), PairsOf(Options(r, id)))
  {
    AuditFindsNone(r, id, {Privileged});
  }

  lemma NoCapabilityAdded(r: Request, id: string)
    requires Shaped(r)
    ensures !Has(PairsOf(Options(r, id)), Spellings({CapAdd}))
  {
    AuditFindsNone(r, id, {CapAdd});
  }

  lemma CapabilitiesPass(r: Request, id: string)
    requires Shaped(r)
    ensures Satisfied(NoAddedCapabilities, Options(r, id), PairsOf(Options(r, id)))
  {
    NoCapabilityAdded(r, id);
    AuditReads(r, id, CapDrop);
  }

  lemma ProfileIsConfined(path: string)
    requires path != UNCONFINED
    ensures SECCOMP + path != SECCOMP + UNCONFINED && SECCOMP + UNCONFINED != "no-new-privileges"
  {
    assert "no-new-privileges"[0] == 'n' && (SECCOMP + UNCONFINED)[0] == 's';
    assert (SECCOMP + path)[|SECCOMP|..] == path;
    assert (SECCOMP + UNCONFINED)[|SECCOMP|..] == UNCONFINED;
  }

  lemma SeccompPasses(r: Request, id: string)
    requires Shaped(r)
    ensures Satisfied(SeccompEnabled, Options(r, id), PairsOf(Options(r, id)))
  {
    AuditReads(r, id, SecurityOpt);
    ProfileIsConfined(if r.seccomp.ProfileFile? then r.seccomp.path else "");
  }

  /** The Workspace's source is a volume's name, and no path, whatever the id. */
  lemma VolumeIsNamed(id: string, workspace: string)
    ensures !IsHostSource(BindSource(WorkspaceVolume(id) + ":" + workspace))
  {
    var v := WorkspaceVolume(id) + ":" + workspace;
    assert v[0] == 'r';
    assert BindSource(v) != [] ==> BindSource(v)[0] == 'r';
  }

  lemma VolumeRead(r: Request, id: string)
    requires Shaped(r)
    ensures ValuesOf(PairsOf(Options(r, id)), Spellings({Volume, V})) == [WorkspaceVolume(id) + ":" + r.workspace]
  {
    AuditReadsTwins(r, id, Volume, V);
    AuditReads(r, id, Volume);
  }

  lemma VolumesAreNamed(r: Request, id: string)
    requires Shaped(r)
    ensures forall v :: v in ValuesOf(PairsOf(Options(r, id)), Spellings({Volume, V})) ==> !IsHostSource(BindSource(v))
  {
    VolumeRead(r, id);
    VolumeIsNamed(id, r.workspace);
  }

  lemma NoMountFlag(r: Request, id: string)
    requires Shaped(r)
    ensures ValuesOf(PairsOf(Options(r, id)), Spellings({MountFlag})) == []
  {
    AuditFindsNone(r, id, {MountFlag});
  }

  lemma NoDeviceFlag(r: Request, id: string)
    requires Shaped(r)
    ensures !Has(PairsOf(Options(r, id)), Spellings({Device, VolumesFrom}))
  {
    AuditFindsNone(r, id, {Device, VolumesFrom});
  }

  lemma MountsPass(r: Request, id: string)
    requires Shaped(r)
    ensures Satisfied(NoHostBind, Options(r, id), PairsOf(Options(r, id)))
  {
    VolumesAreNamed(r, id);
    NoMountFlag(r, id);
    NoDeviceFlag(r, id);
  }

  /** For every accepted request, and whatever id the provider draws, the audit passes
      exactly when no piece of any token, cut at every colon, comma and equals sign, names a
      runtime socket. Nothing else a request can hold makes it refuse. */
  lemma AuditPassesExactly(r: Request, id: string)
    requires Accepted(r)
    ensures Audited(Options(r, id)) <==> NamesNoSocket(Options(r, id))
  {
    AcceptedIsShaped(r);
    OthersPass(r, id);
    var options := Options(r, id);
    assert Satisfied(NoRuntimeSocket, options, PairsOf(options)) <==> NamesNoSocket(options);
  }

  lemma OthersPass(r: Request, id: string)
    requires Shaped(r)
    ensures forall q: Requirement :: q != NoRuntimeSocket ==> Satisfied(q, Options(r, id), PairsOf(Options(r, id)))
  {
    var options := Options(r, id);
    CpuLimitPasses(r, id);
    MemoryLimitPasses(r, id);
    ProcessLimitPasses(r, id);
    NetworkPasses(r, id);
    NamespacesPass(r, id);
    PrivilegesPass(r, id);
    CapabilitiesPass(r, id);
    SeccompPasses(r, id);
    MountsPass(r, id);
  }

  // --- the environment -----------------------------------------------------------------------

  /** What a runtime sets from one `NAME=value`. */
  function Assigned(token: string): Variable {
    var n := IndexOf(token, '=');
    Variable(token[..n], if n < |token| then token[n + 1..] else "")
  }

  /** An accepted variable reaches the Sandbox under its own name with its own value, so the
      guards on names read the names the runtime uses. */
  lemma VariableArrives(v: Variable)
    requires IsEnvironmentName(v.name)
    ensures Assigned(v.name + "=" + v.value) == v
  {
    EqualsAt(v.name, "=" + v.value);
    var token := v.name + "=" + v.value;
    assert token == v.name + ("=" + v.value);
    assert token[..|v.name|] == v.name && token[|v.name| + 1..] == v.value;
  }

  lemma {:induction false} EqualsAt(name: string, rest: string)
    requires '=' !in name && rest != [] && rest[0] == '='
    ensures IndexOf(name + rest, '=') == |name|
  {
    if name == [] {
      assert name + rest == rest;
    } else {
      EqualsAt(name[1..], rest);
      assert (name + rest)[1..] == name[1..] + rest;
    }
  }
}
