/** The renderer, the audit and the Attestation against each other: an instance made exactly
    as an audited vector says is one the Attestation authorizes. */
module AttestedVector {
  import opened Basics
  import opened Arguments
  import opened ArgumentAudit
  import opened Attestation

  // --- a runtime that does what it is told ---------------------------------------------------

  /** What follows the first colon. */
  function AfterColon(v: string): string {
    var n := IndexOf(v, ':');
    if n < |v| then v[n + 1..] else ""
  }

  /** The mount a flag asks for: `source:destination`, or `destination:options`. */
  function MountOf(f: Flag): seq<Observed> {
    match f.name
    case Volume => [Observed(VolumeMount, BindSource(ValueOf(f)), BindSource(AfterColon(ValueOf(f))))]
    case Tmpfs => [Observed(TmpfsMount, "", BindSource(ValueOf(f)))]
    case _ => []
  }

  function MountsOf(flags: seq<Flag>): seq<Observed> {
    if flags == [] then [] else MountOf(flags[0]) + MountsOf(flags[1..])
  }

  function FirstOf(values: seq<string>): string { if values == [] then "" else values[0] }

  /** The instance these flags describe. */
  function Obeying(flags: seq<Flag>, q: Quotas): Attestation.Instance {
    Attestation.Instance(
      Named(flags, {Privileged}), FlagValues(flags, {SecurityOpt}), FlagValues(flags, {CapAdd}), FlagValues(flags, {CapDrop}),
      FlagValues(flags, {Volume}), MountsOf(flags), FirstOf(FlagValues(flags, {Network})), FirstOf(FlagValues(flags, {Pid})),
      q.memoryBytes, q.processes, q.cpuNanos, Named(flags, {ReadOnly}))
  }

  /** Paths the runtimes' own syntax can carry. */
  predicate Plain(r: Request, id: string) {
    ':' !in id && ':' !in r.workspace && forall m :: m in r.mounts ==> ':' !in m.path
  }

  predicate PositiveQuotas(q: Quotas) { q.cpuNanos > 0 && q.memoryBytes > 0 && q.processes > 0 }

  // --- storage ---------------------------------------------------------------------------

  lemma {:induction false} ColonIndex(a: string, rest: string)
    requires ':' !in a
    ensures IndexOf(a, ':') == |a| && (rest != [] && rest[0] == ':' ==> IndexOf(a + rest, ':') == |a|)
  {
    if a == [] {
      assert a + rest == rest;
    } else {
      ColonIndex(a[1..], rest);
      assert (a + rest)[1..] == a[1..] + rest;
    }
  }

  lemma ColonAt(a: string, rest: string)
    requires ':' !in a
    ensures BindSource(a) == a && BindSource(a + ":" + rest) == a && AfterColon(a + ":" + rest) == rest
  {
    var v := a + ":" + rest;
    ColonIndex(a, ":" + rest);
    assert v == a + (":" + rest);
    assert v[..|a|] == a && v[|a| + 1..] == rest && a[..|a|] == a;
  }

  lemma VolumeHasNoColon(id: string)
    requires ':' !in id
    ensures ':' !in WorkspaceVolume(id)
  {
  }

  lemma {:induction false} MountsConcat(a: seq<Flag>, b: seq<Flag>)
    ensures MountsOf(a + b) == MountsOf(a) + MountsOf(b)
  {
    if a == [] {
      assert a + b == b;
    } else {
      MountsConcat(a[1..], b);
      FlagsHead(a, b);
      GroupedMounts(MountOf(a[0]), MountsOf(a[1..]), MountsOf(b));
    }
  }

  lemma FlagsHead(a: seq<Flag>, b: seq<Flag>)
    requires a != []
    ensures a + b != [] && (a + b)[0] == a[0] && (a + b)[1..] == a[1..] + b
  {
  }

  lemma GroupedMounts(a: seq<Observed>, b: seq<Observed>, c: seq<Observed>)
    ensures (a + b) + c == a + (b + c)
  {
  }

  lemma {:induction false} NoMounts(flags: seq<Flag>)
    requires forall f :: f in flags ==> f.name != Volume && f.name != Tmpfs
    ensures MountsOf(flags) == []
  {
    if flags != [] {
      assert flags[0] in flags;
      NoMounts(flags[1..]);
    }
  }

  function Scratch(mounts: seq<Mount>): seq<Observed> {
    if mounts == [] then [] else [Observed(TmpfsMount, "", mounts[0].path)] + Scratch(mounts[1..])
  }

  lemma TmpfsMountOf(m: Mount)
    requires m.Ephemeral? && ':' !in m.path
    ensures MountOf(Flag(Tmpfs, Some(TmpfsArgument(m)))) == [Observed(TmpfsMount, "", m.path)]
  {
    var options := TMPFS_OPTIONS + (if m.sizeBytes.Some? then ",size=" + m.sizeBytes.value else "");
    assert TmpfsArgument(m) == m.path + ":" + options;
    ColonAt(m.path, options);
  }

  lemma {:induction false} ScratchMounts(mounts: seq<Mount>)
    requires forall m :: m in mounts ==> m.Ephemeral? && ':' !in m.path
    ensures MountsOf(EphemeralFlags(mounts)) == Scratch(mounts)
  {
    if mounts != [] {
      assert mounts[0] in mounts;
      ScratchMounts(mounts[1..]);
      TmpfsMountOf(mounts[0]);
      assert EphemeralFlags(mounts)[1..] == EphemeralFlags(mounts[1..]);
    }
  }

  lemma {:induction false} ScratchHolds(mounts: seq<Mount>)
    ensures forall o :: o in Scratch(mounts) <==> exists m :: m in mounts && o == Observed(TmpfsMount, "", m.path)
  {
    if mounts != [] {
      ScratchHolds(mounts[1..]);
      assert mounts == [mounts[0]] + mounts[1..];
    }
  }

  lemma LastMount(flags: seq<Flag>, last: Flag)
    requires forall f :: f in flags ==> f.name != Volume && f.name != Tmpfs
    ensures MountsOf(flags + [last]) == MountOf(last)
  {
    NoMounts(flags);
    MountsConcat(flags, [last]);
    assert MountsOf([last]) == MountOf(last) + MountsOf([last][1..]);
  }

  lemma VolumeMountOf(volume: string, workspace: string)
    requires ':' !in volume && ':' !in workspace
    ensures MountOf(Flag(Volume, Some(volume + ":" + workspace))) == [Observed(VolumeMount, volume, workspace)]
  {
    ColonAt(volume, workspace);
    ColonAt(workspace, "");
  }

  lemma LimitMounts(r: Request, id: string)
    requires Plain(r, id)
    ensures MountsOf(LimitFlags(r, id)) == [Observed(VolumeMount, WorkspaceVolume(id), r.workspace)]
  {
    var flags := LimitFlags(r, id);
    VolumeHasNoColon(id);
    VolumeMountOf(WorkspaceVolume(id), r.workspace);
    LastMount(flags[..4], flags[4]);
    assert flags == flags[..4] + [flags[4]];
  }

  lemma NoneBefore(a: seq<Flag>, b: seq<Flag>)
    requires MountsOf(a) == []
    ensures MountsOf(a + b) == MountsOf(b)
  {
    MountsConcat(a, b);
  }

  lemma NoneBehind(a: seq<Flag>, b: seq<Flag>)
    requires MountsOf(b) == []
    ensures MountsOf(a + b) == MountsOf(a)
  {
    MountsConcat(a, b);
  }

  lemma FiveMountParts(a: seq<Flag>, b: seq<Flag>, c: seq<Flag>, d: seq<Flag>, e: seq<Flag>)
    requires MountsOf(a) == [] && MountsOf(b) == [] && MountsOf(e) == []
    ensures MountsOf(a + b + c + d + e) == MountsOf(c) + MountsOf(d)
  {
    var ab := a + b;
    var abc := ab + c;
    var abcd := abc + d;
    NoneBefore(a, b);
    NoneBefore(ab, c);
    MountsConcat(abc, d);
    NoneBehind(abcd, e);
  }

  lemma NoMountsElsewhere(r: Request, id: string)
    requires Shaped(r)
    ensures MountsOf(LeadingFlags(id)) == [] && MountsOf(SeccompFlags(r.seccomp)) == []
    ensures MountsOf(EnvironmentFlags(r.environment)) == []
  {
    EnvironmentUndashed(r.environment);
    NoMounts(LeadingFlags(id));
    NoMounts(SeccompFlags(r.seccomp));
    NoMounts(EnvironmentFlags(r.environment));
  }

  /** The vector's mounts are the Workspace and the scratch mounts, in that order. */
  lemma IntendedMounts(r: Request, id: string)
    requires Shaped(r) && Plain(r, id)
    ensures MountsOf(Intended(r, id)) == [Observed(VolumeMount, WorkspaceVolume(id), r.workspace)] + Scratch(r.mounts)
  {
    LimitMounts(r, id);
    ScratchMounts(r.mounts);
    NoMountsElsewhere(r, id);
    FiveMountParts(LeadingFlags(id), SeccompFlags(r.seccomp), LimitFlags(r, id), EphemeralFlags(r.mounts),
                   EnvironmentFlags(r.environment));
  }

  lemma StoragePasses(r: Request, volume: string, i: Input)
    requires i.request == r && i.volume == volume && i.instance.readOnlyRoot
    requires forall m :: m in r.mounts ==> m.Ephemeral?
    requires i.instance.mounts == [Observed(VolumeMount, volume, r.workspace)] + Scratch(r.mounts)
    requires forall o :: o in Scratch(r.mounts) <==> exists m :: m in r.mounts && o == Observed(TmpfsMount, "", m.path)
    ensures MountsSatisfied(i) && WorkspaceSatisfied(i)
  {
    var w := Observed(VolumeMount, volume, r.workspace);
    var mounts := i.instance.mounts;
    assert mounts[0] == w;
    forall m | m in mounts ensures KeyOf(m) in Expected(r) && (m.kind == VolumeMount ==> m == w) {
      assert m == w || m in Scratch(r.mounts);
    }
    forall k | k in Expected(r) ensures k in ObservedKeys(mounts) {
      if k == Key(VolumeMount, r.workspace) {
        assert KeyOf(w) == k && w in mounts;
      } else {
        var m :| m in r.mounts && k == Key(TmpfsMount, m.path);
        var o := Observed(TmpfsMount, "", m.path);
        assert o in Scratch(r.mounts) && o in mounts && KeyOf(o) == k;
      }
    }
    assert w !in Scratch(r.mounts);
    assert multiset(mounts)[w] == 1;
  }

  // --- sockets ---------------------------------------------------------------------------

  function LastPiece(s: string, cut: char -> bool): string {
    var pieces := SplitOn(s, cut);
    pieces[|pieces| - 1]
  }

  /** A separator splits a text into the pieces of its two sides. */
  lemma {:induction false} SplitAtCut(a: string, c: char, b: string, cut: char -> bool)
    requires cut(c)
    ensures SplitOn(a + [c] + b, cut) == SplitOn(a, cut) + SplitOn(b, cut)
  {
    var s := a + [c] + b;
    if a == [] {
      assert s == [c] + b && s[1..] == b;
    } else {
      SplitAtCut(a[1..], c, b, cut);
      assert s[1..] == a[1..] + [c] + b && s[0] == a[0];
      PieceBefore(a[0], SplitOn(a[1..], cut), SplitOn(b, cut), cut);
      assert s[..1] == [a[0]] == a[..1];
    }
  }

  /** One more character at the front of the first piece, or a piece of its own. */
  function Fronted(c: char, pieces: seq<string>, cut: char -> bool): seq<string>
    requires pieces != []
  {
    if cut(c) then [[]] + pieces else [[c] + pieces[0]] + pieces[1..]
  }

  lemma PieceBefore(c: char, a: seq<string>, b: seq<string>, cut: char -> bool)
    requires a != []
    ensures Fronted(c, a + b, cut) == Fronted(c, a, cut) + b
  {
    assert (a + b)[0] == a[0] && (a + b)[1..] == a[1..] + b;
  }

  predicate NoCut(b: string, cut: char -> bool) { forall i :: 0 <= i < |b| ==> !cut(b[i]) }

  /** A tail without separators belongs to the last piece. */
  lemma {:induction false} TailInLast(a: string, b: string, cut: char -> bool)
    requires NoCut(b, cut)
    ensures LastPiece(a + b, cut) == LastPiece(a, cut) + b
    decreases |a|
  {
    if a == [] {
      OnePiece(b, cut);
      assert a + b == b == [] + b;
    } else {
      TailInLast(a[1..], b, cut);
      TailStep(a, b, cut);
    }
  }

  lemma TailStep(a: string, b: string, cut: char -> bool)
    requires a != [] && NoCut(b, cut) && LastPiece(a[1..] + b, cut) == LastPiece(a[1..], cut) + b
    ensures LastPiece(a + b, cut) == LastPiece(a, cut) + b
  {
    var ab := a + b;
    HeadOf(a, b);
    SameCount(a[1..], b, cut);
    LastOfStep(a, cut);
    LastOfStep(ab, cut);
    Grouped(a[..1], LastPiece(a[1..], cut), b);
  }

  lemma HeadOf(a: string, b: string)
    requires a != []
    ensures a + b != [] && (a + b)[0] == a[0] && (a + b)[..1] == a[..1] && (a + b)[1..] == a[1..] + b
  {
  }

  lemma Grouped(x: string, y: string, z: string)
    ensures (x + y) + z == x + (y + z)
  {
  }

  lemma {:induction false} OnePiece(b: string, cut: char -> bool)
    requires NoCut(b, cut)
    ensures SplitOn(b, cut) == [b]
  {
    if b != [] {
      OnePiece(b[1..], cut);
      assert b == b[..1] + b[1..];
    }
  }

  lemma {:induction false} SameCount(a: string, b: string, cut: char -> bool)
    requires NoCut(b, cut)
    ensures |SplitOn(a + b, cut)| == |SplitOn(a, cut)|
  {
    if a == [] {
      assert a + b == b;
      OnePiece(b, cut);
    } else {
      SameCount(a[1..], b, cut);
      assert (a + b)[1..] == a[1..] + b;
    }
  }

  lemma LastOfStep(a: string, cut: char -> bool)
    requires a != []
    ensures LastPiece(a, cut) ==
      if !cut(a[0]) && |SplitOn(a[1..], cut)| == 1 then a[..1] + LastPiece(a[1..], cut) else LastPiece(a[1..], cut)
  {
  }

  predicate Slashes(s: string) { forall i :: 0 <= i < |s| ==> s[i] == '/' }

  lemma {:induction false} Stripped(s: string)
    ensures var t := WithoutTrailingSlashes(s);
      t <= s && Slashes(s[|t|..]) && (t == [] || t[|t| - 1] != '/')
  {
    if s != [] && s[|s| - 1] == '/' {
      Stripped(s[..|s| - 1]);
      var t := WithoutTrailingSlashes(s);
      assert s[|t|..] == s[..|s| - 1][|t|..] + ['/'];
    }
  }

  lemma {:induction false} StripsTo(t: string, slashes: string)
    requires t != [] && t[|t| - 1] != '/' && Slashes(slashes)
    ensures WithoutTrailingSlashes(t + slashes) == t
  {
    if slashes == [] {
      assert t + slashes == t;
    } else {
      StripsTo(t, slashes[..|slashes| - 1]);
      assert (t + slashes)[..|t + slashes| - 1] == t + slashes[..|slashes| - 1];
    }
  }

  predicate IsSuffix(last: string, s: string) { |last| <= |s| && s[|s| - |last|..] == last }

  /** A last piece: a suffix of the text, all of it or what comes after a separator. */
  predicate EndsPiece(last: string, s: string, cut: char -> bool) {
    IsSuffix(last, s) && (|last| < |s| ==> cut(s[|s| - |last| - 1]))
  }

  lemma EndsPieceOfTail(last: string, s: string, cut: char -> bool)
    requires s != [] && EndsPiece(last, s[1..], cut) && (|last| == |s| - 1 ==> cut(s[0]))
    ensures EndsPiece(last, s, cut)
  {
    var t := s[1..];
    assert s[|s| - |last|..] == t[|t| - |last|..];
    if |last| < |t| {
      assert s[|s| - |last| - 1] == t[|t| - |last| - 1];
    }
  }

  lemma WholePiece(s: string, cut: char -> bool)
    requires s != []
    ensures EndsPiece(s[..1] + s[1..], s, cut)
  {
    assert s[..1] + s[1..] == s && s[0..] == s;
  }

  /** The last piece is a suffix, and what comes before it ends in a separator. */
  lemma {:induction false} LastIsSuffix(s: string, cut: char -> bool)
    ensures EndsPiece(LastPiece(s, cut), s, cut) && (|LastPiece(s, cut)| == |s| <==> |SplitOn(s, cut)| == 1)
  {
    if s != [] {
      LastIsSuffix(s[1..], cut);
      LastStep(s, LastPiece(s[1..], cut), |SplitOn(s[1..], cut)|, cut);
    }
  }

  lemma LastStep(s: string, rest: string, count: nat, cut: char -> bool)
    requires s != [] && rest == LastPiece(s[1..], cut) && count == |SplitOn(s[1..], cut)|
    requires EndsPiece(rest, s[1..], cut) && (|rest| == |s| - 1 <==> count == 1)
    ensures EndsPiece(LastPiece(s, cut), s, cut) && (|LastPiece(s, cut)| == |s| <==> |SplitOn(s, cut)| == 1)
  {
    LastOfStep(s, cut);
    CountStep(s, cut);
    if !cut(s[0]) && count == 1 {
      assert rest == s[1..] by {
        assert s[1..][0..] == s[1..];
      }
      WholePiece(s, cut);
    } else {
      EndsPieceOfTail(rest, s, cut);
    }
  }

  lemma CountStep(s: string, cut: char -> bool)
    requires s != []
    ensures |SplitOn(s, cut)| == |SplitOn(s[1..], cut)| + if cut(s[0]) then 1 else 0
  {
  }

  predicate IsSlash(c: char) { c == '/' }

  predicate IsSeparator(c: char) { c == ':' || c == ',' || c == '=' }

  /** A file name a path can end in: no slash in it, and no separator. */
  predicate IsFileName(n: string) {
    n != [] && forall i :: 0 <= i < |n| ==> !IsSlash(n[i]) && !IsSeparator(n[i])
  }

  predicate EndsIn(path: string, names: seq<string>) { LastPiece(WithoutTrailingSlashes(path), IsSlash) in names }

  const SOCKETS: seq<string> := ["docker.sock", "podman.sock", "containerd.sock", "crio.sock"]

  lemma SocketNames()
    ensures forall n :: n in SOCKETS ==> IsFileName(n)
  {
  }

  /** The sockets again, over named separators. */
  lemma SocketMeans(path: string)
    ensures IsRuntimeSocket(path) <==> EndsIn(path, SOCKETS)
    ensures Pieces(path) == SplitOn(path, IsSeparator)
  {
    SameSplit(WithoutTrailingSlashes(path), c => c == '/', IsSlash);
    SameSplit(path, c => c == ':' || c == ',' || c == '=', IsSeparator);
  }

  lemma {:induction false} SameSplit(s: string, cut: char -> bool, cut': char -> bool)
    requires forall c :: cut(c) == cut'(c)
    ensures SplitOn(s, cut) == SplitOn(s, cut')
  {
    if s != [] {
      SameSplit(s[1..], cut, cut');
    }
  }

  /** Nothing but a slash may come before a name that is a path's last segment. */
  lemma SegmentAfter(u: string, n: string)
    requires IsFileName(n) && (u == [] || u[|u| - 1] == '/')
    ensures LastPiece(u + n, IsSlash) == n
  {
    OnePiece(n, IsSlash);
    if u == [] {
      assert u + n == n;
    } else {
      var x := u[..|u| - 1];
      assert u + n == x + ['/'] + n;
      SplitAtCut(x, '/', n, IsSlash);
    }
  }

  /** A path that ends in one of some names, cut in three: what is before the name, the name,
      and its slashes. */
  lemma PathParts(s: string) returns (u: string, n: string, slashes: string)
    ensures s == u + n + slashes && n == LastPiece(WithoutTrailingSlashes(s), IsSlash) && Slashes(slashes)
    ensures u == [] || u[|u| - 1] == '/'
  {
    var t := WithoutTrailingSlashes(s);
    Stripped(s);
    LastIsSuffix(t, IsSlash);
    n := LastPiece(t, IsSlash);
    u, slashes := t[..|t| - |n|], s[|t|..];
    ThreeParts(s, t, n);
  }

  lemma ThreeParts(s: string, t: string, n: string)
    requires t <= s && IsSuffix(n, t)
    ensures s == t[..|t| - |n|] + n + s[|t|..]
  {
    assert t == t[..|t| - |n|] + n && s == t + s[|t|..];
  }

  lemma PartsEndIn(u: string, n: string, slashes: string, names: seq<string>)
    requires n in names && IsFileName(n) && Slashes(slashes) && (u == [] || u[|u| - 1] == '/')
    ensures EndsIn(u + n + slashes, names)
  {
    SegmentAfter(u, n);
    assert (u + n)[|u + n| - 1] == n[|n| - 1];
    StripsTo(u + n, slashes);
  }

  /** Such a path ends in that name still when only its last piece is kept. */
  lemma EndSurvives(s: string, names: seq<string>)
    requires EndsIn(s, names) && forall n :: n in names ==> IsFileName(n)
    ensures EndsIn(LastPiece(s, IsSeparator), names)
  {
    var u, n, slashes := PathParts(s);
    assert NoCut(n + slashes, IsSeparator);
    TailInLast(u, n + slashes, IsSeparator);
    assert s == u + (n + slashes);
    var kept := LastPiece(u, IsSeparator);
    PieceEnds(u);
    PartsEndIn(kept, n, slashes, names);
    assert kept + n + slashes == kept + (n + slashes);
  }

  /** A socket's path is a socket still in the last piece any separator leaves of it. */
  lemma SocketSurvives(s: string)
    requires IsRuntimeSocket(s)
    ensures IsRuntimeSocket(LastPiece(s, IsSeparator))
  {
    SocketNames();
    SocketMeans(s);
    EndSurvives(s, SOCKETS);
    SocketMeans(LastPiece(s, IsSeparator));
  }

  lemma PieceEnds(u: string)
    requires u == [] || u[|u| - 1] == '/'
    ensures var p := LastPiece(u, IsSeparator); p == [] || p[|p| - 1] == '/'
  {
    LastIsSuffix(u, IsSeparator);
  }

  /** So an audited token holds no socket on either side of its first separator. */
  lemma SidesAreClean(a: string, b: string)
    requires forall piece :: piece in Pieces(a + ":" + b) ==> !IsRuntimeSocket(piece)
    ensures !IsRuntimeSocket(a) && !IsRuntimeSocket(b)
  {
    SocketMeans(a + ":" + b);
    SplitAtCut(a, ':', b, IsSeparator);
    assert LastPiece(a, IsSeparator) in SplitOn(a, IsSeparator) && LastPiece(b, IsSeparator) in SplitOn(b, IsSeparator);
    if IsRuntimeSocket(a) {
      SocketSurvives(a);
    }
    if IsRuntimeSocket(b) {
      SocketSurvives(b);
    }
  }

  // --- the whole -------------------------------------------------------------------------

  lemma {:induction false} ValueIsToken(flags: seq<Flag>, f: Flag)
    requires f in flags && f.value.Some?
    ensures f.value.value in Tokens(flags)
  {
    if flags[0] == f {
      assert f.value.value in [f.value.value];
    } else {
      ValueIsToken(flags[1..], f);
    }
  }

  lemma FlagIsClean(r: Request, id: string, f: Flag, a: string, b: string)
    requires NamesNoSocket(Options(r, id)) && f in Intended(r, id) && f.value == Some(a + ":" + b)
    ensures !IsRuntimeSocket(a) && !IsRuntimeSocket(b)
  {
    ValueIsToken(Intended(r, id), f);
    var i :| 0 <= i < |Options(r, id)| && Options(r, id)[i] == a + ":" + b;
    SidesAreClean(a, b);
  }

  lemma {:induction false} EphemeralIn(mounts: seq<Mount>, m: Mount)
    requires m in mounts && m.Ephemeral?
    ensures Flag(Tmpfs, Some(TmpfsArgument(m))) in EphemeralFlags(mounts)
  {
    if mounts[0] != m {
      EphemeralIn(mounts[1..], m);
    }
  }

  /** An audited vector mounts at no socket, from none. */
  lemma MountsAreClean(r: Request, id: string)
    requires NamesNoSocket(Options(r, id)) && forall m :: m in r.mounts ==> m.Ephemeral?
    ensures !IsRuntimeSocket(WorkspaceVolume(id)) && !IsRuntimeSocket(r.workspace)
    ensures forall m :: m in r.mounts ==> !IsRuntimeSocket(m.path)
  {
    FlagIsClean(r, id, LimitFlags(r, id)[4], WorkspaceVolume(id), r.workspace);
    forall m | m in r.mounts ensures !IsRuntimeSocket(m.path) {
      var options := TMPFS_OPTIONS + (if m.sizeBytes.Some? then ",size=" + m.sizeBytes.value else "");
      EphemeralIn(r.mounts, m);
      assert TmpfsArgument(m) == m.path + ":" + options;
      FlagIsClean(r, id, Flag(Tmpfs, Some(TmpfsArgument(m))), m.path, options);
    }
  }

  function Made(r: Request, id: string, q: Quotas, host: Capability): Input {
    Input(r, q, Obeying(Intended(r, id), q), host, host.fingerprint, NO_NETWORK, WorkspaceVolume(id))
  }

  lemma BindsReachNothing(r: Request, id: string)
    requires Plain(r, id) && !IsRuntimeSocket(WorkspaceVolume(id))
    ensures var source := BindSource(WorkspaceVolume(id) + ":" + r.workspace);
      !IsRuntimeSocket(source) && !StartsWith(source, '/')
  {
    VolumeHasNoColon(id);
    ColonAt(WorkspaceVolume(id), r.workspace);
    assert WorkspaceVolume(id)[0] == 'r';
  }

  lemma ReachPasses(r: Request, id: string, q: Quotas, host: Capability)
    requires Shaped(r) && Plain(r, id) && NamesNoSocket(Options(r, id))
    ensures ReachSatisfied(Made(r, id, q, host))
  {
    var i := Made(r, id, q, host);
    MountsAreClean(r, id);
    BindsReachNothing(r, id);
    IntendedMounts(r, id);
    ScratchHolds(r.mounts);
    IntendedGives(r, id, Volume);
    assert i.instance.binds == [WorkspaceVolume(id) + ":" + r.workspace];
    forall o | o in i.instance.mounts ensures !IsRuntimeSocket(o.destination) {
      assert o == i.instance.mounts[0] || o in Scratch(r.mounts);
    }
  }

  /** The first option that names a profile, in a list of the two the renderer writes. */
  lemma ProfileFound(first: string, s: Seccomp)
    requires first != [] && first[0] != 's' && SECCOMP[0] == 's'
    ensures SeccompOption([first] + (if s.ProfileFile? then [SECCOMP + s.path] else [])) ==
      if s.ProfileFile? then Some(SECCOMP + s.path) else None
  {
    if s.ProfileFile? {
      var options := [first] + [SECCOMP + s.path];
      assert options[1..] == [SECCOMP + s.path];
      assert (SECCOMP + s.path)[..|SECCOMP|] == SECCOMP;
    } else {
      assert ([first] + [])[1..] == [];
    }
  }

  lemma SeccompAttests(r: Request, id: string, q: Quotas, host: Capability)
    requires Shaped(r) && host.seccomp
    ensures SeccompSatisfied(Made(r, id, q, host)) && "no-new-privileges" in Made(r, id, q, host).instance.securityOptions
  {
    IntendedGives(r, id, SecurityOpt);
    assert "no-new-privileges"[0] == 'n';
    ProfileFound("no-new-privileges", r.seccomp);
    if r.seccomp.ProfileFile? {
      ProfileIsConfined(r.seccomp.path);
    }
  }

  lemma PrivilegesAttest(r: Request, id: string, q: Quotas, host: Capability)
    requires Shaped(r) && host.seccomp
    ensures PrivilegesSatisfied(Made(r, id, q, host))
  {
    RenderedOnly(r, id, {Privileged});
    RenderedOnly(r, id, {CapAdd});
    IntendedGives(r, id, CapDrop);
    SeccompAttests(r, id, q, host);
  }

  lemma NamespacesAttest(r: Request, id: string, q: Quotas, host: Capability)
    requires Shaped(r)
    ensures NetworkSatisfied(Made(r, id, q, host)) && PidSatisfied(Made(r, id, q, host))
  {
    IntendedGives(r, id, Network);
    RenderedOnly(r, id, {Pid});
    NoNetworkIsOwn();
  }

  lemma StorageAttests(r: Request, id: string, q: Quotas, host: Capability)
    requires Shaped(r) && Plain(r, id)
    ensures MountsSatisfied(Made(r, id, q, host)) && WorkspaceSatisfied(Made(r, id, q, host))
  {
    IntendedMounts(r, id);
    ScratchHolds(r.mounts);
    ReadOnlyNamed(r, id);
    StoragePasses(r, WorkspaceVolume(id), Made(r, id, q, host));
  }

  lemma ReadOnlyNamed(r: Request, id: string)
    ensures Named(Intended(r, id), {ReadOnly})
  {
    var before := LeadingFlags(id) + SeccompFlags(r.seccomp);
    assert Intended(r, id)[|before| + 3] == LimitFlags(r, id)[3];
  }

  lemma AuditedPlainAttests(r: Request, id: string, q: Quotas, host: Capability)
    requires Accepted(r) && Plain(r, id) && Audited(Options(r, id)) && PositiveQuotas(q) && host.seccomp
    ensures Authorized(Made(r, id, q, host))
  {
    AcceptedIsShaped(r);
    AuditPassesExactly(r, id);
    ReachPasses(r, id, q, host);
    SeccompAttests(r, id, q, host);
    PrivilegesAttest(r, id, q, host);
    NamespacesAttest(r, id, q, host);
    StorageAttests(r, id, q, host);
  }

  // --- what the syntax cannot carry ------------------------------------------------------------

  lemma {:induction false} NoColonBefore(v: string)
    ensures ':' !in BindSource(v)
  {
    if v != [] && v[0] != ':' {
      NoColonBefore(v[1..]);
      assert BindSource(v) == v[..1] + BindSource(v[1..]);
    }
  }

  predicate ColonFree(m: Observed) { ':' !in m.source && ':' !in m.destination }

  lemma MountIsColonFree(f: Flag)
    ensures forall m :: m in MountOf(f) ==> ColonFree(m)
  {
    NoColonBefore(ValueOf(f));
    NoColonBefore(AfterColon(ValueOf(f)));
  }

  lemma {:induction false} MountsAreColonFree(flags: seq<Flag>)
    ensures forall m :: m in MountsOf(flags) ==> ColonFree(m)
  {
    if flags != [] {
      MountIsColonFree(flags[0]);
      MountsAreColonFree(flags[1..]);
    }
  }

  /** A runtime cannot have been told of a path with a colon in it, and the Attestation does
      not let what it made of it pass. */
  lemma AttestedIsPlain(r: Request, id: string, q: Quotas, host: Capability)
    requires Accepted(r) && Authorized(Made(r, id, q, host))
    ensures Plain(r, id)
  {
    var i := Made(r, id, q, host);
    AcceptedIsShaped(r);
    MountsAreColonFree(Intended(r, id));
    var w :| w in i.instance.mounts && w.destination == r.workspace && w.source == i.volume;
    assert ColonFree(w);
    assert forall c :: c in id ==> c in WorkspaceVolume(id);
    forall m | m in r.mounts ensures ':' !in m.path {
      assert Key(TmpfsMount, m.path) in Expected(r);
      assert Key(TmpfsMount, m.path) in ObservedKeys(i.instance.mounts);
    }
  }

  /** The renderer, the audit and the Attestation agree: for every accepted request, an
      instance made exactly as the audited vector says, on a host that is still the host it
      was, is authorized exactly when that host applies seccomp, the quotas are positive, and
      the runtimes' syntax can carry its paths and its id. Where it can, what a refusal at
      that last gate shows is a runtime that did something else; where it cannot, the last
      gate never lets the instance start. */
  lemma AuditedInstanceAttests(r: Request, id: string, q: Quotas, host: Capability)
    requires Accepted(r) && Audited(Options(r, id))
    ensures Authorized(Made(r, id, q, host)) <==> Plain(r, id) && PositiveQuotas(q) && host.seccomp
  {
    if Authorized(Made(r, id, q, host)) {
      AttestedIsPlain(r, id, q, host);
    }
    if Plain(r, id) && PositiveQuotas(q) && host.seccomp {
      AuditedPlainAttests(r, id, q, host);
    }
  }
}
