/**
 The capability-policy resolver: paths as component lists, allow-lists of
 recursive path scopes, their intersection, and the subset check that guards
 the trust boundary.
 */
module Policy {
  import opened Wrappers

  datatype Component = RootDir | CurDir | ParentDir | Normal(name: string)

  predicate IsComponents(cs: seq<Component>) {
    forall i :: 0 < i < |cs| ==> !cs[i].RootDir?
  }

  /** What `Path::components` yields: a root can only come first. */
  type Path = cs: seq<Component> | IsComponents(cs) witness []

  datatype TrustLevel = WorkDir | Host | Remote

  datatype PathScope = PathScope(path: Path, trust: TrustLevel)

  datatype FsPolicy = FsPolicy(readPaths: seq<PathScope>, writePaths: seq<PathScope>)

  datatype NetCategory = PackageManager | HttpsApi | Dns | PrivateLan

  datatype EgressRule = EgressRule(host: string, ports: seq<nat>, category: Option<NetCategory>)

  datatype CapabilityPolicy = CapabilityPolicy(fs: FsPolicy, egress: seq<EgressRule>)

  datatype AgentRole = Reader | Operator

  datatype EffectivePolicy = EffectivePolicy(fs: FsPolicy, egress: seq<EgressRule>, role: AgentRole)

  datatype SubsetViolation = SubsetViolation(read: seq<Path>, write: seq<Path>, net: seq<string>)

  // ---------------------------------------------------------------- paths

  /** One turn of the normaliser's loop: `.` is skipped, `..` pops (even a root), the rest is pushed. */
  function Step(parts: seq<Component>, c: Component): seq<Component> {
    match c
    case CurDir => parts
    case ParentDir => if parts == [] then [] else parts[..|parts| - 1]
    case _ => parts + [c]
  }

  function Run(parts: seq<Component>, cs: seq<Component>): seq<Component>
    decreases cs
  {
    if cs == [] then parts else Run(Step(parts, cs[0]), cs[1..])
  }

  predicate DotFree(cs: seq<Component>) {
    forall i :: 0 <= i < |cs| ==> !cs[i].CurDir? && !cs[i].ParentDir?
  }

  lemma {:induction false} RunShape(parts: seq<Component>, cs: seq<Component>)
    requires DotFree(parts) && IsComponents(parts)
    requires forall i :: 0 <= i < |cs| ==> cs[i].RootDir? ==> i == 0 && parts == []
    ensures DotFree(Run(parts, cs)) && IsComponents(Run(parts, cs))
    decreases cs
  {
    if cs != [] {
      RunShape(Step(parts, cs[0]), cs[1..]);
    }
  }

  function Normalized(path: Path): (r: Path)
    ensures DotFree(r)
  {
    RunShape([], path);
    Run([], path)
  }

  method NormalizePath(path: Path) returns (r: Path)
    ensures r == Normalized(path)
  {
    var parts: seq<Component> := [];
    for i := 0 to |path|
      invariant Run([], path) == Run(parts, path[i..])
    {
      match path[i] {
        case CurDir =>
        case ParentDir =>
          if parts != [] {
            parts := parts[..|parts| - 1];
          }
        case other =>
          parts := parts + [other];
      }
      assert path[i..][1..] == path[i + 1..];
    }
    RunShape([], path);
    r := parts;
  }

  lemma {:induction false} RunAppend(parts: seq<Component>, a: seq<Component>, b: seq<Component>)
    ensures Run(parts, a + b) == Run(Run(parts, a), b)
    decreases a
  {
    if a == [] {
      assert a + b == b;
    } else {
      assert (a + b)[1..] == a[1..] + b;
      RunAppend(Step(parts, a[0]), a[1..], b);
    }
  }

  lemma {:induction false} RunDotFree(parts: seq<Component>, cs: seq<Component>)
    requires DotFree(cs)
    ensures Run(parts, cs) == parts + cs
    decreases cs
  {
    if cs != [] {
      RunDotFree(parts + [cs[0]], cs[1..]);
    } else {
      assert parts + cs == parts;
    }
  }

  /** `norm(norm(p)) == norm(p)`, and a path without dots is its own normal form. */
  lemma NormalizeIdempotent(p: Path)
    ensures Normalized(Normalized(p)) == Normalized(p)
    ensures DotFree(p) ==> Normalized(p) == p
  {
    RunDotFree([], Normalized(p));
    if DotFree(p) {
      RunDotFree([], p);
    }
  }

  predicate Relative(p: Path) {
    p == [] || !p[0].RootDir?
  }

  /** `a.join(b)`: an absolute `b` replaces `a`; a leading `.` of `b` survives only at the very front. */
  function Join(a: Path, b: Path): Path {
    if !Relative(b) || a == [] then b
    else if b != [] && b[0].CurDir? then a + b[1..]
    else a + b
  }

  lemma RunJoin(a: Path, b: Path)
    requires Relative(b)
    ensures Run([], Join(a, b)) == Run(Run([], a), b)
  {
    if a == [] {
    } else if b != [] && b[0].CurDir? {
      RunAppend([], a, b[1..]);
    } else {
      RunAppend([], a, b);
    }
  }

  /** Normalising the left part first changes nothing. */
  lemma NormalizeJoin(a: Path, b: Path)
    requires Relative(b)
    ensures Normalized(Join(a, b)) == Normalized(Join(Normalized(a), b))
  {
    RunJoin(a, b);
    RunJoin(Normalized(a), b);
    NormalizeIdempotent(a);
  }

  /** `..` undoes one step down, so a scope is not escaped by going down and up again. */
  lemma NormalizeDownUp(a: Path, name: string)
    ensures Normalized(Join(Join(a, [Normal(name)]), [ParentDir])) == Normalized(a)
  {
    RunJoin(a, [Normal(name)]);
    RunJoin(Join(a, [Normal(name)]), [ParentDir]);
    var n := Run([], a);
    assert [Normal(name)][1..] == [];
    assert Run(n, [Normal(name)]) == n + [Normal(name)];
    assert [ParentDir][1..] == [];
    assert Run(n + [Normal(name)], [ParentDir]) == (n + [Normal(name)])[..|n|] == n;
  }

  /** The normal form component by component: a name goes one down, `.` nowhere, and `..` takes the last one off, be it the root. */
  lemma NormalizeSnoc(p: Path, name: string)
    ensures Normalized([]) == [] && Normalized([RootDir]) == [RootDir]
    ensures Normalized(p + [Normal(name)]) == Normalized(p) + [Normal(name)]
    ensures Normalized(p + [CurDir]) == Normalized(p)
    ensures Normalized(p + [ParentDir]) == if Normalized(p) == [] then [] else Normalized(p)[..|Normalized(p)| - 1]
  {
    RunAppend([], p, [Normal(name)]);
    RunAppend([], p, [CurDir]);
    RunAppend([], p, [ParentDir]);
    assert forall c: Component :: [c][1..] == [];
  }

  // ---------------------------------------------------------------- scopes

  predicate Under(p: Path, q: Path) {
    var np := Normalized(p);
    var nq := Normalized(q);
    np == nq || nq <= np
  }

  predicate PathWithin(p: Path, scope: PathScope) {
    Under(p, scope.path)
  }

  /** The set of paths a scope list stands for. */
  predicate Allowed(p: Path, scopes: seq<PathScope>) {
    exists s | s in scopes :: PathWithin(p, s)
  }

  /** A path lies in a scope if and only if its normal form goes on, by no name or more, from the scope's. */
  lemma WithinMeaning(p: Path, s: PathScope)
    ensures PathWithin(p, s) <==> exists rest: seq<Component> :: Normalized(p) == Normalized(s.path) + rest
  {
    var np, ns := Normalized(p), Normalized(s.path);
    hide Normalized;
    if PathWithin(p, s) {
      assert np == ns + np[|ns|..];
    }
  }

  lemma WithinTransitive(p: Path, s: PathScope, t: PathScope)
    requires PathWithin(p, s) && PathWithin(s.path, t)
    ensures PathWithin(p, t)
  {
  }

  lemma CommonPathOverlaps(p: Path, s: PathScope, t: PathScope)
    requires PathWithin(p, s) && PathWithin(p, t)
    ensures PathWithin(s.path, t) || PathWithin(t.path, s)
  {
    var np, ns, nt := Normalized(p), Normalized(s.path), Normalized(t.path);
    if |ns| <= |nt| {
      assert ns == nt[..|ns|];
    } else {
      assert nt == ns[..|nt|];
    }
  }

  predicate Overlap(sa: PathScope, sb: PathScope) {
    PathWithin(sa.path, sb) || PathWithin(sb.path, sa)
  }

  function FirstOverlap(sa: PathScope, b: seq<PathScope>): (r: Option<PathScope>)
    ensures r.None? <==> forall sb | sb in b :: !Overlap(sa, sb)
    ensures r.Some? ==> r.value in b && Overlap(sa, r.value)
  {
    if b == [] then None
    else if Overlap(sa, b[0]) then Some(b[0])
    else FirstOverlap(sa, b[1..])
  }

  function Tighter(sa: PathScope, sb: PathScope): PathScope {
    if PathWithin(sa.path, sb) then sa else sb
  }

  function PushIfNew(out: seq<PathScope>, s: PathScope): seq<PathScope> {
    if exists e | e in out :: e.path == s.path then out else out + [s]
  }

  function IntersectSet(a: seq<PathScope>, b: seq<PathScope>): seq<PathScope> {
    if a == [] then []
    else
      var out := IntersectSet(a[..|a| - 1], b);
      var sa := a[|a| - 1];
      match FirstOverlap(sa, b)
      case None => out
      case Some(sb) => PushIfNew(out, Tighter(sa, sb))
  }

  method IntersectScopes(a: seq<PathScope>, b: seq<PathScope>) returns (out: seq<PathScope>)
    ensures out == IntersectSet(a, b)
  {
    out := [];
    for i := 0 to |a|
      invariant out == IntersectSet(a[..i], b)
    {
      assert a[..i + 1][..i] == a[..i];
      match FirstOverlap(a[i], b) {
        case None =>
        case Some(sb) =>
          out := PushIfNew(out, Tighter(a[i], sb));
      }
    }
    assert a[..|a|] == a;
  }

  function PathsOf(scopes: seq<PathScope>): set<Path> {
    set s | s in scopes :: s.path
  }

  /** What a left scope contributes: the tighter of it and its first overlap. */
  function KeptPath(sa: PathScope, b: seq<PathScope>): Option<Path> {
    match FirstOverlap(sa, b)
    case None => None
    case Some(sb) => Some(Tighter(sa, sb).path)
  }

  predicate Kept(q: Path, a: seq<PathScope>, b: seq<PathScope>) {
    exists sa | sa in a :: KeptPath(sa, b) == Some(q)
  }

  /** The output's paths are the tighter ones of the first overlaps: no more and no fewer, whatever was deduplicated. */
  lemma {:induction false} IntersectPaths(a: seq<PathScope>, b: seq<PathScope>, q: Path)
    ensures q in PathsOf(IntersectSet(a, b)) <==> Kept(q, a, b)
  {
    hide Under;
    if a != [] {
      var a0, sa := a[..|a| - 1], a[|a| - 1];
      IntersectPaths(a0, b, q);
      assert a == a0 + [sa];
      KeptSnoc(q, a0, sa, b);
      match FirstOverlap(sa, b) {
        case None =>
        case Some(sb) => PushedPaths(IntersectSet(a0, b), Tighter(sa, sb));
      }
    }
  }

  lemma KeptSnoc(q: Path, a: seq<PathScope>, sa: PathScope, b: seq<PathScope>)
    ensures Kept(q, a + [sa], b) <==> Kept(q, a, b) || KeptPath(sa, b) == Some(q)
  {
    assert forall s :: s in a + [sa] <==> s in a || s == sa;
  }

  lemma PushedPaths(out: seq<PathScope>, s: PathScope)
    ensures PathsOf(PushIfNew(out, s)) == PathsOf(out) + {s.path}
  {
    assert forall t :: t in out + [s] <==> t in out || t == s;
  }

  lemma AllowedByPath(p: Path, scopes: seq<PathScope>)
    ensures Allowed(p, scopes) <==> exists q | q in PathsOf(scopes) :: Under(p, q)
  {
    if Allowed(p, scopes) {
      var s :| s in scopes && PathWithin(p, s);
      assert s.path in PathsOf(scopes);
    }
  }

  lemma AllowedByKept(p: Path, a: seq<PathScope>, b: seq<PathScope>)
    ensures Allowed(p, IntersectSet(a, b)) <==> exists sa | sa in a :: KeptPath(sa, b).Some? && Under(p, KeptPath(sa, b).value)
  {
    AllowedByPath(p, IntersectSet(a, b));
    if Allowed(p, IntersectSet(a, b)) {
      var q :| q in PathsOf(IntersectSet(a, b)) && Under(p, q);
      IntersectPaths(a, b, q);
    }
    if sa :| sa in a && KeptPath(sa, b).Some? && Under(p, KeptPath(sa, b).value) {
      IntersectPaths(a, b, KeptPath(sa, b).value);
    }
  }

  /** The intersection never grants a path that either side denies. */
  lemma IntersectSound(a: seq<PathScope>, b: seq<PathScope>, p: Path)
    requires Allowed(p, IntersectSet(a, b))
    ensures Allowed(p, a) && Allowed(p, b)
  {
    AllowedByKept(p, a, b);
    var sa :| sa in a && KeptPath(sa, b).Some? && Under(p, KeptPath(sa, b).value);
    var sb := FirstOverlap(sa, b).value;
    if PathWithin(sa.path, sb) {
      WithinTransitive(p, sa, sb);
    } else {
      WithinTransitive(p, sb, sa);
    }
  }

  /**
   The input condition under which nothing is lost: for every overlapping pair, the pair's tighter
   scope lies inside what some left scope keeps from its first overlap.
   */
  predicate NoOverlapSkipped(a: seq<PathScope>, b: seq<PathScope>) {
    forall sa, sb | sa in a && sb in b && Overlap(sa, sb) ::
      KeptSomewhere(Tighter(sa, sb).path, a, b)
  }

  predicate KeptSomewhere(p: Path, a: seq<PathScope>, b: seq<PathScope>) {
    exists sa | sa in a :: KeptPath(sa, b).Some? && Under(p, KeptPath(sa, b).value)
  }

  ghost predicate Exact(a: seq<PathScope>, b: seq<PathScope>) {
    forall p: Path :: Allowed(p, a) && Allowed(p, b) ==> Allowed(p, IntersectSet(a, b))
  }

  /** Taking only the first overlap is exact if and only if no overlap is skipped. */
  lemma IntersectExactIff(a: seq<PathScope>, b: seq<PathScope>)
    ensures Exact(a, b) <==> NoOverlapSkipped(a, b)
  {
    if NoOverlapSkipped(a, b) {
      forall p: Path | Allowed(p, a) && Allowed(p, b) ensures Allowed(p, IntersectSet(a, b)) {
        var sa :| sa in a && PathWithin(p, sa);
        var sb :| sb in b && PathWithin(p, sb);
        CommonPathOverlaps(p, sa, sb);
        var t := Tighter(sa, sb);
        AllowedByKept(t.path, a, b);
        var k :| k in IntersectSet(a, b) && PathWithin(t.path, k);
        WithinTransitive(p, t, k);
      }
    }
    if Exact(a, b) {
      forall sa, sb | sa in a && sb in b && Overlap(sa, sb)
        ensures KeptSomewhere(Tighter(sa, sb).path, a, b)
      {
        var p := Tighter(sa, sb).path;
        assert PathWithin(p, sa) && PathWithin(p, sb);
        assert Allowed(p, a) && Allowed(p, b);
        AllowedByKept(p, a, b);
      }
    }
  }

  /** A simple sufficient condition: each left scope overlaps at most one right scope. */
  lemma SingleOverlapIsExact(a: seq<PathScope>, b: seq<PathScope>)
    requires forall sa, sb, sc | sa in a && sb in b && sc in b && Overlap(sa, sb) && Overlap(sa, sc) :: sb == sc
    ensures NoOverlapSkipped(a, b)
  {
    forall sa, sb | sa in a && sb in b && Overlap(sa, sb)
      ensures KeptSomewhere(Tighter(sa, sb).path, a, b)
    {
      assert FirstOverlap(sa, b).value == sb;
    }
  }

  /**
   The failing family: a wide left scope over two right scopes loses the second, and swapping the
   arguments brings it back, so the intersection is not commutative.
   */
  lemma SecondOverlapIsLost(wide: PathScope, s1: PathScope, s2: PathScope)
    requires PathWithin(s1.path, wide) && PathWithin(s2.path, wide)
    requires !PathWithin(wide.path, s1) && !PathWithin(s2.path, s1)
    ensures Allowed(s2.path, [wide]) && Allowed(s2.path, [s1, s2])
    ensures !Allowed(s2.path, IntersectSet([wide], [s1, s2]))
    ensures Allowed(s2.path, IntersectSet([s1, s2], [wide]))
  {
    var a, b := [wide], [s1, s2];
    assert wide in a && s2 in b;
    assert FirstOverlap(wide, b) == Some(s1);
    assert KeptPath(wide, b) == Some(s1.path);
    AllowedByKept(s2.path, a, b);
    assert FirstOverlap(s2, a) == Some(wide);
    AllowedByKept(s2.path, b, a);
  }

  /** An instance of that family: `/` against `/a` and `/b`. */
  lemma RootLosesSecondScope()
    ensures var root: Path, pa: Path, pb: Path := [RootDir], [RootDir, Normal("a")], [RootDir, Normal("b")];
            var wide, narrow := [PathScope(root, Host)], [PathScope(pa, Host), PathScope(pb, Host)];
            && Allowed(pb, wide) && Allowed(pb, narrow)
            && !Allowed(pb, IntersectSet(wide, narrow)) && Allowed(pb, IntersectSet(narrow, wide))
  {
    var root: Path, pa: Path, pb: Path := [RootDir], [RootDir, Normal("a")], [RootDir, Normal("b")];
    RootAndChildren();
    hide IntersectSet, Allowed, Under, Normalized;
    SecondOverlapIsLost(PathScope(root, Host), PathScope(pa, Host), PathScope(pb, Host));
  }

  lemma RootAndChildren()
    ensures var root: Path, pa: Path, pb: Path := [RootDir], [RootDir, Normal("a")], [RootDir, Normal("b")];
            Under(pa, root) && Under(pb, root) && !Under(root, pa) && !Under(pb, pa)
  {
    var root: Path, pa: Path, pb: Path := [RootDir], [RootDir, Normal("a")], [RootDir, Normal("b")];
    NormalizeIdempotent(root);
    NormalizeIdempotent(pa);
    NormalizeIdempotent(pb);
    hide Normalized;
    assert pa[1] != pb[1];
  }

  function IntersectFs(a: FsPolicy, b: FsPolicy): FsPolicy {
    FsPolicy(IntersectSet(a.readPaths, b.readPaths), IntersectSet(a.writePaths, b.writePaths))
  }

  function IntersectNet(a: seq<EgressRule>, b: seq<EgressRule>): (r: seq<EgressRule>)
    ensures forall e :: e in r <==> e in a && e in b
  {
    if a == [] then []
    else (if a[0] in b then [a[0]] else []) + IntersectNet(a[1..], b)
  }

  function WorkDirOnly(scopes: seq<PathScope>): (r: seq<PathScope>)
    ensures forall s :: s in r <==> s in scopes && s.trust == WorkDir
  {
    if scopes == [] then []
    else (if scopes[0].trust == WorkDir then [scopes[0]] else []) + WorkDirOnly(scopes[1..])
  }

  function RoleNarrow(eff: EffectivePolicy, role: AgentRole): EffectivePolicy {
    match role
    case Operator => eff.(role := role)
    case Reader =>
      eff.(role := role, egress := [], fs := eff.fs.(writePaths := WorkDirOnly(eff.fs.writePaths)))
  }

  function ResolveEffective(operator: CapabilityPolicy, tenant: CapabilityPolicy, task: CapabilityPolicy,
                            role: AgentRole): EffectivePolicy
  {
    var fs := IntersectFs(IntersectFs(operator.fs, tenant.fs), task.fs);
    var egress := IntersectNet(IntersectNet(operator.egress, tenant.egress), task.egress);
    RoleNarrow(EffectivePolicy(fs, egress, role), role)
  }

  // ---------------------------------------------------------------- which trust level survives

  function KeptScope(sa: PathScope, b: seq<PathScope>): Option<PathScope> {
    match FirstOverlap(sa, b)
    case None => None
    case Some(sb) => Some(Tighter(sa, sb))
  }

  /** The first left scope that keeps the path of `s`, and it keeps `s` itself. */
  predicate Supplies(a: seq<PathScope>, b: seq<PathScope>, i: int, s: PathScope) {
    && 0 <= i < |a| && KeptScope(a[i], b) == Some(s)
    && forall j :: 0 <= j < i ==> KeptPath(a[j], b) != Some(s.path)
  }

  predicate Supplied(a: seq<PathScope>, b: seq<PathScope>, s: PathScope) {
    exists i :: 0 <= i < |a| && Supplies(a, b, i, s)
  }

  lemma KeptAt(a: seq<PathScope>, b: seq<PathScope>, q: Path)
    ensures Kept(q, a, b) <==> exists j :: 0 <= j < |a| && KeptPath(a[j], b) == Some(q)
  {
    if sa :| sa in a && KeptPath(sa, b) == Some(q) {
      var j :| 0 <= j < |a| && a[j] == sa;
    }
  }

  /** Of the scopes kept for one path, the first left scope's one is listed, with its trust level. */
  lemma {:induction false} IntersectMembers(a: seq<PathScope>, b: seq<PathScope>, s: PathScope)
    ensures s in IntersectSet(a, b) <==> Supplied(a, b, s)
  {
    hide Under, FirstOverlap;
    if a != [] {
      var n := |a| - 1;
      var a0 := a[..n];
      IntersectMembers(a0, b, s);
      assert forall i :: 0 <= i < n ==> (Supplies(a0, b, i, s) <==> Supplies(a, b, i, s));
      assert forall i :: Supplies(a0, b, i, s) ==> 0 <= i < n;
      KeptAt(a0, b, s.path);
      IntersectPaths(a0, b, s.path);
      hide IntersectSet, KeptPath, KeptScope, Supplies;
      LastSupplies(a, b, s);
    }
  }

  lemma LastSupplies(a: seq<PathScope>, b: seq<PathScope>, s: PathScope)
    requires a != []
    ensures Supplies(a, b, |a| - 1, s) <==>
            KeptScope(a[|a| - 1], b) == Some(s) && s.path !in PathsOf(IntersectSet(a[..|a| - 1], b))
    ensures s in IntersectSet(a, b) <==> s in IntersectSet(a[..|a| - 1], b) || Supplies(a, b, |a| - 1, s)
  {
    var a0 := a[..|a| - 1];
    KeptAt(a0, b, s.path);
    IntersectPaths(a0, b, s.path);
    hide Under, FirstOverlap;
    assert forall j :: 0 <= j < |a0| ==> a0[j] == a[j];
  }

  /** Among scopes of the same path the left one is kept, whatever the right one's trust level. */
  lemma EqualPathsKeepLeft(sa: PathScope, sb: PathScope)
    requires Normalized(sa.path) == Normalized(sb.path)
    ensures Overlap(sa, sb) && Tighter(sa, sb) == sa
  {
  }

  /** What a Reader may still write: the scopes of the three-way intersection that come out as WorkDir. */
  lemma ReaderWritesIff(operator: CapabilityPolicy, tenant: CapabilityPolicy, task: CapabilityPolicy, s: PathScope)
    ensures s in ResolveEffective(operator, tenant, task, Reader).fs.writePaths <==>
            && s.trust == WorkDir
            && Supplied(IntersectSet(operator.fs.writePaths, tenant.fs.writePaths), task.fs.writePaths, s)
  {
    hide IntersectSet, Supplied;
    var both := IntersectSet(operator.fs.writePaths, tenant.fs.writePaths);
    IntersectMembers(both, task.fs.writePaths, s);
    assert ResolveEffective(operator, tenant, task, Reader).fs.writePaths == WorkDirOnly(IntersectSet(both, task.fs.writePaths));
  }

  lemma OneScopeEach(sa: PathScope, sb: PathScope)
    requires Normalized(sa.path) == Normalized(sb.path)
    ensures IntersectSet([sa], [sb]) == [sa]
  {
    EqualPathsKeepLeft(sa, sb);
    hide Under;
    assert FirstOverlap(sa, [sb]) == Some(sb);
    var a := [sa];
    assert a[..|a| - 1] == [] && IntersectSet([], [sb]) == [];
    assert Tighter(sa, sb) == sa && PushIfNew([], sa) == [sa];
    hide Tighter, FirstOverlap, PushIfNew;
    assert IntersectSet(a, [sb]) == PushIfNew(IntersectSet(a[..|a| - 1], [sb]), sa);
  }

  function WriteOnly(scope: PathScope, egress: seq<EgressRule>): CapabilityPolicy {
    CapabilityPolicy(FsPolicy([], [scope]), egress)
  }

  /** A path that tenant and task mark Host stays writable for a Reader if and only if the operator marks it WorkDir. */
  lemma OperatorMarkDecides(path: Path, trust: TrustLevel, egress: seq<EgressRule>)
    ensures var operator, host := WriteOnly(PathScope(path, trust), egress), WriteOnly(PathScope(path, Host), egress);
            var eff := ResolveEffective(operator, host, host, Reader);
            Allowed(path, eff.fs.writePaths) <==> trust == WorkDir
  {
    var sa, sb := PathScope(path, trust), PathScope(path, Host);
    OneScopeEach(sa, sb);
    assert PathWithin(path, sa);
    var kept := WorkDirOnly([sa]);
    hide IntersectSet, Under, PathWithin;
    assert sa in kept <==> trust == WorkDir;
  }

  lemma ThreeWaySound(a: seq<PathScope>, b: seq<PathScope>, c: seq<PathScope>, p: Path)
    requires Allowed(p, IntersectSet(IntersectSet(a, b), c))
    ensures Allowed(p, a) && Allowed(p, b) && Allowed(p, c)
  {
    IntersectSound(IntersectSet(a, b), c, p);
    IntersectSound(a, b, p);
  }

  /** A path readable under the effective policy is readable under each of the three. */
  lemma ResolvedReadsSound(operator: CapabilityPolicy, tenant: CapabilityPolicy, task: CapabilityPolicy, role: AgentRole, p: Path)
    requires Allowed(p, ResolveEffective(operator, tenant, task, role).fs.readPaths)
    ensures Allowed(p, operator.fs.readPaths) && Allowed(p, tenant.fs.readPaths) && Allowed(p, task.fs.readPaths)
  {
    ThreeWaySound(operator.fs.readPaths, tenant.fs.readPaths, task.fs.readPaths, p);
  }

  /** A path writable under the effective policy is writable under each of the three, whatever the role keeps. */
  lemma ResolvedWritesSound(operator: CapabilityPolicy, tenant: CapabilityPolicy, task: CapabilityPolicy, role: AgentRole, p: Path)
    requires Allowed(p, ResolveEffective(operator, tenant, task, role).fs.writePaths)
    ensures Allowed(p, operator.fs.writePaths) && Allowed(p, tenant.fs.writePaths) && Allowed(p, task.fs.writePaths)
  {
    var all := IntersectSet(IntersectSet(operator.fs.writePaths, tenant.fs.writePaths), task.fs.writePaths);
    var s :| s in ResolveEffective(operator, tenant, task, role).fs.writePaths && PathWithin(p, s);
    assert s in all;
    ThreeWaySound(operator.fs.writePaths, tenant.fs.writePaths, task.fs.writePaths, p);
  }

  /** Egress is the common part of the three policies for an operator and nothing for a reader. */
  lemma ResolvedEgress(operator: CapabilityPolicy, tenant: CapabilityPolicy, task: CapabilityPolicy, role: AgentRole, r: EgressRule)
    ensures r in ResolveEffective(operator, tenant, task, role).egress <==>
            role != Reader && r in operator.egress && r in tenant.egress && r in task.egress
    ensures ResolveEffective(operator, tenant, task, role).role == role
  {
  }

  /** What three scope lists allow in common. */
  predicate AllowedByAll(p: Path, a: seq<PathScope>, b: seq<PathScope>, c: seq<PathScope>) {
    Allowed(p, a) && Allowed(p, b) && Allowed(p, c)
  }

  ghost predicate ThreeWayExact(a: seq<PathScope>, b: seq<PathScope>, c: seq<PathScope>) {
    forall p: Path :: AllowedByAll(p, a, b, c) ==> Allowed(p, IntersectSet(IntersectSet(a, b), c))
  }

  /** A path as a scope; which paths are kept does not depend on the trust level. */
  function AsScope(p: Path): PathScope { PathScope(p, WorkDir) }

  /** What a left scope contributes to two intersections in a row. */
  function KeptOfThree(sa: PathScope, b: seq<PathScope>, c: seq<PathScope>): Option<Path> {
    match KeptPath(sa, b)
    case None => None
    case Some(q) => KeptPath(AsScope(q), c)
  }

  predicate KeptByThree(p: Path, a: seq<PathScope>, b: seq<PathScope>, c: seq<PathScope>) {
    exists sa | sa in a :: KeptOfThree(sa, b, c).Some? && Under(p, KeptOfThree(sa, b, c).value)
  }

  /** Whatever a left scope keeps of the first step loses nothing against an overlapping third scope. */
  predicate SecondStepKeeps(a: seq<PathScope>, b: seq<PathScope>, c: seq<PathScope>) {
    forall sa, sc | sa in a && sc in c && KeptPath(sa, b).Some? && Overlap(AsScope(KeptPath(sa, b).value), sc) ::
      KeptByThree(Tighter(AsScope(KeptPath(sa, b).value), sc).path, a, b, c)
  }

  /** What the first step skips does not matter inside the third list. */
  predicate FirstStepKeeps(a: seq<PathScope>, b: seq<PathScope>, c: seq<PathScope>) {
    forall sa, sb, sc | sa in a && sb in b && sc in c && Overlap(sa, sb) && Overlap(Tighter(sa, sb), sc) ::
      KeptSomewhere(Tighter(Tighter(sa, sb), sc).path, a, b)
  }

  /** The input condition for three lists. */
  predicate NothingSkipped(a: seq<PathScope>, b: seq<PathScope>, c: seq<PathScope>) {
    SecondStepKeeps(a, b, c) && FirstStepKeeps(a, b, c)
  }

  lemma {:induction false} TrustIsIrrelevant(s: PathScope, c: seq<PathScope>)
    ensures FirstOverlap(s, c) == FirstOverlap(AsScope(s.path), c)
    ensures KeptPath(s, c) == KeptPath(AsScope(s.path), c)
  {
    if c != [] {
      TrustIsIrrelevant(s, c[1..]);
    }
  }

  lemma KeptByThreeIff(p: Path, a: seq<PathScope>, b: seq<PathScope>, c: seq<PathScope>)
    ensures KeptSomewhere(p, IntersectSet(a, b), c) <==> KeptByThree(p, a, b, c)
  {
    hide Under, IntersectSet, FirstOverlap;
    if KeptSomewhere(p, IntersectSet(a, b), c) {
      var s :| s in IntersectSet(a, b) && KeptPath(s, c).Some? && Under(p, KeptPath(s, c).value);
      TrustIsIrrelevant(s, c);
      assert s.path in PathsOf(IntersectSet(a, b));
      IntersectPaths(a, b, s.path);
    }
    if sa :| sa in a && KeptOfThree(sa, b, c).Some? && Under(p, KeptOfThree(sa, b, c).value) {
      IntersectPaths(a, b, KeptPath(sa, b).value);
      var s :| s in IntersectSet(a, b) && s.path == KeptPath(sa, b).value;
      TrustIsIrrelevant(s, c);
    }
  }

  /** The condition on the second step, said of the intermediate list and of the inputs. */
  lemma SecondStepKeepsIff(a: seq<PathScope>, b: seq<PathScope>, c: seq<PathScope>)
    ensures NoOverlapSkipped(IntersectSet(a, b), c) <==> SecondStepKeeps(a, b, c)
  {
    hide Under, IntersectSet, FirstOverlap, KeptSomewhere, KeptByThree;
    if NoOverlapSkipped(IntersectSet(a, b), c) {
      forall sa, sc | sa in a && sc in c && KeptPath(sa, b).Some? && Overlap(AsScope(KeptPath(sa, b).value), sc)
        ensures KeptByThree(Tighter(AsScope(KeptPath(sa, b).value), sc).path, a, b, c)
      {
        IntersectPaths(a, b, KeptPath(sa, b).value);
        var s :| s in IntersectSet(a, b) && s.path == KeptPath(sa, b).value;
        KeptByThreeIff(Tighter(s, sc).path, a, b, c);
      }
    }
    if SecondStepKeeps(a, b, c) {
      forall s, sc | s in IntersectSet(a, b) && sc in c && Overlap(s, sc)
        ensures KeptSomewhere(Tighter(s, sc).path, IntersectSet(a, b), c)
      {
        assert s.path in PathsOf(IntersectSet(a, b));
        IntersectPaths(a, b, s.path);
        var sa :| sa in a && KeptPath(sa, b) == Some(s.path);
        KeptByThreeIff(Tighter(s, sc).path, a, b, c);
      }
    }
  }

  lemma WithinTighter(p: Path, s: PathScope, t: PathScope)
    requires PathWithin(p, s) && PathWithin(p, t)
    ensures Overlap(s, t) && PathWithin(p, Tighter(s, t))
  {
    CommonPathOverlaps(p, s, t);
  }

  lemma TighterIsWithin(s: PathScope, t: PathScope)
    requires Overlap(s, t)
    ensures PathWithin(Tighter(s, t).path, s) && PathWithin(Tighter(s, t).path, t)
  {
  }

  lemma NothingSkippedSuffices(a: seq<PathScope>, b: seq<PathScope>, c: seq<PathScope>, p: Path)
    requires NothingSkipped(a, b, c) && AllowedByAll(p, a, b, c)
    ensures Allowed(p, IntersectSet(IntersectSet(a, b), c))
  {
    hide Under, IntersectSet, NoOverlapSkipped, SecondStepKeeps;
    SecondStepKeepsIff(a, b, c);
    var sa :| sa in a && PathWithin(p, sa);
    var sb :| sb in b && PathWithin(p, sb);
    var sc :| sc in c && PathWithin(p, sc);
    WithinTighter(p, sa, sb);
    WithinTighter(p, Tighter(sa, sb), sc);
    var u := Tighter(Tighter(sa, sb), sc);
    AllowedByKept(u.path, a, b);
    var k :| k in IntersectSet(a, b) && PathWithin(u.path, k);
    WithinTransitive(p, u, k);
    IntersectExactIff(IntersectSet(a, b), c);
  }

  /** Two intersections in a row are exact if and only if nothing that matters is skipped. */
  lemma ThreeWayExactIff(a: seq<PathScope>, b: seq<PathScope>, c: seq<PathScope>)
    ensures ThreeWayExact(a, b, c) <==> NothingSkipped(a, b, c)
  {
    hide Under, IntersectSet, NoOverlapSkipped, SecondStepKeeps;
    SecondStepKeepsIff(a, b, c);
    if NothingSkipped(a, b, c) {
      forall p: Path | AllowedByAll(p, a, b, c) ensures Allowed(p, IntersectSet(IntersectSet(a, b), c)) {
        NothingSkippedSuffices(a, b, c, p);
      }
    }
    if ThreeWayExact(a, b, c) {
      forall p: Path | Allowed(p, IntersectSet(a, b)) && Allowed(p, c)
        ensures Allowed(p, IntersectSet(IntersectSet(a, b), c))
      {
        IntersectSound(a, b, p);
        assert AllowedByAll(p, a, b, c);
      }
      IntersectExactIff(IntersectSet(a, b), c);
      forall sa, sb, sc | sa in a && sb in b && sc in c && Overlap(sa, sb) && Overlap(Tighter(sa, sb), sc)
        ensures KeptSomewhere(Tighter(Tighter(sa, sb), sc).path, a, b)
      {
        TripleIsKept(a, b, c, sa, sb, sc);
      }
    }
  }

  lemma TripleIsKept(a: seq<PathScope>, b: seq<PathScope>, c: seq<PathScope>, sa: PathScope, sb: PathScope, sc: PathScope)
    requires ThreeWayExact(a, b, c) && sa in a && sb in b && sc in c
    requires Overlap(sa, sb) && Overlap(Tighter(sa, sb), sc)
    ensures KeptSomewhere(Tighter(Tighter(sa, sb), sc).path, a, b)
  {
    hide IntersectSet;
    var t := Tighter(sa, sb);
    var u := Tighter(t, sc);
    TighterIsWithin(sa, sb);
    TighterIsWithin(t, sc);
    WithinTransitive(u.path, t, sa);
    WithinTransitive(u.path, t, sb);
    hide Under;
    assert AllowedByAll(u.path, a, b, c);
    IntersectSound(IntersectSet(a, b), c, u.path);
    AllowedByKept(u.path, a, b);
  }

  /** Exactness of each step is enough; each left scope overlapping at most one right scope gives that. */
  lemma ExactStepsSkipNothing(a: seq<PathScope>, b: seq<PathScope>, c: seq<PathScope>)
    requires NoOverlapSkipped(a, b) && NoOverlapSkipped(IntersectSet(a, b), c)
    ensures NothingSkipped(a, b, c)
  {
    IntersectExactIff(a, b);
    IntersectExactIff(IntersectSet(a, b), c);
    hide IntersectSet, NoOverlapSkipped;
    assert ThreeWayExact(a, b, c);
    ThreeWayExactIff(a, b, c);
  }

  // ---------------------------------------------------------------- the trust boundary

  function CheckPaths(child: seq<PathScope>, parent: seq<PathScope>): seq<Path> {
    if child == [] then []
    else
      var rest := CheckPaths(child[1..], parent);
      if exists p | p in parent :: PathWithin(child[0].path, p) then rest
      else [Normalized(child[0].path)] + rest
  }

  /** The report names exactly the normal forms of the child scopes that no parent scope contains. */
  lemma {:induction false} CheckPathsMembers(child: seq<PathScope>, parent: seq<PathScope>)
    ensures forall q: Path :: q in CheckPaths(child, parent) <==>
              exists c | c in child :: !Allowed(c.path, parent) && Normalized(c.path) == q
  {
    if child != [] {
      CheckPathsMembers(child[1..], parent);
      assert forall c :: c in child <==> c == child[0] || c in child[1..];
    }
  }

  ghost predicate Includes(parent: seq<PathScope>, child: seq<PathScope>) {
    forall p: Path :: Allowed(p, child) ==> Allowed(p, parent)
  }

  /** The syntactic check decides inclusion of path sets. */
  lemma CheckPathsDecides(child: seq<PathScope>, parent: seq<PathScope>)
    ensures CheckPaths(child, parent) == [] <==> Includes(parent, child)
  {
    CheckPathsMembers(child, parent);
    if CheckPaths(child, parent) == [] {
      forall p: Path | Allowed(p, child) ensures Allowed(p, parent) {
        var c :| c in child && PathWithin(p, c);
        assert Normalized(c.path) !in CheckPaths(child, parent);
        var s :| s in parent && PathWithin(c.path, s);
        WithinTransitive(p, c, s);
      }
    } else {
      var q := CheckPaths(child, parent)[0];
      assert q in CheckPaths(child, parent);
      var c :| c in child && !Allowed(c.path, parent) && Normalized(c.path) == q;
      assert PathWithin(c.path, c);
      assert Allowed(c.path, child);
    }
  }

  function CheckNet(child: seq<EgressRule>, parent: seq<EgressRule>): (r: seq<string>)
    ensures r == [] <==> forall e | e in child :: e in parent
    ensures forall h :: h in r <==> exists e | e in child :: e !in parent && e.host == h
  {
    if child == [] then []
    else
      var rest := CheckNet(child[1..], parent);
      assert forall e :: e in child <==> e == child[0] || e in child[1..];
      if child[0] in parent then rest else [child[0].host] + rest
  }

  function ValidateSubset(child: CapabilityPolicy, parent: CapabilityPolicy): Result<(), SubsetViolation> {
    var v := SubsetViolation(
               CheckPaths(child.fs.readPaths, parent.fs.readPaths),
               CheckPaths(child.fs.writePaths, parent.fs.writePaths),
               CheckNet(child.egress, parent.egress));
    if v.read == [] && v.write == [] && v.net == [] then Ok(()) else Err(v)
  }

  ghost predicate Subset(child: CapabilityPolicy, parent: CapabilityPolicy) {
    && Includes(parent.fs.readPaths, child.fs.readPaths)
    && Includes(parent.fs.writePaths, child.fs.writePaths)
    && (forall e | e in child.egress :: e in parent.egress)
  }

  /** Acceptance means inclusion, in both directions; hence the check is reflexive and transitive. */
  lemma ValidateSubsetDecides(a: CapabilityPolicy, b: CapabilityPolicy, c: CapabilityPolicy)
    ensures ValidateSubset(a, b).Ok? <==> Subset(a, b)
    ensures ValidateSubset(a, a).Ok?
    ensures ValidateSubset(a, b).Ok? && ValidateSubset(b, c).Ok? ==> ValidateSubset(a, c).Ok?
  {
    ValidateIffSubset(a, b);
    ValidateIffSubset(a, a);
    ValidateIffSubset(b, c);
    ValidateIffSubset(a, c);
  }

  lemma ValidateIffSubset(a: CapabilityPolicy, b: CapabilityPolicy)
    ensures ValidateSubset(a, b).Ok? <==> Subset(a, b)
  {
    CheckPathsDecides(a.fs.readPaths, b.fs.readPaths);
    CheckPathsDecides(a.fs.writePaths, b.fs.writePaths);
  }

  /** A refusal names the uncovered scopes under reading and writing as they are, and the hosts of the rules the parent lacks. */
  lemma ViolationNames(child: CapabilityPolicy, parent: CapabilityPolicy)
    requires ValidateSubset(child, parent).Err?
    ensures var v := ValidateSubset(child, parent).error;
            && (forall q: Path :: q in v.read <==>
                  exists c | c in child.fs.readPaths :: !Allowed(c.path, parent.fs.readPaths) && Normalized(c.path) == q)
            && (forall q: Path :: q in v.write <==>
                  exists c | c in child.fs.writePaths :: !Allowed(c.path, parent.fs.writePaths) && Normalized(c.path) == q)
            && (forall h :: h in v.net <==> exists e | e in child.egress :: e !in parent.egress && e.host == h)
  {
    CheckPathsMembers(child.fs.readPaths, parent.fs.readPaths);
    CheckPathsMembers(child.fs.writePaths, parent.fs.writePaths);
    hide CheckPaths, CheckNet, Allowed, Normalized;
  }

  function ResolveAndValidate(operator: CapabilityPolicy, tenant: CapabilityPolicy, task: CapabilityPolicy,
                              role: AgentRole): Result<EffectivePolicy, SubsetViolation>
  {
    match ValidateSubset(task, tenant)
    case Err(v) => Err(v)
    case Ok(_) => Ok(ResolveEffective(operator, tenant, task, role))
  }

  predicate NothingLost(operator: FsPolicy, tenant: FsPolicy, task: FsPolicy) {
    && NothingSkipped(operator.readPaths, tenant.readPaths, task.readPaths)
    && NothingSkipped(operator.writePaths, tenant.writePaths, task.writePaths)
  }

  ghost predicate SamePaths(a: FsPolicy, b: FsPolicy) {
    && (forall p: Path :: Allowed(p, a.readPaths) <==> Allowed(p, b.readPaths))
    && (forall p: Path :: Allowed(p, a.writePaths) <==> Allowed(p, b.writePaths))
  }

  lemma ChainIsExactIff(a: seq<PathScope>, b: seq<PathScope>, c: seq<PathScope>)
    requires Includes(a, b) && Includes(b, c)
    ensures NothingSkipped(a, b, c) <==>
            forall p: Path :: Allowed(p, IntersectSet(IntersectSet(a, b), c)) <==> Allowed(p, c)
  {
    ThreeWayExactIff(a, b, c);
    hide IntersectSet, NothingSkipped;
    forall p: Path ensures AllowedByAll(p, a, b, c) <==> Allowed(p, c) {
      assert Allowed(p, c) ==> Allowed(p, b);
    }
    forall p: Path | Allowed(p, IntersectSet(IntersectSet(a, b), c)) ensures Allowed(p, c) {
      ThreeWaySound(a, b, c, p);
    }
  }

  /**
   Along a validated chain, resolving for role Operator gives the task's egress rules, and exactly the
   task's path sets if and only if nothing that matters is skipped.
   */
  lemma ValidatedChainResolvesToTaskIff(operator: CapabilityPolicy, tenant: CapabilityPolicy, task: CapabilityPolicy)
    requires ValidateSubset(tenant, operator).Ok?
    ensures var r := ResolveAndValidate(operator, tenant, task, Operator);
            && (r.Ok? <==> Subset(task, tenant))
            && (r.Ok? ==>
                  && (SamePaths(r.value.fs, task.fs) <==> NothingLost(operator.fs, tenant.fs, task.fs))
                  && (forall e :: e in r.value.egress <==> e in task.egress))
  {
    ValidateIffSubset(task, tenant);
    ValidateIffSubset(tenant, operator);
    forall r ensures r in ResolveEffective(operator, tenant, task, Operator).egress <==>
                     r in operator.egress && r in tenant.egress && r in task.egress {
      ResolvedEgress(operator, tenant, task, Operator, r);
    }
    hide IntersectSet, NothingSkipped, Allowed;
    if Subset(task, tenant) {
      ChainIsExactIff(operator.fs.readPaths, tenant.fs.readPaths, task.fs.readPaths);
      ChainIsExactIff(operator.fs.writePaths, tenant.fs.writePaths, task.fs.writePaths);
    }
  }

  /**
   Validation is not enough: below a wide operator scope, a task that repeats its tenant's two scopes
   is accepted and still loses the second one.
   */
  lemma ValidatedTaskLosesScope(wide: PathScope, s1: PathScope, s2: PathScope, egress: seq<EgressRule>)
    requires PathWithin(s1.path, wide) && PathWithin(s2.path, wide)
    requires !PathWithin(wide.path, s1) && !PathWithin(s2.path, s1)
    ensures var operator := CapabilityPolicy(FsPolicy([wide], [wide]), egress);
            var tenant := CapabilityPolicy(FsPolicy([s1, s2], [s1, s2]), egress);
            && ValidateSubset(tenant, operator).Ok?
            && ResolveAndValidate(operator, tenant, tenant, Operator).Ok?
            && Allowed(s2.path, tenant.fs.readPaths)
            && !Allowed(s2.path, ResolveAndValidate(operator, tenant, tenant, Operator).value.fs.readPaths)
  {
    var operator := CapabilityPolicy(FsPolicy([wide], [wide]), egress);
    var tenant := CapabilityPolicy(FsPolicy([s1, s2], [s1, s2]), egress);
    ValidateIffSubset(tenant, operator);
    ValidateIffSubset(tenant, tenant);
    forall p: Path | Allowed(p, [s1, s2]) ensures Allowed(p, [wide]) {
      var s :| s in [s1, s2] && PathWithin(p, s);
      WithinTransitive(p, s, wide);
      assert wide in [wide];
    }
    SecondOverlapIsLost(wide, s1, s2);
    if Allowed(s2.path, IntersectSet(IntersectSet([wide], [s1, s2]), [s1, s2])) {
      IntersectSound(IntersectSet([wide], [s1, s2]), [s1, s2], s2.path);
    }
  }
}
