/**
 The scope of a revalidation: one changed package and its dependents, or the reason why everything
 must be validated. The specification reads the descriptors, their dependency lists and the changed
 paths only as collections; the method below walks them as the planner does.
 */
module RevalidationPlan {
  import opened Prelude
  import opened Sequences
  import opened PackageGraph
  import P = RepoPaths

  datatype Descriptor = Descriptor(name: string, directory: string, workspaceDependencies: seq<string>)

  datatype Input = Input(changedPaths: seq<string>, iterationIndex: int, hasStepBaseline: bool,
                         isPrReady: bool, descriptors: seq<Descriptor>)

  datatype Reason =
    | PrReady | MissingBaseline | FirstIteration | EmptyChangedFiles | InvalidDescriptor
    | AmbiguousOwnership | UnresolvedDependency | CyclicDependency | OutsidePackage
    | MultiplePackages | UpstreamPackage

  datatype Scope = Full(reason: Reason) | Narrow(changedPackage: string, narrowedPackages: seq<string>)

  // ---------------------------------------------------------------- safe names and directories

  predicate SafeChar(c: char) {
    'a' <= c <= 'z' || 'A' <= c <= 'Z' || '0' <= c <= '9' || c == '_' || c == '.' || c == '-'
  }

  predicate SafeWord(s: string) { s != "" && forall k :: 0 <= k < |s| ==> SafeChar(s[k]) }

  /** An optional "@scope/" and one word. */
  predicate SafeName(s: string) {
    var parts := P.Split(s);
    || SafeWord(s)
    || (|parts| == 2 && |parts[0]| > 1 && parts[0][0] == '@' && SafeWord(parts[0][1..]) && SafeWord(parts[1]))
  }

  predicate SafeDirectory(s: string) {
    var parts := P.Split(s);
    forall k :: 0 <= k < |parts| ==> SafeWord(parts[k])
  }

  const INELIGIBLE_UPSTREAM := {"@ai-sdlc/shared", "@ai-sdlc/domain"}

  // ---------------------------------------------------------------- descriptors as packages

  /** A descriptor without the order and repetition of its dependency list. */
  datatype Package = Package(name: string, directory: string, deps: set<string>)

  function ToPackage(d: Descriptor): Package { Package(d.name, d.directory, Elements(d.workspaceDependencies)) }

  function Packages(ds: seq<Descriptor>): seq<Package> {
    seq(|ds|, i requires 0 <= i < |ds| => ToPackage(ds[i]))
  }

  predicate Sound(p: Package) {
    && SafeName(p.name)
    && P.Normalize(p.directory).Some? && SafeDirectory(P.Normalize(p.directory).value)
  }

  function Directory(p: Package): string {
    match P.Normalize(p.directory) case Some(d) => d case None => ""
  }

  function Names(ps: seq<Package>): set<string> { set p | p in ps :: p.name }

  function Directories(ps: seq<Package>): set<string> { set p | p in ps :: Directory(p) }

  function PackageFault(before: seq<Package>, p: Package): Option<Reason> {
    if !Sound(p) then Some(InvalidDescriptor)
    else if p.name in Names(before) || Directory(p) in Directories(before) then Some(AmbiguousOwnership)
    else None
  }

  /** The first fault in list order. */
  function Fault(ps: seq<Package>): Option<Reason> {
    if ps == [] then None
    else
      var before := ps[..|ps| - 1];
      match Fault(before)
      case Some(r) => Some(r)
      case None => PackageFault(before, ps[|ps| - 1])
  }

  function Dirs(ps: seq<Package>): map<string, string> {
    if ps == [] then map[]
    else var p := ps[|ps| - 1]; Dirs(ps[..|ps| - 1])[p.name := Directory(p)]
  }

  function Deps(ps: seq<Package>): Graph {
    if ps == [] then map[]
    else var p := ps[|ps| - 1]; Deps(ps[..|ps| - 1])[p.name := p.deps]
  }

  // ---------------------------------------------------------------- the specification

  ghost predicate Owns(dirs: map<string, string>, name: string, raw: string) {
    P.Normalize(raw).Some? && P.IsOwner(dirs, P.Normalize(raw).value, name)
  }

  ghost predicate AllOwned(dirs: map<string, string>, paths: set<string>) {
    forall raw :: raw in paths ==> exists name :: Owns(dirs, name, raw)
  }

  ghost function Owners(dirs: map<string, string>, paths: set<string>): set<string> {
    set name, raw | name in dirs && raw in paths && Owns(dirs, name, raw) :: name
  }

  ghost function GraphScope(dirs: map<string, string>, g: Graph, paths: set<string>,
                            lt: (string, string) -> bool): Scope
    requires StrictTotal(lt)
  {
    if !Closed(g) then Full(UnresolvedDependency)
    else if Cyclic(g) then Full(CyclicDependency)
    else if !AllOwned(dirs, paths) then Full(OutsidePackage)
    else if Owners(dirs, paths) == {} then Full(OutsidePackage)
    else if |Owners(dirs, paths)| > 1 then Full(MultiplePackages)
    else
      var seed :| seed in Owners(dirs, paths);
      if seed in INELIGIBLE_UPSTREAM then Full(UpstreamPackage)
      else
        Narrow(seed, TopoOrder(Below(g, Closure(g, seed)), {}, lt))
  }

  ghost function PlanSpec(input: Input, lt: (string, string) -> bool): Scope
    requires StrictTotal(lt)
  {
    var ps := Packages(input.descriptors);
    if input.isPrReady then Full(PrReady)
    else if !input.hasStepBaseline then Full(MissingBaseline)
    else if input.iterationIndex <= 1 then Full(FirstIteration)
    else if input.changedPaths == [] then Full(EmptyChangedFiles)
    else if Fault(ps).Some? then Full(Fault(ps).value)
    else GraphScope(Dirs(ps), Deps(ps), Elements(input.changedPaths), lt)
  }

  // ---------------------------------------------------------------- descriptor facts

  /** Sound packages with pairwise distinct names and directories, counted rather than indexed. */
  ghost predicate WellFormed(ps: seq<Package>) {
    && (forall p :: p in ps ==> Sound(p))
    && |Names(ps)| == |ps| && |Directories(ps)| == |ps|
  }

  lemma LastSplit(ps: seq<Package>)
    requires ps != []
    ensures
      var before, p := ps[..|ps| - 1], ps[|ps| - 1];
      && Names(ps) == Names(before) + {p.name}
      && Directories(ps) == Directories(before) + {Directory(p)}
      && forall q :: q in ps <==> q in before || q == p
  {
    assert ps == ps[..|ps| - 1] + [ps[|ps| - 1]];
  }

  lemma {:induction false} NamesCard(ps: seq<Package>)
    ensures |Names(ps)| <= |ps| && |Directories(ps)| <= |ps|
  {
    if ps != [] {
      NamesCard(ps[..|ps| - 1]);
      LastSplit(ps);
    }
  }

  lemma {:induction false} NoFaultIsWellFormed(ps: seq<Package>)
    ensures Fault(ps).None? <==> WellFormed(ps)
  {
    if ps != [] {
      var before, p := ps[..|ps| - 1], ps[|ps| - 1];
      NoFaultIsWellFormed(before);
      NamesCard(before);
      LastSplit(ps);
      if WellFormed(ps) {
        assert p.name !in Names(before) && Directory(p) !in Directories(before);
      }
    }
  }

  lemma WellFormedPrefix(ps: seq<Package>)
    requires WellFormed(ps) && ps != []
    ensures
      var before, p := ps[..|ps| - 1], ps[|ps| - 1];
      WellFormed(before) && p.name !in Names(before) && Directory(p) !in Directories(before)
  {
    LastSplit(ps);
    NamesCard(ps[..|ps| - 1]);
  }

  /** The two maps hold exactly the listed packages. */
  ghost predicate Describes(ps: seq<Package>, dirs: map<string, string>, g: Graph) {
    && dirs.Keys == Names(ps) && g.Keys == Names(ps)
    && forall p :: p in ps ==> p.name in dirs && p.name in g && dirs[p.name] == Directory(p) && g[p.name] == p.deps
  }

  lemma DescribesAppend(ps: seq<Package>, dirs: map<string, string>, g: Graph)
    requires ps != []
    requires
      var before, p := ps[..|ps| - 1], ps[|ps| - 1];
      p.name !in Names(before) && Describes(before, dirs, g)
    ensures
      var p := ps[|ps| - 1];
      Describes(ps, dirs[p.name := Directory(p)], g[p.name := p.deps])
  {
    LastSplit(ps);
    forall q | q in ps[..|ps| - 1] ensures q.name != ps[|ps| - 1].name {
      assert q.name in Names(ps[..|ps| - 1]);
    }
  }

  lemma {:induction false} MapsDescribe(ps: seq<Package>)
    requires WellFormed(ps)
    ensures Describes(ps, Dirs(ps), Deps(ps))
  {
    if ps != [] {
      WellFormedPrefix(ps);
      MapsDescribe(ps[..|ps| - 1]);
      DescribesAppend(ps, Dirs(ps[..|ps| - 1]), Deps(ps[..|ps| - 1]));
    }
  }

  lemma DescribedIsUnique(ps: seq<Package>, d1: map<string, string>, g1: Graph, d2: map<string, string>, g2: Graph)
    requires Describes(ps, d1, g1) && Describes(ps, d2, g2)
    ensures d1 == d2 && g1 == g2
  {
    forall n | n in Names(ps) ensures d1[n] == d2[n] && g1[n] == g2[n] {
      var p :| p in ps && p.name == n;
    }
  }

  /** Two names with one directory would make fewer directories than packages. */
  lemma {:induction false} DirectoriesDiffer(ps: seq<Package>)
    requires WellFormed(ps)
    ensures P.Injective(Dirs(ps)) && forall n :: n in Dirs(ps) ==> Dirs(ps)[n] in Directories(ps)
  {
    if ps != [] {
      WellFormedPrefix(ps);
      DirectoriesDiffer(ps[..|ps| - 1]);
      LastSplit(ps);
    }
  }

  // ---------------------------------------------------------------- the planner

  method ValidateDescriptors(ps: seq<Package>) returns (fault: Option<Reason>, dirs: map<string, string>, g: Graph)
    ensures fault == Fault(ps)
    ensures fault.None? ==> dirs == Dirs(ps) && g == Deps(ps)
  {
    fault, dirs, g := None, map[], map[];
    var seenDirs: set<string> := {};
    for k := 0 to |ps|
      invariant Validated(ps[..k], dirs, g, seenDirs)
    {
      var p := ps[k];
      ValidatedOneMore(ps, k, dirs, g, seenDirs);
      if !SafeName(p.name) { FaultIsFirst(ps, k + 1); return Some(InvalidDescriptor), dirs, g; }
      var normDir := P.NormalizeRepoRelativePath(p.directory);
      if normDir.None? || !SafeDirectory(normDir.value) {
        FaultIsFirst(ps, k + 1);
        return Some(InvalidDescriptor), dirs, g;
      }
      if p.name in dirs || normDir.value in seenDirs {
        FaultIsFirst(ps, k + 1);
        return Some(AmbiguousOwnership), dirs, g;
      }
      dirs := dirs[p.name := normDir.value];
      g := g[p.name := p.deps];
      seenDirs := seenDirs + {normDir.value};
    }
    assert ps[..|ps|] == ps;
  }

  /** What the loop knows of the descriptors it has accepted. */
  ghost predicate Validated(ps: seq<Package>, dirs: map<string, string>, g: Graph, seen: set<string>) {
    && Fault(ps).None? && dirs == Dirs(ps) && g == Deps(ps)
    && dirs.Keys == Names(ps) && seen == Directories(ps)
  }

  lemma ValidatedOneMore(ps: seq<Package>, k: nat, dirs: map<string, string>, g: Graph, seen: set<string>)
    requires k < |ps| && Validated(ps[..k], dirs, g, seen)
    ensures
      var p := ps[k];
      var fault := if !Sound(p) then Some(InvalidDescriptor)
                   else if p.name in dirs || Directory(p) in seen then Some(AmbiguousOwnership) else None;
      && Fault(ps[..k + 1]) == fault
      && (fault.None? ==> Validated(ps[..k + 1], dirs[p.name := Directory(p)], g[p.name := p.deps], seen + {Directory(p)}))
  {
    assert ps[..k + 1][..k] == ps[..k];
    LastSplit(ps[..k + 1]);
  }

  /** A fault in a prefix is the answer for the whole list. */
  lemma {:induction false} FaultIsFirst(ps: seq<Package>, k: nat)
    requires k <= |ps| && Fault(ps[..k]).Some?
    ensures Fault(ps) == Fault(ps[..k])
    decreases |ps|
  {
    if k == |ps| {
      assert ps[..k] == ps;
    } else {
      var before := ps[..|ps| - 1];
      assert before[..k] == ps[..k];
      FaultIsFirst(before, k);
    }
  }

  method MatchPackages(dirs: map<string, string>, names: seq<string>, changedPaths: seq<string>)
    returns (matched: Option<set<string>>)
    requires P.Injective(dirs) && Elements(names) == dirs.Keys
    ensures matched.None? <==> !AllOwned(dirs, Elements(changedPaths))
    ensures matched.Some? ==> matched.value == Owners(dirs, Elements(changedPaths))
  {
    var owners: set<string> := {};
    for k := 0 to |changedPaths|
      invariant AllOwned(dirs, Elements(changedPaths[..k])) && owners == Owners(dirs, Elements(changedPaths[..k]))
    {
      var raw := changedPaths[k];
      assert changedPaths[..k + 1] == changedPaths[..k] + [raw];
      assert Elements(changedPaths[..k + 1]) == Elements(changedPaths[..k]) + {raw};
      var normPath := P.NormalizeRepoRelativePath(raw);
      if normPath.None? {
        assert raw in Elements(changedPaths) && forall name :: !Owns(dirs, name, raw);
        return None;
      }
      var owner := P.FindOwner(dirs, names, normPath.value);
      if owner.None? {
        assert raw in Elements(changedPaths) && forall name :: !Owns(dirs, name, raw);
        return None;
      }
      OwnersGrow(dirs, Elements(changedPaths[..k]), raw, owner.value);
      owners := owners + {owner.value};
    }
    assert changedPaths[..|changedPaths|] == changedPaths;
    matched := Some(owners);
  }

  lemma OwnersGrow(dirs: map<string, string>, paths: set<string>, raw: string, owner: string)
    requires Owns(dirs, owner, raw)
    ensures Owners(dirs, paths + {raw}) == Owners(dirs, paths) + {owner}
    ensures AllOwned(dirs, paths) ==> AllOwned(dirs, paths + {raw})
  {
    forall name | name in Owners(dirs, paths + {raw}) ensures name in Owners(dirs, paths) + {owner} {
      var r :| r in paths + {raw} && Owns(dirs, name, r);
      if r == raw { P.OwnerIsUnique(dirs, P.Normalize(raw).value, name, owner); }
    }
  }

  lemma BelowReverse(g: Graph, rev: Graph, c: set<string>)
    requires c <= g.Keys && rev.Keys == g.Keys && forall d :: d in g ==> rev[d] == Dependents(g, d)
    ensures forall d :: d in c ==> rev[d] * c == Dependents(Below(g, c), d)
  {
  }

  lemma OneElement(s: set<string>, a: string, b: string)
    requires a in s && b in s && |s| <= 1
    ensures a == b
  {
    SubsetCard({a, b}, s);
  }

  function NameList(ps: seq<Package>): seq<string> { seq(|ps|, i requires 0 <= i < |ps| => ps[i].name) }

  lemma NameListHas(ps: seq<Package>)
    ensures Elements(NameList(ps)) == Names(ps)
  {
    forall i | 0 <= i < |ps| ensures ps[i].name in Elements(NameList(ps)) { assert NameList(ps)[i] == ps[i].name; }
  }

  /** Steps 0 to 9 of the planner: the checks in order, then the closure and its sorted order. */
  method PlanScope(input: Input, lt: (string, string) -> bool) returns (scope: Scope)
    requires StrictTotal(lt)
    ensures scope == PlanSpec(input, lt)
  {
    if input.isPrReady { return Full(PrReady); }
    if !input.hasStepBaseline { return Full(MissingBaseline); }
    if input.iterationIndex <= 1 { return Full(FirstIteration); }
    if input.changedPaths == [] { return Full(EmptyChangedFiles); }
    var ps := Packages(input.descriptors);
    var fault, dirs, g := ValidateDescriptors(ps);
    if fault.Some? { return Full(fault.value); }
    NoFaultIsWellFormed(ps);
    MapsDescribe(ps);
    DirectoriesDiffer(ps);
    NameListHas(ps);
    scope := ScopeOfGraph(dirs, NameList(ps), g, input.changedPaths, lt);
  }

  method ScopeOfGraph(dirs: map<string, string>, names: seq<string>, g: Graph, changedPaths: seq<string>,
                      lt: (string, string) -> bool)
    returns (scope: Scope)
    requires StrictTotal(lt) && P.Injective(dirs) && Elements(names) == dirs.Keys == g.Keys
    ensures scope == GraphScope(dirs, g, Elements(changedPaths), lt)
  {
    if exists n | n in g :: !(g[n] <= g.Keys) { return Full(UnresolvedDependency); }
    var rev := DirectDependents(g);
    var cyclic := HasCycle(g, rev);
    if cyclic { return Full(CyclicDependency); }
    var matched := MatchPackages(dirs, names, changedPaths);
    if matched.None? || matched.value == {} { return Full(OutsidePackage); }
    if |matched.value| > 1 { return Full(MultiplePackages); }
    var seed :| seed in matched.value;
    if seed in INELIGIBLE_UPSTREAM {
      UpstreamScope(dirs, g, Elements(changedPaths), lt, seed);
      return Full(UpstreamPackage);
    }
    var order := NarrowOrder(g, rev, seed, lt);
    NarrowScope(dirs, g, Elements(changedPaths), lt, seed);
    scope := Narrow(seed, order);
  }

  /** Steps 8 and 9: the closure of the seed and its order. */
  method NarrowOrder(g: Graph, rev: Graph, seed: string, lt: (string, string) -> bool) returns (order: seq<string>)
    requires StrictTotal(lt) && seed in g && rev.Keys == g.Keys && forall d :: d in g ==> rev[d] == Dependents(g, d)
    ensures order == TopoOrder(Below(g, Closure(g, seed)), {}, lt)
  {
    var closure := DependentClosure(g, rev, seed);
    var below := map n | n in closure :: g[n] * closure;
    BelowReverse(g, rev, closure);
    order := TopoSort(below, map n | n in closure :: rev[n] * closure, lt);
    assert below == Below(g, closure);
  }

  ghost predicate SingleOwner(dirs: map<string, string>, g: Graph, paths: set<string>, seed: string) {
    && Closed(g) && !Cyclic(g) && AllOwned(dirs, paths)
    && seed in Owners(dirs, paths) && |Owners(dirs, paths)| <= 1
  }

  lemma UpstreamScope(dirs: map<string, string>, g: Graph, paths: set<string>, lt: (string, string) -> bool, seed: string)
    requires StrictTotal(lt) && SingleOwner(dirs, g, paths, seed) && seed in INELIGIBLE_UPSTREAM
    ensures GraphScope(dirs, g, paths, lt) == Full(UpstreamPackage)
  {
    forall s | s in Owners(dirs, paths) ensures s == seed { OneElement(Owners(dirs, paths), s, seed); }
  }

  lemma NarrowScope(dirs: map<string, string>, g: Graph, paths: set<string>, lt: (string, string) -> bool, seed: string)
    requires StrictTotal(lt) && SingleOwner(dirs, g, paths, seed) && seed !in INELIGIBLE_UPSTREAM
    ensures GraphScope(dirs, g, paths, lt) == Narrow(seed, TopoOrder(Below(g, Closure(g, seed)), {}, lt))
  {
    forall s | s in Owners(dirs, paths) ensures s == seed { OneElement(Owners(dirs, paths), s, seed); }
  }

  // ---------------------------------------------------------------- what a plan means

  lemma ScopeParts(input: Input, lt: (string, string) -> bool)
    requires StrictTotal(lt) && PlanSpec(input, lt).Narrow?
    ensures
      var g := Deps(Packages(input.descriptors));
      var seed := PlanSpec(input, lt).changedPackage;
      && SingleOwner(Dirs(Packages(input.descriptors)), g, Elements(input.changedPaths), seed)
      && seed in g && seed !in INELIGIBLE_UPSTREAM
      && PlanSpec(input, lt).narrowedPackages == TopoOrder(Below(g, Closure(g, seed)), {}, lt)
  {
    var ps := Packages(input.descriptors);
    NoFaultIsWellFormed(ps);
    MapsDescribe(ps);
    GraphScopeParts(Dirs(ps), Deps(ps), Elements(input.changedPaths), lt);
  }

  lemma GraphScopeParts(dirs: map<string, string>, g: Graph, paths: set<string>, lt: (string, string) -> bool)
    requires StrictTotal(lt) && dirs.Keys == g.Keys && GraphScope(dirs, g, paths, lt).Narrow?
    ensures
      var seed := GraphScope(dirs, g, paths, lt).changedPackage;
      && SingleOwner(dirs, g, paths, seed) && seed in g && seed !in INELIGIBLE_UPSTREAM
      && GraphScope(dirs, g, paths, lt).narrowedPackages == TopoOrder(Below(g, Closure(g, seed)), {}, lt)
  {
  }

  /** Each package after every dependency of its that is in the list. */
  ghost predicate DependenciesFirst(g: Graph, s: seq<string>) {
    forall j, d :: 0 <= j < |s| && s[j] in g && d in g[s[j]] && d in s ==> exists i :: 0 <= i < j && s[i] == d
  }

  lemma OrderedIsDependenciesFirst(g: Graph, c: set<string>, s: seq<string>)
    requires c <= g.Keys && Topological(Below(g, c), s)
    ensures DependenciesFirst(g, s)
  {
    forall j, d | 0 <= j < |s| && s[j] in g && d in g[s[j]] && d in s ensures exists i :: 0 <= i < j && s[i] == d {
      var i :| 0 <= i < |s| && s[i] == d;
      assert s[j] in Elements(s) && d in Elements(s);
      assert d in Below(g, c)[s[j]];
      assert i < j;
    }
  }

  lemma SeedComesFirst(g: Graph, seed: string, lt: (string, string) -> bool)
    requires StrictTotal(lt) && Closed(g) && !Cyclic(g) && seed in g
    ensures
      var s := TopoOrder(Below(g, Closure(g, seed)), {}, lt);
      s != [] && s[0] == seed
  {
    OnlySeedIsReady(g, seed);
    assert Least({seed}, lt) == seed;
  }

  /**
   A narrow plan lists, without repetition, exactly the changed package and its transitive
   dependents, the changed package first and dependencies before dependents, in the name-least
   such order; and the changed package owns every changed path.
   */
  lemma NarrowPlanTheorem(input: Input, lt: (string, string) -> bool)
    requires StrictTotal(lt) && PlanSpec(input, lt).Narrow?
    ensures
      var g := Deps(Packages(input.descriptors));
      var seed := PlanSpec(input, lt).changedPackage;
      var s := PlanSpec(input, lt).narrowedPackages;
      && Distinct(s) && Elements(s) == Closure(g, seed)
      && s != [] && s[0] == seed && DependenciesFirst(g, s)
      && (forall t :: Topological(Below(g, Closure(g, seed)), t) ==> LexAtMost(s, t, lt))
  {
    ScopeParts(input, lt);
    var g := Deps(Packages(input.descriptors));
    var seed := PlanSpec(input, lt).changedPackage;
    var c := Closure(g, seed);
    BelowIsAcyclic(g, c);
    TopoIsTopological(Below(g, c), lt);
    OrderedIsDependenciesFirst(g, c, PlanSpec(input, lt).narrowedPackages);
    SeedComesFirst(g, seed, lt);
    forall t | Topological(Below(g, c), t) ensures LexAtMost(PlanSpec(input, lt).narrowedPackages, t, lt) {
      TopoIsLexLeast(Below(g, c), t, lt);
    }
  }

  /** The changed package is the one deepest owner of every changed path. */
  lemma NarrowOwnerTheorem(input: Input, lt: (string, string) -> bool, raw: string)
    requires StrictTotal(lt) && PlanSpec(input, lt).Narrow? && raw in input.changedPaths
    ensures Owns(Dirs(Packages(input.descriptors)), PlanSpec(input, lt).changedPackage, raw)
  {
    ScopeParts(input, lt);
    SingleOwnerOwns(Dirs(Packages(input.descriptors)), Deps(Packages(input.descriptors)),
                    Elements(input.changedPaths), PlanSpec(input, lt).changedPackage, raw);
  }

  lemma SingleOwnerOwns(dirs: map<string, string>, g: Graph, paths: set<string>, seed: string, raw: string)
    requires SingleOwner(dirs, g, paths, seed) && raw in paths
    ensures Owns(dirs, seed, raw)
  {
    var name :| Owns(dirs, name, raw);
    assert name in Owners(dirs, paths);
    OneElement(Owners(dirs, paths), name, seed);
  }

  // ---------------------------------------------------------------- why everything must be validated

  /** The characters of a safe word by their codes. */
  lemma SafeCharExactly(c: char)
    ensures SafeChar(c) <==> 97 <= c as int <= 122 || 65 <= c as int <= 90 || 48 <= c as int <= 57 || c as int in {95, 46, 45}
  {
  }

  /** A descriptor with an unsafe name, or with a directory that is not a safe path in the repository. */
  ghost predicate Broken(p: Package) {
    || !SafeName(p.name) || P.Normalize(p.directory).None?
    || exists part :: part in P.Split(P.Normalize(p.directory).value) && !SafeWord(part)
  }

  /** An earlier descriptor has its name or its directory. */
  ghost predicate Clashes(ps: seq<Package>, k: nat)
    requires k < |ps|
  {
    exists j :: 0 <= j < k && (ps[j].name == ps[k].name || P.Normalize(ps[j].directory) == P.Normalize(ps[k].directory))
  }

  /** Descriptor k is the first that is broken or clashes. */
  ghost predicate FirstFaultAt(ps: seq<Package>, k: nat) {
    && k < |ps| && (Broken(ps[k]) || Clashes(ps, k))
    && forall j :: 0 <= j < k ==> !Broken(ps[j]) && !Clashes(ps, j)
  }

  lemma SoundIsNotBroken(p: Package)
    ensures Sound(p) <==> !Broken(p)
  {
    if P.Normalize(p.directory).Some? {
      var parts := P.Split(P.Normalize(p.directory).value);
      assert SafeDirectory(P.Normalize(p.directory).value) <==> forall part :: part in parts ==> SafeWord(part);
    }
  }

  lemma ClashIsSeen(before: seq<Package>, p: Package)
    requires Sound(p) && forall q :: q in before ==> Sound(q)
    ensures Clashes(before + [p], |before|) <==> p.name in Names(before) || Directory(p) in Directories(before)
  {
    var ps := before + [p];
    if Clashes(ps, |before|) {
      var j :| 0 <= j < |before| && (ps[j].name == p.name || P.Normalize(ps[j].directory) == P.Normalize(p.directory));
      assert before[j] in before;
    }
    if p.name in Names(before) {
      var q :| q in before && q.name == p.name;
      var j :| 0 <= j < |before| && before[j] == q;
      assert ps[j].name == ps[|before|].name;
    }
    if Directory(p) in Directories(before) {
      var q :| q in before && Directory(q) == Directory(p);
      var j :| 0 <= j < |before| && before[j] == q;
      assert P.Normalize(ps[j].directory) == P.Normalize(ps[|before|].directory);
    }
  }

  /** The first faulty descriptor is broken, or else it clashes. */
  ghost predicate BrokenFirst(ps: seq<Package>) { exists k: nat :: FirstFaultAt(ps, k) && Broken(ps[k]) }

  ghost predicate ClashFirst(ps: seq<Package>) { exists k: nat :: FirstFaultAt(ps, k) && !Broken(ps[k]) }

  ghost predicate Faultless(ps: seq<Package>) { forall k :: 0 <= k < |ps| ==> !Broken(ps[k]) && !Clashes(ps, k) }

  lemma LastFault(ps: seq<Package>)
    requires ps != [] && Faultless(ps[..|ps| - 1])
    ensures
      var n := |ps| - 1;
      PackageFault(ps[..n], ps[n]) == if Broken(ps[n]) then Some(InvalidDescriptor) else if Clashes(ps, n) then Some(AmbiguousOwnership) else None
  {
    var n := |ps| - 1;
    var before, p := ps[..n], ps[n];
    SoundIsNotBroken(p);
    forall q | q in before ensures Sound(q) {
      var k :| 0 <= k < |before| && before[k] == q;
      assert !Broken(before[k]);
      SoundIsNotBroken(q);
    }
    if Sound(p) { ClashIsSeen(before, p); }
    assert before + [p] == ps;
  }

  /** The fault is the one of the first faulty descriptor. */
  lemma {:induction false} FaultExactly(ps: seq<Package>)
    ensures Fault(ps).None? ==> Faultless(ps)
    ensures Fault(ps) == Some(InvalidDescriptor) ==> BrokenFirst(ps)
    ensures Fault(ps) == Some(AmbiguousOwnership) ==> ClashFirst(ps)
    ensures Fault(ps) in {None, Some(InvalidDescriptor), Some(AmbiguousOwnership)}
  {
    if ps != [] {
      var before := ps[..|ps| - 1];
      FaultExactly(before);
      if Fault(before).None? { FaultAtLast(ps); } else { FaultCarriesOver(ps, |ps| - 1); }
    }
  }

  lemma FaultAtLast(ps: seq<Package>)
    requires ps != [] && Fault(ps[..|ps| - 1]).None? && Faultless(ps[..|ps| - 1])
    ensures Fault(ps).None? ==> Faultless(ps)
    ensures Fault(ps) == Some(InvalidDescriptor) ==> BrokenFirst(ps)
    ensures Fault(ps) == Some(AmbiguousOwnership) ==> ClashFirst(ps)
    ensures Fault(ps) in {None, Some(InvalidDescriptor), Some(AmbiguousOwnership)}
  {
    var n := |ps| - 1;
    LastFault(ps);
    FaultlessBefore(ps, n);
    if Broken(ps[n]) || Clashes(ps, n) { assert FirstFaultAt(ps, n); }
  }

  lemma FaultlessBefore(ps: seq<Package>, n: nat)
    requires n <= |ps| && Faultless(ps[..n])
    ensures forall j :: 0 <= j < n ==> !Broken(ps[j]) && !Clashes(ps, j)
  {
    ClashesInPrefix(ps, n);
  }

  lemma FaultCarriesOver(ps: seq<Package>, n: nat)
    requires n <= |ps|
    ensures BrokenFirst(ps[..n]) ==> BrokenFirst(ps)
    ensures ClashFirst(ps[..n]) ==> ClashFirst(ps)
  {
    ClashesInPrefix(ps, n);
    forall k: nat | FirstFaultAt(ps[..n], k) ensures FirstFaultAt(ps, k) && ps[..n][k] == ps[k] {}
  }

  /** So exactly one of the three is the case. */
  lemma FaultIff(ps: seq<Package>)
    ensures Fault(ps) == Some(InvalidDescriptor) <==> BrokenFirst(ps)
    ensures Fault(ps) == Some(AmbiguousOwnership) <==> ClashFirst(ps)
    ensures Fault(ps).None? <==> WellFormed(ps)
    ensures Fault(ps) in {None, Some(InvalidDescriptor), Some(AmbiguousOwnership)}
  {
    FaultExactly(ps);
    NoFaultIsWellFormed(ps);
    forall j: nat, k: nat | FirstFaultAt(ps, j) && FirstFaultAt(ps, k) ensures j == k {}
  }

  lemma ClashesInPrefix(ps: seq<Package>, n: nat)
    requires n <= |ps|
    ensures forall k :: 0 <= k < n ==> Clashes(ps[..n], k) == Clashes(ps, k)
    ensures forall k :: 0 <= k < n ==> ps[..n][k] == ps[k]
  {
    forall k | 0 <= k < n ensures Clashes(ps[..n], k) == Clashes(ps, k) {
      assert forall j :: 0 <= j < k ==> ps[..n][j] == ps[j];
    }
  }

  /** The checks before the descriptors pass. */
  ghost predicate Asked(input: Input) {
    !input.isPrReady && input.hasStepBaseline && input.iterationIndex > 1 && input.changedPaths != []
  }

  /** So do those of the descriptors and of their graph. */
  ghost predicate Charted(input: Input) {
    var ps := Packages(input.descriptors);
    Asked(input) && WellFormed(ps) && Closed(Deps(ps)) && !Cyclic(Deps(ps))
  }

  /** The package owns every changed path. */
  ghost predicate OwnsAll(dirs: map<string, string>, paths: set<string>, name: string) {
    forall raw :: raw in paths ==> Owns(dirs, name, raw)
  }

  ghost predicate NoneOwnsAll(dirs: map<string, string>, paths: set<string>) { forall name :: !OwnsAll(dirs, paths, name) }

  ghost predicate Unresolved(ps: seq<Package>) { exists p, d :: p in ps && d in p.deps && d !in Names(ps) }

  /** The reason, each with everything before it in order. */
  ghost predicate RefusedFor(input: Input, why: Reason) {
    var ps := Packages(input.descriptors);
    var dirs, paths := Dirs(ps), Elements(input.changedPaths);
    match why
    case PrReady => input.isPrReady
    case MissingBaseline => !input.isPrReady && !input.hasStepBaseline
    case FirstIteration => !input.isPrReady && input.hasStepBaseline && input.iterationIndex <= 1
    case EmptyChangedFiles => !input.isPrReady && input.hasStepBaseline && input.iterationIndex > 1 && input.changedPaths == []
    case InvalidDescriptor => Asked(input) && BrokenFirst(ps)
    case AmbiguousOwnership => Asked(input) && ClashFirst(ps)
    case UnresolvedDependency => Asked(input) && WellFormed(ps) && Unresolved(ps)
    case CyclicDependency => Asked(input) && WellFormed(ps) && Closed(Deps(ps)) && Cyclic(Deps(ps))
    case OutsidePackage => Charted(input) && !AllOwned(dirs, paths)
    case MultiplePackages => Charted(input) && AllOwned(dirs, paths) && NoneOwnsAll(dirs, paths)
    case UpstreamPackage => Charted(input) && (OwnsAll(dirs, paths, "@ai-sdlc/shared") || OwnsAll(dirs, paths, "@ai-sdlc/domain"))
  }

  lemma OwnersOfOne(dirs: map<string, string>, paths: set<string>, name: string)
    requires paths != {} && AllOwned(dirs, paths)
    ensures OwnsAll(dirs, paths, name) <==> Owners(dirs, paths) == {name}
  {
    if OwnsAll(dirs, paths, name) {
      var raw :| raw in paths;
      assert name in Owners(dirs, paths);
      forall n | n in Owners(dirs, paths) ensures n == name {
        var r :| r in paths && Owns(dirs, n, r);
        P.OwnerIsUnique(dirs, P.Normalize(r).value, n, name);
      }
    }
    if Owners(dirs, paths) == {name} {
      forall raw | raw in paths ensures Owns(dirs, name, raw) {
        var n :| Owns(dirs, n, raw);
        assert n in Owners(dirs, paths);
      }
    }
  }

  lemma OneOrMany(s: set<string>)
    requires s != {}
    ensures |s| > 1 <==> forall name :: s != {name}
  {
    var n :| n in s;
    if |s| <= 1 {
      forall m | m in s ensures m == n { OneElement(s, m, n); }
      assert s == {n};
    }
  }

  lemma SomeOwner(dirs: map<string, string>, paths: set<string>)
    requires paths != {} && AllOwned(dirs, paths)
    ensures Owners(dirs, paths) != {}
  {
    var raw :| raw in paths;
    var n :| Owns(dirs, n, raw);
    assert n in Owners(dirs, paths);
  }

  /** Two owners are two packages, of which none owns everything. */
  lemma ManyOwners(dirs: map<string, string>, paths: set<string>)
    requires paths != {} && AllOwned(dirs, paths)
    ensures |Owners(dirs, paths)| > 1 <==> NoneOwnsAll(dirs, paths)
  {
    SomeOwner(dirs, paths);
    OneOrMany(Owners(dirs, paths));
    forall name ensures OwnsAll(dirs, paths, name) <==> Owners(dirs, paths) == {name} { OwnersOfOne(dirs, paths, name); }
  }

  lemma OneOwnerDecides(dirs: map<string, string>, g: Graph, paths: set<string>, lt: (string, string) -> bool, name: string)
    requires StrictTotal(lt) && Closed(g) && !Cyclic(g) && paths != {} && AllOwned(dirs, paths) && OwnsAll(dirs, paths, name)
    ensures
      var scope := GraphScope(dirs, g, paths, lt);
      if name == "@ai-sdlc/shared" || name == "@ai-sdlc/domain" then scope == Full(UpstreamPackage)
      else scope.Narrow? && scope.changedPackage == name
  {
    OwnersOfOne(dirs, paths, name);
    if name in INELIGIBLE_UPSTREAM { UpstreamScope(dirs, g, paths, lt, name); } else { NarrowScope(dirs, g, paths, lt, name); }
  }

  /** The reason that is given is the case. */
  lemma ReasonIsTrue(input: Input, lt: (string, string) -> bool)
    requires StrictTotal(lt) && PlanSpec(input, lt).Full?
    ensures RefusedFor(input, PlanSpec(input, lt).reason)
  {
    var ps := Packages(input.descriptors);
    FaultIff(ps);
    if Asked(input) && WellFormed(ps) {
      ClosedExactly(ps);
      if Charted(input) { OwnerReason(input, lt); }
    }
  }

  /** Only one reason is the case. */
  lemma OneReason(input: Input, v: Reason, w: Reason)
    requires RefusedFor(input, v) && RefusedFor(input, w)
    ensures v == w
  {
    var ps := Packages(input.descriptors);
    FaultIff(ps);
    if WellFormed(ps) { ClosedExactly(ps); }
    if RefusedFor(input, UpstreamPackage) { UpstreamIsOwner(input); }
  }

  lemma UpstreamIsOwner(input: Input)
    requires RefusedFor(input, UpstreamPackage)
    ensures
      var dirs, paths := Dirs(Packages(input.descriptors)), Elements(input.changedPaths);
      AllOwned(dirs, paths) && !NoneOwnsAll(dirs, paths)
  {
    var dirs, paths := Dirs(Packages(input.descriptors)), Elements(input.changedPaths);
    if OwnsAll(dirs, paths, "@ai-sdlc/shared") { OwnerOfAll(dirs, paths, "@ai-sdlc/shared"); }
    else { OwnerOfAll(dirs, paths, "@ai-sdlc/domain"); }
  }

  lemma OwnerOfAll(dirs: map<string, string>, paths: set<string>, name: string)
    requires OwnsAll(dirs, paths, name)
    ensures AllOwned(dirs, paths) && !NoneOwnsAll(dirs, paths)
  {
  }

  lemma SameOwnerOfAll(dirs: map<string, string>, paths: set<string>, a: string, b: string)
    requires paths != {} && OwnsAll(dirs, paths, a) && OwnsAll(dirs, paths, b)
    ensures a == b
  {
    var raw :| raw in paths;
    P.OwnerIsUnique(dirs, P.Normalize(raw).value, a, b);
  }

  /** Each reason is given exactly in its own situation. */
  lemma ReasonExactly(input: Input, lt: (string, string) -> bool, why: Reason)
    requires StrictTotal(lt)
    ensures PlanSpec(input, lt) == Full(why) <==> RefusedFor(input, why)
  {
    if PlanSpec(input, lt).Full? {
      ReasonIsTrue(input, lt);
      if RefusedFor(input, why) { OneReason(input, why, PlanSpec(input, lt).reason); }
    } else {
      NarrowExactly(input, lt, PlanSpec(input, lt).changedPackage);
      NarrowIsNotRefused(input, PlanSpec(input, lt).changedPackage, why);
    }
  }

  lemma NarrowIsNotRefused(input: Input, name: string, why: Reason)
    requires Charted(input) && OwnsAll(Dirs(Packages(input.descriptors)), Elements(input.changedPaths), name)
    requires name != "@ai-sdlc/shared" && name != "@ai-sdlc/domain"
    ensures !RefusedFor(input, why)
  {
    var ps, paths := Packages(input.descriptors), Elements(input.changedPaths);
    FaultIff(ps);
    ClosedExactly(ps);
    assert input.changedPaths[0] in paths;
    NoUpstream(Dirs(ps), paths, name);
  }

  lemma NoUpstream(dirs: map<string, string>, paths: set<string>, name: string)
    requires paths != {} && OwnsAll(dirs, paths, name) && name != "@ai-sdlc/shared" && name != "@ai-sdlc/domain"
    ensures AllOwned(dirs, paths) && !NoneOwnsAll(dirs, paths)
    ensures !OwnsAll(dirs, paths, "@ai-sdlc/shared") && !OwnsAll(dirs, paths, "@ai-sdlc/domain")
  {
    OwnerOfAll(dirs, paths, name);
    forall other | OwnsAll(dirs, paths, other) ensures other == name { SameOwnerOfAll(dirs, paths, other, name); }
  }

  /** The plan is narrow exactly when nothing is wrong with the request and one package that is not upstream owns all changed paths. */
  lemma NarrowExactly(input: Input, lt: (string, string) -> bool, name: string)
    requires StrictTotal(lt)
    ensures
      PlanSpec(input, lt).Narrow? && PlanSpec(input, lt).changedPackage == name <==>
      && Charted(input) && OwnsAll(Dirs(Packages(input.descriptors)), Elements(input.changedPaths), name)
      && name != "@ai-sdlc/shared" && name != "@ai-sdlc/domain"
  {
    var ps, paths := Packages(input.descriptors), Elements(input.changedPaths);
    FaultIff(ps);
    if PlanSpec(input, lt).Narrow? && PlanSpec(input, lt).changedPackage == name {
      ScopeParts(input, lt);
      forall raw | raw in paths ensures Owns(Dirs(ps), name, raw) { SingleOwnerOwns(Dirs(ps), Deps(ps), paths, name, raw); }
    } else if Charted(input) && OwnsAll(Dirs(ps), paths, name) {
      assert input.changedPaths[0] in paths;
      OneOwnerDecides(Dirs(ps), Deps(ps), paths, lt, name);
    }
  }

  lemma ClosedExactly(ps: seq<Package>)
    requires WellFormed(ps)
    ensures !Closed(Deps(ps)) <==> Unresolved(ps)
  {
    MapsDescribe(ps);
    if !Closed(Deps(ps)) {
      var n :| n in Deps(ps) && !(Deps(ps)[n] <= Deps(ps).Keys);
      var p :| p in ps && p.name == n;
      var d :| d in Deps(ps)[n] && d !in Deps(ps);
      assert p in ps && d in p.deps && d !in Names(ps);
    }
    if p, d :| p in ps && d in p.deps && d !in Names(ps) {
      assert d in Deps(ps)[p.name] && d !in Deps(ps);
    }
  }

  /** The part of the answer that depends on the owners of the changed paths. */
  lemma OwnerReason(input: Input, lt: (string, string) -> bool)
    requires StrictTotal(lt) && Charted(input) && PlanSpec(input, lt).Full?
    ensures RefusedFor(input, PlanSpec(input, lt).reason)
  {
    var ps, paths := Packages(input.descriptors), Elements(input.changedPaths);
    var dirs, g := Dirs(ps), Deps(ps);
    FaultIff(ps);
    assert input.changedPaths[0] in paths;
    OwnersDecide(dirs, g, paths, lt);
  }

  lemma OwnersDecide(dirs: map<string, string>, g: Graph, paths: set<string>, lt: (string, string) -> bool)
    requires StrictTotal(lt) && Closed(g) && !Cyclic(g) && paths != {} && GraphScope(dirs, g, paths, lt).Full?
    ensures
      var why := GraphScope(dirs, g, paths, lt).reason;
      && why in {OutsidePackage, MultiplePackages, UpstreamPackage}
      && (why == OutsidePackage ==> !AllOwned(dirs, paths)) && (why != OutsidePackage ==> AllOwned(dirs, paths))
      && (why == MultiplePackages ==> NoneOwnsAll(dirs, paths))
      && (why == UpstreamPackage ==> OwnsAll(dirs, paths, "@ai-sdlc/shared") || OwnsAll(dirs, paths, "@ai-sdlc/domain"))
  {
    if AllOwned(dirs, paths) {
      ManyOwners(dirs, paths);
      SomeOwner(dirs, paths);
      if !NoneOwnsAll(dirs, paths) {
        var name :| OwnsAll(dirs, paths, name);
        OneOwnerDecides(dirs, g, paths, lt, name);
      }
    }
  }

  /** cyclic_dependency is the answer exactly when the earlier checks pass and there is a cycle. */
  lemma CyclicExactly(input: Input, lt: (string, string) -> bool)
    requires StrictTotal(lt)
    ensures
      var ps := Packages(input.descriptors);
      PlanSpec(input, lt) == Full(CyclicDependency) <==>
        && !input.isPrReady && input.hasStepBaseline && input.iterationIndex > 1 && input.changedPaths != []
        && WellFormed(ps) && Closed(Deps(ps)) && Cyclic(Deps(ps))
  {
    ReasonExactly(input, lt, CyclicDependency);
  }

  // ---------------------------------------------------------------- order of the inputs

  /** The same request: descriptors, dependency lists and changed paths in any order. */
  ghost predicate Reordered(a: Input, b: Input) {
    && a.iterationIndex == b.iterationIndex && a.hasStepBaseline == b.hasStepBaseline && a.isPrReady == b.isPrReady
    && multiset(Packages(a.descriptors)) == multiset(Packages(b.descriptors))
    && Elements(a.changedPaths) == Elements(b.changedPaths)
  }

  lemma ReorderedMaps(ps: seq<Package>, qs: seq<Package>)
    requires WellFormed(ps) && multiset(ps) == multiset(qs)
    ensures WellFormed(qs) && Dirs(qs) == Dirs(ps) && Deps(qs) == Deps(ps)
  {
    assert |multiset(ps)| == |ps| && |multiset(qs)| == |qs|;
    forall p ensures p in ps <==> p in qs { assert p in ps <==> p in multiset(ps); assert p in qs <==> p in multiset(qs); }
    SameSets(ps, qs);
    MapsDescribe(ps);
    MapsDescribe(qs);
    assert Describes(ps, Dirs(qs), Deps(qs));
    DescribedIsUnique(ps, Dirs(ps), Deps(ps), Dirs(qs), Deps(qs));
  }

  lemma SameSets(ps: seq<Package>, qs: seq<Package>)
    requires forall p :: p in ps <==> p in qs
    ensures Names(ps) == Names(qs) && Directories(ps) == Directories(qs)
  {
  }

  /** The narrow plan does not depend on any of those orders. */
  lemma NarrowPlanIgnoresOrder(a: Input, b: Input, lt: (string, string) -> bool)
    requires StrictTotal(lt) && Reordered(a, b) && PlanSpec(a, lt).Narrow?
    ensures PlanSpec(b, lt) == PlanSpec(a, lt)
  {
    var ps, qs := Packages(a.descriptors), Packages(b.descriptors);
    NoFaultIsWellFormed(ps);
    ReorderedMaps(ps, qs);
    NoFaultIsWellFormed(qs);
    assert a.changedPaths[0] in Elements(b.changedPaths);
  }
}
