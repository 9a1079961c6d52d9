/**
 Classification of changed paths by task scope. Every changed path is normalised and put in one
 bucket. The regular expressions of orchestrator artifacts and the caller's own protection test are
 parameters, and so are the two sort orders: code units, a strict total order, and localeCompare for
 premature files, which may call different paths equal.
 */
module TaskScope {
  import opened Prelude
  import opened RepoPaths
  import opened Sequences

  type Order = (string, string) -> bool

  datatype Candidate = Candidate(path: string, tracked: bool)

  /** A manifest task; a value that is no object has neither numbers nor files. */
  datatype Task = Task(n: Option<real>, taskNumber: Option<real>, expectedFiles: seq<string>, files: seq<string>)

  datatype Scope = Scope(requiredFiles: seq<string>, mayExtendFiles: seq<string>, permittedAreas: seq<string>,
                         nonGoals: seq<string>, referenceFiles: seq<string>)

  datatype Options = Options(candidates: seq<Candidate>, scope: Scope, downstreamTasks: Option<seq<Task>>,
                             manifestTasks: seq<Task>, currentTaskNumber: Option<real>, exemptFiles: seq<string>,
                             isArtifact: string -> bool, isProtected: string -> bool)

  datatype Premature = Premature(path: string, taskNumber: real)

  datatype Classification = Classification(permittedPaths: seq<string>, modifiedReferenceFiles: seq<string>,
                                           nonGoalFiles: seq<string>, prematureImplementation: seq<Premature>,
                                           driftFiles: seq<string>, protectedFiles: seq<string>)

  // ---------------------------------------------------------------- normalising a task path

  /** Resolve "." and ".."; climbing above the root stays at the root. */
  function Settle(parts: seq<string>, stack: seq<string>): seq<string>
    decreases |parts|
  {
    if parts == [] then stack
    else if parts[0] == "" || parts[0] == "." then Settle(parts[1..], stack)
    else if parts[0] == ".." then Settle(parts[1..], if stack == [] then [] else stack[..|stack| - 1])
    else Settle(parts[1..], stack + [parts[0]])
  }

  function TaskPath(raw: string): string {
    var stack := Settle(Split(Slashed(Trim(raw))), []);
    if stack == [] then "" else Join(stack)
  }

  lemma {:induction false} SettleIsPlain(parts: seq<string>, stack: seq<string>)
    requires forall k :: 0 <= k < |parts| ==> '/' !in parts[k]
    requires forall k :: 0 <= k < |stack| ==> PlainSegment(stack[k])
    ensures forall k :: 0 <= k < |Settle(parts, stack)| ==> PlainSegment(Settle(parts, stack)[k])
    decreases |parts|
  {
    if parts != [] {
      if parts[0] == "" || parts[0] == "." { SettleIsPlain(parts[1..], stack); }
      else if parts[0] == ".." { SettleIsPlain(parts[1..], if stack == [] then [] else stack[..|stack| - 1]); }
      else { SettleIsPlain(parts[1..], stack + [parts[0]]); }
    }
  }

  /** A normalised path is empty or a list of plain segments, and they are the settled ones. */
  lemma TaskPathIsPlain(raw: string)
    ensures TaskPath(raw) != "" ==>
      var segments := Split(TaskPath(raw));
      segments == Settle(Split(Slashed(Trim(raw))), []) && forall k :: 0 <= k < |segments| ==> PlainSegment(segments[k])
  {
    var parts := Split(Slashed(Trim(raw)));
    SplitHasNoSlash(Slashed(Trim(raw)));
    SettleIsPlain(parts, []);
    if Settle(parts, []) != [] { SplitOfJoin(Settle(parts, [])); }
  }

  /** Segment by segment: a plain one is pushed, ".." takes one away and stays at the root, the others do nothing. */
  lemma SettleLaws(part: string, stack: seq<string>)
    ensures part == "" || part == "." ==> Settle([part], stack) == stack
    ensures part == ".." ==> Settle([part], stack) == if stack == [] then [] else stack[..|stack| - 1]
    ensures part != "" && part != "." && part != ".." ==> Settle([part], stack) == stack + [part]
  {
    assert [part][1..] == [];
  }

  lemma {:induction false} SettleConcat(a: seq<string>, b: seq<string>, stack: seq<string>)
    ensures Settle(a + b, stack) == Settle(b, Settle(a, stack))
    decreases |a|
  {
    if a == [] {
      assert a + b == b;
    } else {
      assert (a + b)[0] == a[0] && (a + b)[1..] == a[1..] + b;
      if a[0] == "" || a[0] == "." { SettleConcat(a[1..], b, stack); }
      else if a[0] == ".." { SettleConcat(a[1..], b, if stack == [] then [] else stack[..|stack| - 1]); }
      else { SettleConcat(a[1..], b, stack + [a[0]]); }
    }
  }

  /** Where the planner accepts a path, both normal forms agree. */
  lemma {:induction false} SettleIsResolve(parts: seq<string>, stack: seq<string>)
    requires Resolve(parts, stack).Some?
    ensures Settle(parts, stack) == Resolve(parts, stack).value
    decreases |parts|
  {
    if parts != [] {
      if parts[0] == "" || parts[0] == "." { SettleIsResolve(parts[1..], stack); }
      else if parts[0] == ".." { SettleIsResolve(parts[1..], stack[..|stack| - 1]); }
      else { SettleIsResolve(parts[1..], stack + [parts[0]]); }
    }
  }

  /** The two normalisers of the code agree on every path that both accept. */
  lemma TaskPathIsNormalize(raw: string)
    requires Normalize(raw).Some?
    ensures TaskPath(raw) == Normalize(raw).value
  {
    SettleIsResolve(Split(Slashed(Trim(raw))), []);
  }

  method NormalizeTaskPath(raw: string) returns (r: string)
    ensures r == TaskPath(raw)
  {
    var p := Slashed(Trim(raw));
    var parts := Split(p);
    var stack: seq<string> := [];
    for k := 0 to |parts|
      invariant Settle(parts[k..], stack) == Settle(parts, [])
    {
      assert parts[k..][1..] == parts[k + 1..];
      if parts[k] == "" || parts[k] == "." { continue; }
      if parts[k] == ".." {
        stack := if stack == [] then [] else stack[..|stack| - 1];
      } else {
        stack := stack + [parts[k]];
      }
    }
    r := if stack == [] then "" else Join(stack);
  }

  // ---------------------------------------------------------------- what the lists mean

  function PathSet(paths: seq<string>): set<string> {
    (set p | p in paths :: TaskPath(p)) - {""}
  }

  /** Some listed directory's segments begin the path's segments. */
  ghost predicate Covered(dirs: seq<string>, path: string) {
    exists d :: d in PathSet(dirs) && Split(d) <= Split(path)
  }

  function TaskNumber(t: Task, fallback: real): real {
    if t.n.Some? then t.n.value else if t.taskNumber.Some? then t.taskNumber.value else fallback
  }

  /** The tasks to look at and their numbers. */
  function Tasks(o: Options): seq<Task> {
    if o.downstreamTasks.Some? then o.downstreamTasks.value else o.manifestTasks
  }

  function NumberAt(o: Options, i: nat): real
    requires i < |Tasks(o)|
  {
    var offset := if o.downstreamTasks.Some? && o.currentTaskNumber.Some? then o.currentTaskNumber.value else 0.0;
    TaskNumber(Tasks(o)[i], offset + i as real + 1.0)
  }

  /** Task i comes after the current one and requires the path. */
  predicate LaterRequires(o: Options, i: nat, path: string)
    requires i < |Tasks(o)|
  {
    && (o.currentTaskNumber.Some? ==> NumberAt(o, i) > o.currentTaskNumber.value)
    && path in PathSet(Tasks(o)[i].expectedFiles + Tasks(o)[i].files)
  }

  ghost predicate RequiredLater(o: Options, path: string) {
    exists i: nat :: i < |Tasks(o)| && LaterRequires(o, i, path)
  }

  /** The least number of a later task that requires the path. */
  ghost predicate LeastLater(o: Options, path: string, number: real) {
    && (exists i: nat :: i < |Tasks(o)| && LaterRequires(o, i, path) && NumberAt(o, i) == number)
    && (forall i: nat :: i < |Tasks(o)| && LaterRequires(o, i, path) ==> number <= NumberAt(o, i))
  }

  ghost function Paths(cs: seq<Candidate>): set<string> {
    (set c | c in cs :: TaskPath(c.path)) - {""}
  }

  /** Tracked as soon as one of its candidates is. */
  ghost predicate Tracked(cs: seq<Candidate>, path: string) {
    exists c :: c in cs && TaskPath(c.path) == path && c.tracked
  }

  predicate Immutable(o: Options, path: string) {
    o.isArtifact(path) || path == ".ai-orchestrator.json" || o.isProtected(path)
  }

  predicate EndsWith(s: string, t: string) { |t| <= |s| && s[|s| - |t|..] == t }

  predicate ProtectedTaskPath(o: Options, path: string) {
    var p := TaskPath(path);
    p != "" && (p == ".gitignore" || EndsWith(p, "/.gitignore") || p == ".ai-orchestrator.json" || p == ".github"
      || ".github/" <= p || o.isArtifact(p))
  }

  datatype Bucket = Protected | Exempt | NonGoal | Permitted | Early | Reference | Drift

  /** The first rule that applies. */
  ghost function BucketOf(o: Options, path: string): Bucket {
    if Immutable(o, path) then Protected
    else if path in PathSet(o.exemptFiles) then Exempt
    else if Covered(o.scope.nonGoals, path) then NonGoal
    else if path in PathSet(o.scope.requiredFiles) then Permitted
    else if ProtectedTaskPath(o, path) then Protected
    else if RequiredLater(o, path) then Early
    else if path in PathSet(o.scope.referenceFiles) then Reference
    else if path in PathSet(o.scope.mayExtendFiles) then Permitted
    else if Covered(o.scope.permittedAreas, path) && Tracked(o.candidates, path) then Permitted
    else Drift
  }

  ghost function InBucket(o: Options, b: Bucket): set<string> {
    set p | p in Paths(o.candidates) && BucketOf(o, p) == b
  }

  // ---------------------------------------------------------------- the result

  ghost predicate SortedList(s: seq<string>, of: set<string>, lt: Order) {
    Ascending(s, lt) && Elements(s) == of
  }

  function ByPath(locale: Order): (Premature, Premature) -> bool { (a: Premature, b: Premature) => locale(a.path, b.path) }

  function ByNumber(a: Premature, b: Premature): bool { a.taskNumber < b.taskNumber }

  /** The comparison the premature files are sorted with. */
  function ByLocale(locale: Order): (Premature, Premature) -> bool { Then(ByPath(locale), ByNumber) }

  /** The index of the first candidate with the path, or the length. */
  function FirstAt(cs: seq<Candidate>, path: string): (i: nat)
    ensures i <= |cs| && (i < |cs| ==> TaskPath(cs[i].path) == path)
    ensures forall j :: 0 <= j < i ==> TaskPath(cs[j].path) != path
  {
    if cs == [] then 0
    else
      var n := |cs| - 1;
      var i := FirstAt(cs[..n], path);
      if i < n || TaskPath(cs[n].path) == path then i else n + 1
  }

  function ByFirst(cs: seq<Candidate>): (Premature, Premature) -> bool {
    (a: Premature, b: Premature) => FirstAt(cs, a.path) < FirstAt(cs, b.path)
  }

  /** A stable sort leaves tied files in the order in which their paths first occur. */
  function Stably(cs: seq<Candidate>, locale: Order): (Premature, Premature) -> bool { Then(ByLocale(locale), ByFirst(cs)) }

  /** The record of a file that a later entry requires. */
  ghost predicate IsEarly(o: Options, e: Premature) {
    e.path in InBucket(o, Early) && LeastLater(o, e.path, e.taskNumber)
  }

  ghost predicate PrematureSorted(o: Options, locale: Order, s: seq<Premature>) {
    Ascending(s, Stably(o.candidates, locale)) && forall e :: e in s <==> IsEarly(o, e)
  }

  ghost predicate HasPath(s: seq<Premature>, p: string) { exists e :: e in s && e.path == p }

  ghost predicate Classifies(o: Options, lt: Order, locale: Order, r: Classification) {
    && SortedList(r.permittedPaths, InBucket(o, Permitted), lt)
    && SortedList(r.modifiedReferenceFiles, InBucket(o, Reference), lt)
    && SortedList(r.nonGoalFiles, InBucket(o, NonGoal), lt)
    && SortedList(r.driftFiles, InBucket(o, Drift), lt)
    && SortedList(r.protectedFiles, InBucket(o, Protected), lt)
    && PrematureSorted(o, locale, r.prematureImplementation)
  }

  /** The buckets of the result a path is in. */
  ghost function Found(r: Classification, p: string): set<Bucket> {
    (if p in r.permittedPaths then {Permitted} else {}) + (if p in r.modifiedReferenceFiles then {Reference} else {})
    + (if p in r.nonGoalFiles then {NonGoal} else {}) + (if p in r.driftFiles then {Drift} else {})
    + (if p in r.protectedFiles then {Protected} else {}) + (if HasPath(r.prematureImplementation, p) then {Early} else {})
  }

  lemma ListHas(s: seq<string>, of: set<string>, lt: Order, p: string)
    requires SortedList(s, of, lt)
    ensures p in s <==> p in of
  {
    assert p in Elements(s) <==> p in s;
  }

  /** Every candidate is in exactly one bucket, or in none and then exempt and not immutably protected; nothing else is in any. */
  lemma ExactlyOneBucket(o: Options, lt: Order, locale: Order, r: Classification, p: string)
    requires Classifies(o, lt, locale, r)
    ensures p !in Paths(o.candidates) ==> Found(r, p) == {}
    ensures p in Paths(o.candidates) ==>
      if p in PathSet(o.exemptFiles) && !Immutable(o, p) then Found(r, p) == {} else Found(r, p) == {BucketOf(o, p)}
  {
    ListHas(r.permittedPaths, InBucket(o, Permitted), lt, p);
    ListHas(r.modifiedReferenceFiles, InBucket(o, Reference), lt, p);
    ListHas(r.nonGoalFiles, InBucket(o, NonGoal), lt, p);
    ListHas(r.driftFiles, InBucket(o, Drift), lt, p);
    ListHas(r.protectedFiles, InBucket(o, Protected), lt, p);
    EarlyHasRecord(o, locale, r.prematureImplementation, p);
    if p in Paths(o.candidates) { FoundIsBucket(o, r, p); }
  }

  lemma FoundIsBucket(o: Options, r: Classification, p: string)
    requires p in r.permittedPaths <==> BucketOf(o, p) == Permitted
    requires p in r.modifiedReferenceFiles <==> BucketOf(o, p) == Reference
    requires p in r.nonGoalFiles <==> BucketOf(o, p) == NonGoal
    requires p in r.driftFiles <==> BucketOf(o, p) == Drift
    requires p in r.protectedFiles <==> BucketOf(o, p) == Protected
    requires HasPath(r.prematureImplementation, p) <==> BucketOf(o, p) == Early
    ensures Found(r, p) == if BucketOf(o, p) == Exempt then {} else {BucketOf(o, p)}
  {
    match BucketOf(o, p)
    case Protected => case Exempt => case NonGoal => case Permitted => case Early => case Reference => case Drift =>
  }

  // ---------------------------------------------------------------- one result

  lemma LeastLaterIsUnique(o: Options, path: string, a: real, b: real)
    requires LeastLater(o, path, a) && LeastLater(o, path, b)
    ensures a == b
  {
  }

  lemma {:induction false} LeastIndex(ns: seq<Option<real>>) returns (best: nat)
    requires exists i :: 0 <= i < |ns| && ns[i].Some?
    ensures best < |ns| && ns[best].Some?
    ensures forall i :: 0 <= i < |ns| && ns[i].Some? ==> ns[best].value <= ns[i].value
  {
    var last := |ns| - 1;
    if exists i :: 0 <= i < last && ns[i].Some? {
      var k :| 0 <= k < last && ns[k].Some?;
      assert ns[..last][k].Some?;
      best := LeastIndex(ns[..last]);
      assert forall i :: 0 <= i < last && ns[i].Some? ==> ns[..last][i] == ns[i];
      if ns[last].Some? && ns[last].value < ns[best].value { best := last; }
    } else {
      best := last;
    }
  }

  function Number(o: Options, i: nat, p: string): Option<real>
    requires i < |Tasks(o)|
  {
    if LaterRequires(o, i, p) then Some(NumberAt(o, i)) else None
  }

  /** A file that some later entry requires has a least number. */
  lemma LeastExists(o: Options, p: string) returns (n: real)
    requires RequiredLater(o, p)
    ensures LeastLater(o, p, n)
  {
    var ns := seq(|Tasks(o)|, i requires 0 <= i < |Tasks(o)| => Number(o, i, p));
    var k: nat :| k < |Tasks(o)| && LaterRequires(o, k, p);
    assert ns[k].Some?;
    var best := LeastIndex(ns);
    n := ns[best].value;
    forall i: nat | i < |Tasks(o)| && LaterRequires(o, i, p) ensures n <= NumberAt(o, i) { assert ns[i] == Some(NumberAt(o, i)); }
  }

  lemma EarlyHasRecord(o: Options, locale: Order, s: seq<Premature>, p: string)
    requires PrematureSorted(o, locale, s)
    ensures HasPath(s, p) <==> p in InBucket(o, Early)
  {
    if p in InBucket(o, Early) {
      var n := LeastExists(o, p);
      assert IsEarly(o, Premature(p, n));
    }
  }

  lemma LocaleIsWeak(locale: Order)
    requires WeakOrder(locale)
    ensures WeakOrder(ByLocale(locale))
  {
    PathIsWeak(locale);
    ThenIsWeak(ByPath(locale), ByNumber);
  }

  lemma PathIsWeak(locale: Order)
    requires WeakOrder(locale)
    ensures WeakOrder(ByPath(locale))
  {
    var f := ByPath(locale);
    forall a ensures !f(a, a) { assert !locale(a.path, a.path); }
    forall a, b, c | f(a, b) && f(b, c) ensures f(a, c) { assert locale(a.path, b.path) && locale(b.path, c.path); }
    forall a, b, c | f(a, c) ensures f(a, b) || f(b, c) { assert locale(a.path, b.path) || locale(b.path, c.path); }
  }

  lemma StablyIsStrict(cs: seq<Candidate>, locale: Order)
    requires WeakOrder(locale)
    ensures StrictOrder(Stably(cs, locale))
  {
    LocaleIsWeak(locale);
    ThenIsStrict(ByLocale(locale), ByFirst(cs));
  }

  lemma SameElements(s: seq<Premature>, t: seq<Premature>)
    requires forall e :: e in s <==> e in t
    ensures Elements(s) == Elements(t)
  {
  }

  /** The classification is determined by the options. */
  lemma OneClassification(o: Options, lt: Order, locale: Order, r: Classification, q: Classification)
    requires StrictTotal(lt) && WeakOrder(locale) && Classifies(o, lt, locale, r) && Classifies(o, lt, locale, q)
    ensures r == q
  {
    SameLists(o, lt, locale, o, r, q);
    StablyIsStrict(o.candidates, locale);
    SameElements(r.prematureImplementation, q.prematureImplementation);
    AscendingIsUnique(r.prematureImplementation, q.prematureImplementation, Stably(o.candidates, locale));
  }

  /** Options with the same buckets give the same five lists of paths. */
  lemma SameLists(o: Options, lt: Order, locale: Order, o': Options, r: Classification, q: Classification)
    requires StrictTotal(lt) && Classifies(o, lt, locale, r) && Classifies(o', lt, locale, q)
    requires forall b: Bucket :: InBucket(o, b) == InBucket(o', b)
    ensures r == q.(prematureImplementation := r.prematureImplementation)
  {
    AscendingIsUnique(r.permittedPaths, q.permittedPaths, lt);
    AscendingIsUnique(r.modifiedReferenceFiles, q.modifiedReferenceFiles, lt);
    AscendingIsUnique(r.nonGoalFiles, q.nonGoalFiles, lt);
    AscendingIsUnique(r.driftFiles, q.driftFiles, lt);
    AscendingIsUnique(r.protectedFiles, q.protectedFiles, lt);
  }

  /** Candidate lists that mention the same paths, tracked alike. */
  ghost predicate SameChanges(a: seq<Candidate>, b: seq<Candidate>) {
    Paths(a) == Paths(b) && forall p :: p in Paths(a) ==> (Tracked(a, p) <==> Tracked(b, p))
  }

  /** Permuting or repeating candidates keeps what they mention. */
  lemma SameCandidatesSameChanges(a: seq<Candidate>, b: seq<Candidate>)
    requires forall c :: c in a <==> c in b
    ensures SameChanges(a, b)
  {
  }

  lemma SameRequired(o: Options, cs: seq<Candidate>, p: string)
    ensures RequiredLater(o, p) <==> RequiredLater(o.(candidates := cs), p)
  {
    var o' := o.(candidates := cs);
    if RequiredLater(o, p) { var i: nat :| i < |Tasks(o)| && LaterRequires(o, i, p); assert LaterRequires(o', i, p); }
    if RequiredLater(o', p) { var i: nat :| i < |Tasks(o')| && LaterRequires(o', i, p); assert LaterRequires(o, i, p); }
  }

  lemma SameBucket(o: Options, cs: seq<Candidate>, p: string)
    requires SameChanges(o.candidates, cs) && p in Paths(cs)
    ensures BucketOf(o, p) == BucketOf(o.(candidates := cs), p)
  {
    SameRequired(o, cs, p);
  }

  lemma SameLeast(o: Options, cs: seq<Candidate>, p: string, n: real)
    requires LeastLater(o, p, n)
    ensures LeastLater(o.(candidates := cs), p, n)
  {
    var o' := o.(candidates := cs);
    forall i: nat | i < |Tasks(o)| ensures LaterRequires(o, i, p) == LaterRequires(o', i, p) && NumberAt(o, i) == NumberAt(o', i) {
      assert Tasks(o) == Tasks(o');
    }
    var i: nat :| i < |Tasks(o)| && LaterRequires(o, i, p) && NumberAt(o, i) == n;
    assert LaterRequires(o', i, p) && NumberAt(o', i) == n;
  }

  lemma SameBuckets(o: Options, cs: seq<Candidate>)
    requires SameChanges(o.candidates, cs)
    ensures forall b: Bucket :: InBucket(o, b) == InBucket(o.(candidates := cs), b)
  {
    forall p | p in Paths(cs) ensures BucketOf(o, p) == BucketOf(o.(candidates := cs), p) { SameBucket(o, cs, p); }
  }

  lemma SameEarly(o: Options, cs: seq<Candidate>, e: Premature)
    requires SameChanges(o.candidates, cs)
    ensures IsEarly(o, e) <==> IsEarly(o.(candidates := cs), e)
  {
    SameBuckets(o, cs);
    var o' := o.(candidates := cs);
    if LeastLater(o, e.path, e.taskNumber) { SameLeast(o, cs, e.path, e.taskNumber); }
    if LeastLater(o', e.path, e.taskNumber) {
      SameLeast(o', o.candidates, e.path, e.taskNumber);
      assert o'.(candidates := o.candidates) == o;
    }
  }

  /** Two premature files that the sort cannot tell apart. */
  ghost predicate Tied(o: Options, locale: Order, a: Premature, b: Premature) {
    a.path != b.path && IsEarly(o, a) && IsEarly(o, b) && !ByLocale(locale)(a, b) && !ByLocale(locale)(b, a)
  }

  ghost predicate NoTies(o: Options, locale: Order) {
    forall a, b :: !Tied(o, locale, a, b)
  }

  lemma NoTiesAscend(o: Options, cs: seq<Candidate>, locale: Order, s: seq<Premature>)
    requires WeakOrder(locale) && NoTies(o, locale) && Ascending(s, Stably(cs, locale)) && forall e :: e in s ==> IsEarly(o, e)
    ensures Ascending(s, ByLocale(locale))
  {
    StablyIsStrict(cs, locale);
    AscendingIsDistinct(s, Stably(cs, locale));
    forall i, j | 0 <= i < j < |s| ensures ByLocale(locale)(s[i], s[j]) {
      assert s[i] in s && s[j] in s && s[i] != s[j];
      assert Stably(cs, locale)(s[i], s[j]);
      if s[i].path == s[j].path { LeastLaterIsUnique(o, s[i].path, s[i].taskNumber, s[j].taskNumber); }
      assert !Tied(o, locale, s[i], s[j]);
    }
  }

  /** Candidates that say the same give the same lists and the same premature files, in the same order if none tie. */
  lemma UnchangedByRepetitionAndOrder(o: Options, cs: seq<Candidate>, lt: Order, locale: Order, r: Classification, q: Classification)
    requires StrictTotal(lt) && WeakOrder(locale) && SameChanges(o.candidates, cs)
    requires Classifies(o, lt, locale, r) && Classifies(o.(candidates := cs), lt, locale, q)
    ensures r == q.(prematureImplementation := r.prematureImplementation)
    ensures Elements(r.prematureImplementation) == Elements(q.prematureImplementation)
    ensures NoTies(o, locale) ==> r == q
  {
    SameBuckets(o, cs);
    SameLists(o, lt, locale, o.(candidates := cs), r, q);
    var s, t := r.prematureImplementation, q.prematureImplementation;
    forall e ensures e in s <==> e in t { SameEarly(o, cs, e); }
    SameElements(s, t);
    if NoTies(o, locale) {
      forall e | e in t ensures IsEarly(o, e) { assert e in s; }
      NoTiesAscend(o, o.candidates, locale, s);
      NoTiesAscend(o, cs, locale, t);
      LocaleIsWeak(locale);
      AscendingIsUnique(s, t, ByLocale(locale));
    }
  }

  /** A tie shows the order of the candidates: naming one tied file or the other first gives different results. */
  lemma TieShowsOrder(o: Options, lt: Order, locale: Order, a: Premature, b: Premature, c: Candidate, d: Candidate,
                      r: Classification, q: Classification)
    requires StrictTotal(lt) && WeakOrder(locale) && Tied(o, locale, a, b)
    requires c in o.candidates && d in o.candidates && TaskPath(c.path) == a.path && TaskPath(d.path) == b.path
    requires Classifies(o.(candidates := [c, d] + o.candidates), lt, locale, r)
    requires Classifies(o.(candidates := [d, c] + o.candidates), lt, locale, q)
    ensures SameChanges(o.candidates, [c, d] + o.candidates) && SameChanges(o.candidates, [d, c] + o.candidates)
    ensures r.prematureImplementation != q.prematureImplementation
  {
    FirstNamedFirst(o, locale, a, b, c, d, r.prematureImplementation);
    FirstNamedFirst(o, locale, b, a, d, c, q.prematureImplementation);
  }

  lemma FirstNamedFirst(o: Options, locale: Order, a: Premature, b: Premature, c: Candidate, d: Candidate, s: seq<Premature>)
    requires WeakOrder(locale) && Tied(o, locale, a, b)
    requires c in o.candidates && d in o.candidates && TaskPath(c.path) == a.path && TaskPath(d.path) == b.path
    requires PrematureSorted(o.(candidates := [c, d] + o.candidates), locale, s)
    ensures SameChanges(o.candidates, [c, d] + o.candidates)
    ensures Precedes(s, a, b) && !Precedes(s, b, a)
  {
    var cs := [c, d] + o.candidates;
    SameCandidatesSameChanges(o.candidates, cs);
    SameEarly(o, cs, a);
    SameEarly(o, cs, b);
    StablyIsStrict(cs, locale);
    NamedFirst(cs, a, b);
    AscendingPrecedes(s, Stably(cs, locale), a, b);
  }

  lemma NamedFirst(cs: seq<Candidate>, a: Premature, b: Premature)
    requires cs != [] && TaskPath(cs[0].path) == a.path != b.path
    ensures ByFirst(cs)(a, b)
  {
  }

  // ---------------------------------------------------------------- the loops

  method AnyCovers(dirs: seq<string>, path: string) returns (yes: bool)
    requires path != ""
    ensures yes <==> Covered(dirs, path)
  {
    for k := 0 to |dirs|
      invariant forall j :: 0 <= j < k ==> TaskPath(dirs[j]) == "" || !(Split(TaskPath(dirs[j])) <= Split(path))
    {
      var d := NormalizeTaskPath(dirs[k]);
      WithinIsSegmentPrefix(d, path);
      if d != "" && Within(d, path) {
        assert d in PathSet(dirs);
        return true;
      }
    }
    yes := false;
  }

  /** The least of the numbers seen so far for each required file. */
  ghost predicate Collected(o: Options, upTo: nat, m: map<string, real>)
    requires upTo <= |Tasks(o)|
  {
    && (forall p :: p in m ==> exists i: nat :: i < upTo && LaterRequires(o, i, p) && NumberAt(o, i) == m[p])
    && (forall p, i: nat :: i < upTo && LaterRequires(o, i, p) ==> p in m && m[p] <= NumberAt(o, i))
  }

  /** The entries after one task with number n. */
  ghost predicate Merged(m: map<string, real>, files: set<string>, n: real, out: map<string, real>) {
    && out.Keys == m.Keys + files
    && forall p :: p in out ==> out[p] == (if p in files && (p !in m || n < m[p]) then n else m[p])
  }

  method AddTask(m: map<string, real>, files: seq<string>, n: real) returns (out: map<string, real>)
    ensures Merged(m, PathSet(files), n, out)
  {
    out := m;
    for k := 0 to |files|
      invariant Merged(m, PathSet(files[..k]), n, out)
    {
      var f := NormalizeTaskPath(files[k]);
      PathSetOneMore(files, k);
      if f != "" && (f !in out || n < out[f]) { out := out[f := n]; }
    }
    assert files[..|files|] == files;
  }

  lemma PathSetOneMore(paths: seq<string>, k: nat)
    requires k < |paths|
    ensures PathSet(paths[..k + 1]) == PathSet(paths[..k]) + (if TaskPath(paths[k]) == "" then {} else {TaskPath(paths[k])})
  {
    assert paths[..k + 1] == paths[..k] + [paths[k]];
  }

  lemma CollectedSkip(o: Options, i: nat, m: map<string, real>)
    requires i < |Tasks(o)| && Collected(o, i, m)
    requires o.currentTaskNumber.Some? && NumberAt(o, i) <= o.currentTaskNumber.value
    ensures Collected(o, i + 1, m)
  {
    assert forall p :: !LaterRequires(o, i, p);
    forall p | p in m ensures exists j: nat :: j < i + 1 && LaterRequires(o, j, p) && NumberAt(o, j) == m[p] {
      var j: nat :| j < i && LaterRequires(o, j, p) && NumberAt(o, j) == m[p];
    }
  }

  lemma CollectedOneMore(o: Options, i: nat, m: map<string, real>, out: map<string, real>)
    requires i < |Tasks(o)| && Collected(o, i, m)
    requires o.currentTaskNumber.Some? ==> NumberAt(o, i) > o.currentTaskNumber.value
    requires Merged(m, PathSet(Tasks(o)[i].expectedFiles + Tasks(o)[i].files), NumberAt(o, i), out)
    ensures Collected(o, i + 1, out)
  {
    forall p | p in out ensures exists j: nat :: j < i + 1 && LaterRequires(o, j, p) && NumberAt(o, j) == out[p] {
      MergedIsSound(o, i, m, out, p);
    }
    forall p, j: nat | j < i + 1 && LaterRequires(o, j, p) ensures p in out && out[p] <= NumberAt(o, j) {
      MergedIsLeast(o, i, m, out, p, j);
    }
  }

  lemma MergedIsSound(o: Options, i: nat, m: map<string, real>, out: map<string, real>, p: string)
    requires i < |Tasks(o)| && Collected(o, i, m) && p in out
    requires o.currentTaskNumber.Some? ==> NumberAt(o, i) > o.currentTaskNumber.value
    requires Merged(m, PathSet(Tasks(o)[i].expectedFiles + Tasks(o)[i].files), NumberAt(o, i), out)
    ensures exists j: nat :: j < i + 1 && LaterRequires(o, j, p) && NumberAt(o, j) == out[p]
  {
    if p in m && out[p] == m[p] {
      var j: nat :| j < i && LaterRequires(o, j, p) && NumberAt(o, j) == m[p];
    } else {
      assert LaterRequires(o, i, p);
    }
  }

  lemma MergedIsLeast(o: Options, i: nat, m: map<string, real>, out: map<string, real>, p: string, j: nat)
    requires i < |Tasks(o)| && Collected(o, i, m) && j < i + 1 && LaterRequires(o, j, p)
    requires Merged(m, PathSet(Tasks(o)[i].expectedFiles + Tasks(o)[i].files), NumberAt(o, i), out)
    ensures p in out && out[p] <= NumberAt(o, j)
  {
    if j < i { assert p in m && m[p] <= NumberAt(o, j); }
    MergeLowers(m, PathSet(Tasks(o)[i].expectedFiles + Tasks(o)[i].files), NumberAt(o, i), out, p);
  }

  lemma MergeLowers(m: map<string, real>, files: set<string>, n: real, out: map<string, real>, p: string)
    requires Merged(m, files, n, out)
    ensures p in m ==> p in out && out[p] <= m[p]
    ensures p in files ==> p in out && out[p] <= n
  {
  }

  lemma CollectedAll(o: Options, m: map<string, real>)
    requires Collected(o, |Tasks(o)|, m)
    ensures forall p :: p in m <==> RequiredLater(o, p)
    ensures forall p :: p in m ==> LeastLater(o, p, m[p])
  {
    forall p ensures p in m <==> RequiredLater(o, p) {
      if p in m { var i: nat :| i < |Tasks(o)| && LaterRequires(o, i, p) && NumberAt(o, i) == m[p]; }
      if RequiredLater(o, p) { var i: nat :| i < |Tasks(o)| && LaterRequires(o, i, p); }
    }
  }

  /** The downstream map holds exactly the files later tasks require, each with its least number. */
  method DownstreamRequired(o: Options) returns (m: map<string, real>)
    ensures forall p :: p in m <==> RequiredLater(o, p)
    ensures forall p :: p in m ==> LeastLater(o, p, m[p])
  {
    m := map[];
    var tasks := Tasks(o);
    for i := 0 to |tasks|
      invariant Collected(o, i, m)
    {
      var number := NumberAt(o, i);
      if o.currentTaskNumber.Some? && number <= o.currentTaskNumber.value {
        CollectedSkip(o, i, m);
        continue;
      }
      var out := AddTask(m, tasks[i].expectedFiles + tasks[i].files, number);
      CollectedOneMore(o, i, m, out);
      m := out;
    }
    CollectedAll(o, m);
  }

  ghost predicate Gathered(cs: seq<Candidate>, m: map<string, bool>, keys: seq<string>) {
    && Distinct(keys) && Elements(keys) == m.Keys == Paths(cs)
    && forall p :: p in m ==> (m[p] <==> Tracked(cs, p))
  }

  /** The paths are listed as they first occur. */
  ghost predicate InOrder(cs: seq<Candidate>, s: seq<string>) {
    forall i, j :: 0 <= i < j < |s| ==> FirstAt(cs, s[i]) < FirstAt(cs, s[j])
  }

  lemma PathIsSeen(cs: seq<Candidate>, c: Candidate, p: string)
    requires p in Paths(cs)
    ensures FirstAt(cs + [c], p) == FirstAt(cs, p) < |cs|
  {
    var x :| x in cs && TaskPath(x.path) == p;
    var i :| 0 <= i < |cs| && cs[i] == x;
    FirstIs(cs + [c], p, FirstAt(cs, p));
  }

  lemma FirstIs(cs: seq<Candidate>, p: string, i: nat)
    requires i < |cs| && TaskPath(cs[i].path) == p && forall j :: 0 <= j < i ==> TaskPath(cs[j].path) != p
    ensures FirstAt(cs, p) == i
  {
  }

  lemma PathIsNew(cs: seq<Candidate>, c: Candidate, p: string)
    requires p !in Paths(cs) && p != "" && TaskPath(c.path) == p
    ensures FirstAt(cs + [c], p) == |cs|
  {
    forall i | 0 <= i < |cs| ensures TaskPath(cs[i].path) != p { assert cs[i] in cs; }
    FirstIs(cs + [c], p, |cs|);
  }

  lemma PathsOneMore(cs: seq<Candidate>, c: Candidate)
    ensures Paths(cs + [c]) == Paths(cs) + ({TaskPath(c.path)} - {""})
  {
    assert forall x :: x in cs + [c] <==> x in cs || x == c;
  }

  lemma TrackedOneMore(cs: seq<Candidate>, c: Candidate, q: string)
    ensures Tracked(cs + [c], q) <==> Tracked(cs, q) || (q == TaskPath(c.path) && c.tracked)
  {
    assert forall x :: x in cs + [c] <==> x in cs || x == c;
    if q == TaskPath(c.path) && c.tracked { assert c in cs + [c]; }
    if Tracked(cs, q) { var x :| x in cs && TaskPath(x.path) == q && x.tracked; assert x in cs + [c]; }
  }

  lemma GatheredOneMore(cs: seq<Candidate>, c: Candidate, m: map<string, bool>, keys: seq<string>)
    requires Gathered(cs, m, keys)
    ensures
      var (m', keys') := Gather(m, keys, TaskPath(c.path), c.tracked);
      Gathered(cs + [c], m', keys')
  {
    var p := TaskPath(c.path);
    PathsOneMore(cs, c);
    if p == "" { GatheredSame(cs, c, m, keys, m); }
    else if p !in m {
      NewKey(m, keys, p);
      NotTracked(cs, p);
      GatheredSame(cs, c, m, keys + [p], m[p := c.tracked]);
    } else {
      GatheredSame(cs, c, m, keys, if c.tracked then m[p := true] else m);
    }
  }

  lemma GatheredSame(cs: seq<Candidate>, c: Candidate, m: map<string, bool>, keys: seq<string>, m': map<string, bool>)
    requires Distinct(keys) && Elements(keys) == m'.Keys == Paths(cs + [c])
    requires forall q :: q in m ==> (m[q] <==> Tracked(cs, q))
    requires forall q :: q in m' ==> (m'[q] <==> (q in m && m[q]) || (q == TaskPath(c.path) && c.tracked))
    requires forall q :: q in m' && q !in m ==> !Tracked(cs, q)
    ensures Gathered(cs + [c], m', keys)
  {
    forall q | q in m' ensures m'[q] <==> Tracked(cs + [c], q) { TrackedOneMore(cs, c, q); }
  }

  lemma NewKey(m: map<string, bool>, keys: seq<string>, p: string)
    requires Distinct(keys) && Elements(keys) == m.Keys && p !in m
    ensures Distinct(keys + [p]) && Elements(keys + [p]) == m.Keys + {p}
  {
    assert forall x :: x in keys <==> x in Elements(keys);
  }

  lemma NotTracked(cs: seq<Candidate>, p: string)
    requires p !in Paths(cs) && p != ""
    ensures !Tracked(cs, p)
  {
    forall c | c in cs ensures TaskPath(c.path) != p {
      assert TaskPath(c.path) in (set x | x in cs :: TaskPath(x.path));
    }
  }

  /** The map and its keys after one candidate. */
  function Gather(m: map<string, bool>, keys: seq<string>, p: string, tracked: bool): (map<string, bool>, seq<string>) {
    if p == "" then (m, keys)
    else if p !in m then (m[p := tracked], keys + [p])
    else (if tracked then m[p := true] else m, keys)
  }

  ghost function GatherAll(cs: seq<Candidate>): (map<string, bool>, seq<string>) {
    if cs == [] then (map[], [])
    else
      var (m, keys) := GatherAll(cs[..|cs| - 1]);
      Gather(m, keys, TaskPath(cs[|cs| - 1].path), cs[|cs| - 1].tracked)
  }

  lemma {:induction false} GatherAllIsGathered(cs: seq<Candidate>)
    ensures Gathered(cs, GatherAll(cs).0, GatherAll(cs).1)
  {
    if cs != [] {
      var n := |cs| - 1;
      GatherAllIsGathered(cs[..n]);
      GatheredOneMore(cs[..n], cs[n], GatherAll(cs[..n]).0, GatherAll(cs[..n]).1);
      assert cs[..n] + [cs[n]] == cs;
    }
  }

  lemma {:induction false} GatherAllInOrder(cs: seq<Candidate>)
    ensures InOrder(cs, GatherAll(cs).1)
  {
    if cs != [] {
      var n := |cs| - 1;
      var before := cs[..n];
      GatherAllInOrder(before);
      GatherAllIsGathered(before);
      var keys := GatherAll(before).1;
      assert before + [cs[n]] == cs;
      forall i | 0 <= i < |keys| ensures FirstAt(cs, keys[i]) == FirstAt(before, keys[i]) < n {
        assert keys[i] in Elements(keys);
        PathIsSeen(before, cs[n], keys[i]);
      }
      var p := TaskPath(cs[n].path);
      if p != "" && p !in Paths(before) { PathIsNew(before, cs[n], p); }
    }
  }

  /** One entry per normalised path, tracked when any of its candidates is. */
  method CollectCandidates(cs: seq<Candidate>) returns (m: map<string, bool>, keys: seq<string>)
    ensures Gathered(cs, m, keys) && InOrder(cs, keys)
  {
    m, keys := map[], [];
    for k := 0 to |cs|
      invariant (m, keys) == GatherAll(cs[..k])
    {
      var p := NormalizeTaskPath(cs[k].path);
      assert cs[..k + 1][..k] == cs[..k];
      if p != "" {
        if p !in m { m, keys := m[p := cs[k].tracked], keys + [p]; }
        else if cs[k].tracked { m := m[p := true]; }
      }
    }
    assert cs[..|cs|] == cs;
    GatherAllIsGathered(cs);
    GatherAllInOrder(cs);
  }

  /** The rules, in the order of the source. */
  method ClassifyOne(o: Options, later: map<string, real>, p: string, tracked: bool) returns (b: Bucket)
    requires p != "" && (p in later <==> RequiredLater(o, p)) && (tracked <==> Tracked(o.candidates, p))
    ensures b == BucketOf(o, p)
  {
    if Immutable(o, p) { return Protected; }
    if p in PathSet(o.exemptFiles) { return Exempt; }
    var nonGoal := AnyCovers(o.scope.nonGoals, p);
    if nonGoal { return NonGoal; }
    if p in PathSet(o.scope.requiredFiles) { return Permitted; }
    if ProtectedTaskPath(o, p) { return Protected; }
    if p in later { return Early; }
    if p in PathSet(o.scope.referenceFiles) { return Reference; }
    if p in PathSet(o.scope.mayExtendFiles) { return Permitted; }
    var inArea := AnyCovers(o.scope.permittedAreas, p);
    b := if inArea && tracked then Permitted else Drift;
  }

  /** The list holds the paths of one bucket among those done, each once. */
  ghost predicate Filed(o: Options, done: seq<string>, b: Bucket, list: seq<string>) {
    Distinct(list) && Elements(list) == set p | p in done && BucketOf(o, p) == b
  }

  lemma FiledOneMore(o: Options, done: seq<string>, b: Bucket, list: seq<string>, p: string)
    requires Filed(o, done, b, list) && p !in done
    ensures Filed(o, done + [p], b, if BucketOf(o, p) == b then list + [p] else list)
  {
    assert p !in Elements(list);
    assert forall x :: x in list <==> x in Elements(list);
    assert forall x :: x in done + [p] <==> x in done || x == p;
  }

  datatype Piles = Piles(permitted: seq<string>, reference: seq<string>, nonGoal: seq<string>,
                           early: seq<string>, drift: seq<string>, guarded: seq<string>)

  ghost predicate AllFiled(o: Options, done: seq<string>, l: Piles) {
    && Filed(o, done, Permitted, l.permitted) && Filed(o, done, Reference, l.reference) && Filed(o, done, NonGoal, l.nonGoal)
    && Filed(o, done, Early, l.early) && Filed(o, done, Drift, l.drift) && Filed(o, done, Protected, l.guarded)
  }

  function Put(l: Piles, b: Bucket, p: string): Piles {
    match b
    case Protected => l.(guarded := l.guarded + [p])
    case Exempt => l
    case NonGoal => l.(nonGoal := l.nonGoal + [p])
    case Permitted => l.(permitted := l.permitted + [p])
    case Early => l.(early := l.early + [p])
    case Reference => l.(reference := l.reference + [p])
    case Drift => l.(drift := l.drift + [p])
  }

  lemma AllFiledOneMore(o: Options, done: seq<string>, l: Piles, p: string)
    requires AllFiled(o, done, l) && p !in done
    ensures AllFiled(o, done + [p], Put(l, BucketOf(o, p), p))
  {
    FiledOneMore(o, done, Permitted, l.permitted, p);
    FiledOneMore(o, done, Reference, l.reference, p);
    FiledOneMore(o, done, NonGoal, l.nonGoal, p);
    FiledOneMore(o, done, Early, l.early, p);
    FiledOneMore(o, done, Drift, l.drift, p);
    FiledOneMore(o, done, Protected, l.guarded, p);
  }

  lemma KeyOf(cs: seq<Candidate>, m: map<string, bool>, keys: seq<string>, k: nat)
    requires Gathered(cs, m, keys) && k < |keys|
    ensures keys[k] in m && keys[k] != "" && keys[k] !in keys[..k] && (m[keys[k]] <==> Tracked(cs, keys[k]))
  {
    assert keys[k] in Elements(keys);
  }

  /** The lists after the given paths, filed one after the other. */
  ghost function FiledBy(o: Options, done: seq<string>): Piles {
    if done == [] then Piles([], [], [], [], [], [])
    else var p := done[|done| - 1]; Put(FiledBy(o, done[..|done| - 1]), BucketOf(o, p), p)
  }

  lemma {:induction false} FiledByIsFiled(o: Options, done: seq<string>)
    requires Distinct(done)
    ensures AllFiled(o, done, FiledBy(o, done))
  {
    if done != [] {
      var n := |done| - 1;
      FiledByIsFiled(o, done[..n]);
      AllFiledOneMore(o, done[..n], FiledBy(o, done[..n]), done[n]);
      assert done[..n] + [done[n]] == done;
    }
  }

  /** Filing keeps the order of the paths. */
  lemma {:induction false} FiledInOrder(o: Options, cs: seq<Candidate>, done: seq<string>)
    requires Distinct(done) && InOrder(cs, done)
    ensures InOrder(cs, FiledBy(o, done).early)
  {
    if done != [] {
      var n := |done| - 1;
      FiledInOrder(o, cs, done[..n]);
      FiledByIsFiled(o, done[..n]);
      var early := FiledBy(o, done[..n]).early;
      forall i | 0 <= i < |early| ensures FirstAt(cs, early[i]) < FirstAt(cs, done[n]) {
        assert early[i] in Elements(early);
        ComesBefore(cs, done, n, early[i]);
      }
      PutInOrder(cs, FiledBy(o, done[..n]), BucketOf(o, done[n]), done[n]);
    }
  }

  lemma ComesBefore(cs: seq<Candidate>, done: seq<string>, n: nat, p: string)
    requires InOrder(cs, done) && n < |done| && p in done[..n]
    ensures FirstAt(cs, p) < FirstAt(cs, done[n])
  {
    var j :| 0 <= j < n && done[..n][j] == p;
    assert done[j] == p;
  }

  lemma PutInOrder(cs: seq<Candidate>, l: Piles, b: Bucket, p: string)
    requires InOrder(cs, l.early) && forall i :: 0 <= i < |l.early| ==> FirstAt(cs, l.early[i]) < FirstAt(cs, p)
    ensures InOrder(cs, Put(l, b, p).early)
  {
  }

  method FileAll(o: Options, later: map<string, real>, m: map<string, bool>, keys: seq<string>) returns (l: Piles)
    requires Gathered(o.candidates, m, keys) && InOrder(o.candidates, keys) && forall q :: q in later <==> RequiredLater(o, q)
    ensures AllFiled(o, keys, l) && InOrder(o.candidates, l.early)
  {
    l := Piles([], [], [], [], [], []);
    for k := 0 to |keys|
      invariant l == FiledBy(o, keys[..k])
    {
      var p := keys[k];
      KeyOf(o.candidates, m, keys, k);
      var b := ClassifyOne(o, later, p, m[p]);
      assert keys[..k + 1][..k] == keys[..k];
      l := Put(l, b, p);
    }
    assert keys[..|keys|] == keys;
    FiledByIsFiled(o, keys);
    FiledInOrder(o, o.candidates, keys);
  }

  method SortList(o: Options, keys: seq<string>, b: Bucket, list: seq<string>, lt: Order) returns (sorted: seq<string>)
    requires StrictTotal(lt) && Filed(o, keys, b, list) && Elements(keys) == Paths(o.candidates)
    ensures SortedList(sorted, InBucket(o, b), lt)
  {
    SortAscends(list, lt);
    sorted := Sort(list, lt);
    assert forall p :: p in keys <==> p in Elements(keys);
  }

  function Records(later: map<string, real>, early: seq<string>): seq<Premature>
    requires forall i :: 0 <= i < |early| ==> early[i] in later
  {
    seq(|early|, i requires 0 <= i < |early| => Premature(early[i], later[early[i]]))
  }

  lemma FiledIsBucket(o: Options, keys: seq<string>, b: Bucket, list: seq<string>, p: string)
    requires Filed(o, keys, b, list) && Elements(keys) == Paths(o.candidates)
    ensures p in list <==> p in InBucket(o, b)
  {
    assert p in list <==> p in Elements(list);
    assert p in keys <==> p in Elements(keys);
  }

  lemma EarlyIsLater(o: Options, keys: seq<string>, later: map<string, real>, early: seq<string>)
    requires Filed(o, keys, Early, early) && Elements(keys) == Paths(o.candidates)
    requires forall p :: p in later <==> RequiredLater(o, p)
    ensures forall i :: 0 <= i < |early| ==> early[i] in later
  {
    forall i | 0 <= i < |early| ensures early[i] in later {
      assert early[i] in early;
      FiledIsBucket(o, keys, Early, early, early[i]);
    }
  }

  lemma RecordIsEarly(o: Options, keys: seq<string>, later: map<string, real>, early: seq<string>, e: Premature)
    requires Filed(o, keys, Early, early) && Elements(keys) == Paths(o.candidates)
    requires forall i :: 0 <= i < |early| ==> early[i] in later && LeastLater(o, early[i], later[early[i]])
    ensures e in Records(later, early) <==> IsEarly(o, e)
  {
    var rs := Records(later, early);
    FiledIsBucket(o, keys, Early, early, e.path);
    if e in rs {
      var i :| 0 <= i < |rs| && rs[i] == e;
      assert early[i] in early;
    }
    if IsEarly(o, e) {
      var i :| 0 <= i < |early| && early[i] == e.path;
      LeastLaterIsUnique(o, e.path, e.taskNumber, later[e.path]);
      assert rs[i] == e;
    }
  }

  /** The stable sort of the records, which stand in the order of the candidates. */
  lemma RecordsSort(o: Options, locale: Order, later: map<string, real>, early: seq<string>)
    requires WeakOrder(locale) && InOrder(o.candidates, early) && forall i :: 0 <= i < |early| ==> early[i] in later
    requires forall e :: e in Records(later, early) <==> IsEarly(o, e)
    ensures PrematureSorted(o, locale, Sort(Records(later, early), ByLocale(locale)))
  {
    var rs := Records(later, early);
    LocaleIsWeak(locale);
    SortHas(rs, ByLocale(locale));
    SameMembers(Sort(rs, ByLocale(locale)), rs);
    forall e ensures e in Sort(rs, ByLocale(locale)) <==> e in rs {
      assert e in Sort(rs, ByLocale(locale)) <==> e in Elements(Sort(rs, ByLocale(locale)));
    }
    SortArranges(rs, ByLocale(locale), ByFirst(o.candidates));
  }

  method ClassifyTaskChanges(o: Options, lt: Order, locale: Order) returns (r: Classification)
    requires StrictTotal(lt) && WeakOrder(locale)
    ensures Classifies(o, lt, locale, r)
  {
    var later := DownstreamRequired(o);
    var m, keys := CollectCandidates(o.candidates);
    var l := FileAll(o, later, m, keys);
    var permitted := SortList(o, keys, Permitted, l.permitted, lt);
    var reference := SortList(o, keys, Reference, l.reference, lt);
    var nonGoal := SortList(o, keys, NonGoal, l.nonGoal, lt);
    var drift := SortList(o, keys, Drift, l.drift, lt);
    var guarded := SortList(o, keys, Protected, l.guarded, lt);
    EarlyIsLater(o, keys, later, l.early);
    forall e ensures e in Records(later, l.early) <==> IsEarly(o, e) { RecordIsEarly(o, keys, later, l.early, e); }
    RecordsSort(o, locale, later, l.early);
    r := Classification(permitted, reference, nonGoal, Sort(Records(later, l.early), ByLocale(locale)), drift, guarded);
  }

  // ---------------------------------------------------------------- each list by its own condition

  /** A listed file whose normal form is the path. */
  ghost predicate Names(files: seq<string>, path: string) { exists f :: f in files && TaskPath(f) == path }

  /** A listed directory, not the root, whose segments begin those of the path. */
  ghost predicate Under(dirs: seq<string>, path: string) {
    exists d :: d in dirs && TaskPath(d) != "" && Split(TaskPath(d)) <= Split(path)
  }

  lemma NamesExactly(files: seq<string>, path: string)
    requires path != ""
    ensures path in PathSet(files) <==> Names(files, path)
  {
  }

  lemma UnderExactly(dirs: seq<string>, path: string)
    ensures Covered(dirs, path) <==> Under(dirs, path)
  {
    if Covered(dirs, path) {
      var d :| d in PathSet(dirs) && Split(d) <= Split(path);
      var x :| x in dirs && TaskPath(x) == d;
    }
    if Under(dirs, path) {
      var d :| d in dirs && TaskPath(d) != "" && Split(TaskPath(d)) <= Split(path);
      assert TaskPath(d) in PathSet(dirs);
    }
  }

  /** A file called .gitignore, anything in .github, the orchestrator config, and artifacts. */
  ghost predicate Guarded(o: Options, path: string) {
    path != "" &&
    var parts := Split(path);
    parts[|parts| - 1] == ".gitignore" || parts[0] == ".github" || path == ".ai-orchestrator.json" || o.isArtifact(path)
  }

  lemma GuardedExactly(o: Options, path: string)
    ensures ProtectedTaskPath(o, path) <==> Guarded(o, TaskPath(path))
  {
    var p := TaskPath(path);
    IgnoreFile(p);
    GithubFile(p);
  }

  lemma IgnoreFile(p: string)
    ensures p == ".gitignore" || EndsWith(p, "/.gitignore") <==> Split(p)[|Split(p)| - 1] == ".gitignore"
  {
    assert "/" + ".gitignore" == "/.gitignore";
    LastSegment(p, ".gitignore", "/.gitignore");
  }

  lemma GithubFile(p: string)
    ensures p == ".github" || ".github/" <= p <==> Split(p)[0] == ".github"
  {
    assert ".github" + "/" == ".github/";
    FirstSegment(p, ".github");
  }

  lemma LastSegment(p: string, name: string, tail: string)
    requires '/' !in name && tail == "/" + name
    ensures p == name || EndsWith(p, tail) <==> Split(p)[|Split(p)| - 1] == name
  {
    SplitOfPlain(name);
    if EndsWith(p, tail) {
      var dir := p[..|p| - |tail|];
      assert p == dir + tail == Glue(dir, name);
      SplitOfGlue(dir, name);
    }
    if Split(p)[|Split(p)| - 1] == name { EndsInSegment(p, name, tail); }
  }

  lemma EndsInSegment(p: string, name: string, tail: string)
    requires tail == "/" + name && Split(p)[|Split(p)| - 1] == name
    ensures p == name || EndsWith(p, tail)
  {
    var parts := Split(p);
    JoinOfSplit(p);
    if |parts| > 1 {
      var before := parts[..|parts| - 1];
      assert before + [name] == parts;
      JoinOfConcat(before, [name]);
      assert p == Join(before) + tail;
    }
  }

  lemma FirstSegment(p: string, name: string)
    requires '/' !in name
    ensures p == name || name + "/" <= p <==> Split(p)[0] == name
  {
    SplitOfPlain(name);
    WithinIsSegmentPrefix(name, p);
    assert [name] <= Split(p) <==> Split(p)[0] == name;
  }

  /** The number of a task: its own, its second one, or its place in the list, counted on from the current task downstream. */
  ghost predicate HasNumber(o: Options, i: nat, number: real) {
    && i < |Tasks(o)|
    && var t := Tasks(o)[i];
       if t.n.Some? then t.n == Some(number)
       else if t.taskNumber.Some? then t.taskNumber == Some(number)
       else if o.downstreamTasks.Some? && o.currentTaskNumber.Some? then number == o.currentTaskNumber.value + i as real + 1.0
       else number == i as real + 1.0
  }

  /** Task i is listed, comes after the current one if there is one, and names the path among its files. */
  lemma LaterExactly(o: Options, i: nat, path: string, number: real)
    requires path != "" && i < |Tasks(o)|
    ensures Tasks(o) == match o.downstreamTasks case Some(ts) => ts case None => o.manifestTasks
    ensures NumberAt(o, i) == number <==> HasNumber(o, i, number)
    ensures HasNumber(o, i, number) ==>
      (LaterRequires(o, i, path) <==>
         && (o.currentTaskNumber.Some? ==> number > o.currentTaskNumber.value)
         && (Names(Tasks(o)[i].expectedFiles, path) || Names(Tasks(o)[i].files, path)))
  {
    var t := Tasks(o)[i];
    NamesExactly(t.expectedFiles + t.files, path);
    assert Names(t.expectedFiles + t.files, path) <==> Names(t.expectedFiles, path) || Names(t.files, path) by {
      assert forall f :: f in t.expectedFiles + t.files <==> f in t.expectedFiles || f in t.files;
    }
  }

  /** The rules, each with what goes before it. */
  ghost predicate BelongsTo(o: Options, path: string, b: Bucket) {
    var fixed := o.isArtifact(path) || path == ".ai-orchestrator.json" || o.isProtected(path);
    var aside := fixed || Names(o.exemptFiles, path) || Under(o.scope.nonGoals, path);
    var settled := aside || Names(o.scope.requiredFiles, path);
    var guarded := Guarded(o, TaskPath(path));
    var open := !settled && !guarded && !RequiredLater(o, path);
    var mayTouch := Names(o.scope.mayExtendFiles, path) || (Under(o.scope.permittedAreas, path) && Tracked(o.candidates, path));
    match b
    case Protected => fixed || (!settled && guarded)
    case Exempt => !fixed && Names(o.exemptFiles, path)
    case NonGoal => !fixed && !Names(o.exemptFiles, path) && Under(o.scope.nonGoals, path)
    case Permitted => (!aside && Names(o.scope.requiredFiles, path)) || (open && !Names(o.scope.referenceFiles, path) && mayTouch)
    case Early => !settled && !guarded && RequiredLater(o, path)
    case Reference => open && Names(o.scope.referenceFiles, path)
    case Drift => open && !Names(o.scope.referenceFiles, path) && !mayTouch
  }

  lemma BucketExactly(o: Options, path: string, b: Bucket)
    requires path != ""
    ensures BucketOf(o, path) == b <==> BelongsTo(o, path, b)
  {
    NamesExactly(o.exemptFiles, path);
    NamesExactly(o.scope.requiredFiles, path);
    NamesExactly(o.scope.referenceFiles, path);
    NamesExactly(o.scope.mayExtendFiles, path);
    UnderExactly(o.scope.nonGoals, path);
    UnderExactly(o.scope.permittedAreas, path);
    GuardedExactly(o, path);
  }

  /** Each list of the result holds exactly the candidates that its own condition describes. */
  lemma ListsExactly(o: Options, lt: Order, locale: Order, r: Classification, p: string)
    requires Classifies(o, lt, locale, r)
    ensures
      var candidate := p != "" && exists c :: c in o.candidates && TaskPath(c.path) == p;
      && (p in r.permittedPaths <==> candidate && BelongsTo(o, p, Permitted))
      && (p in r.modifiedReferenceFiles <==> candidate && BelongsTo(o, p, Reference))
      && (p in r.nonGoalFiles <==> candidate && BelongsTo(o, p, NonGoal))
      && (p in r.driftFiles <==> candidate && BelongsTo(o, p, Drift))
      && (p in r.protectedFiles <==> candidate && BelongsTo(o, p, Protected))
      && (HasPath(r.prematureImplementation, p) <==> candidate && BelongsTo(o, p, Early))
  {
    ListHas(r.permittedPaths, InBucket(o, Permitted), lt, p);
    ListHas(r.modifiedReferenceFiles, InBucket(o, Reference), lt, p);
    ListHas(r.nonGoalFiles, InBucket(o, NonGoal), lt, p);
    ListHas(r.driftFiles, InBucket(o, Drift), lt, p);
    ListHas(r.protectedFiles, InBucket(o, Protected), lt, p);
    EarlyHasRecord(o, locale, r.prematureImplementation, p);
    CandidateExactly(o, p);
  }

  lemma CandidateExactly(o: Options, p: string)
    ensures forall b ::
      p in InBucket(o, b) <==> (p != "" && exists c :: c in o.candidates && TaskPath(c.path) == p) && BelongsTo(o, p, b)
  {
    assert p in Paths(o.candidates) <==> p != "" && exists c :: c in o.candidates && TaskPath(c.path) == p;
    if p != "" { forall b ensures BucketOf(o, p) == b <==> BelongsTo(o, p, b) { BucketExactly(o, p, b); } }
  }

  /** Premature files stand in locale order of their paths, then by task number, then as their paths first occur. */
  lemma PrematureOrder(o: Options, locale: Order, s: seq<Premature>, i: nat, j: nat)
    requires PrematureSorted(o, locale, s) && i < j < |s|
    ensures !locale(s[j].path, s[i].path) || locale(s[i].path, s[j].path)
    ensures !locale(s[i].path, s[j].path) ==> s[i].taskNumber <= s[j].taskNumber
    ensures !locale(s[i].path, s[j].path) && s[i].taskNumber == s[j].taskNumber ==>
      FirstAt(o.candidates, s[i].path) < FirstAt(o.candidates, s[j].path)
  {
    var a, b := s[i], s[j];
    assert Stably(o.candidates, locale)(a, b);
    assert ByLocale(locale)(a, b) || (!ByLocale(locale)(b, a) && ByFirst(o.candidates)(a, b));
    LocaleThenNumber(locale, a, b);
    LocaleThenNumber(locale, b, a);
  }

  lemma LocaleThenNumber(locale: Order, a: Premature, b: Premature)
    ensures ByLocale(locale)(a, b) <==> locale(a.path, b.path) || (!locale(b.path, a.path) && a.taskNumber < b.taskNumber)
  {
    var path := ByPath(locale);
    assert path(a, b) == locale(a.path, b.path) && path(b, a) == locale(b.path, a.path);
    var number: (Premature, Premature) -> bool := ByNumber;
    assert number(a, b) == ByNumber(a, b);
    assert Then(path, number)(a, b) == (path(a, b) || (!path(b, a) && number(a, b)));
  }

  // ---------------------------------------------------------------- one path against a scope

  /** The options isPathPermittedByScope classifies a single tracked path with. */
  function Alone(path: string, scope: Scope, isArtifact: string -> bool): Options {
    Options([Candidate(path, true)], scope, None, [], None, [], isArtifact, _ => false)
  }

  /** What a scope permits: required files, extendable files and files in its areas, minus what overrides each. */
  ghost predicate Permits(scope: Scope, isArtifact: string -> bool, p: string) {
    && !isArtifact(p) && p != ".ai-orchestrator.json" && !Covered(scope.nonGoals, p)
    && (|| p in PathSet(scope.requiredFiles)
        || (&& !ProtectedTaskPath(Alone(p, scope, isArtifact), p) && p !in PathSet(scope.referenceFiles)
            && (p in PathSet(scope.mayExtendFiles) || Covered(scope.permittedAreas, p))))
  }

  lemma PermittedExactly(scope: Scope, isArtifact: string -> bool, p: string)
    requires p != "" && TaskPath(p) == p
    ensures BucketOf(Alone(p, scope, isArtifact), p) == Permitted <==> Permits(scope, isArtifact, p)
  {
    var o := Alone(p, scope, isArtifact);
    assert o.candidates[0] in o.candidates;
    assert Tracked(o.candidates, p);
    assert PathSet([]) == {};
    assert |Tasks(o)| == 0;
  }

  /** A path whose normal form is not itself normal, as a leading space can cause, is never permitted. */
  method IsPathPermittedByScope(file: string, scope: Scope, isArtifact: string -> bool, lt: Order, locale: Order) returns (ok: bool)
    requires StrictTotal(lt) && WeakOrder(locale)
    ensures ok <==> TaskPath(file) != "" && TaskPath(TaskPath(file)) == TaskPath(file) && Permits(scope, isArtifact, TaskPath(file))
  {
    var p := NormalizeTaskPath(file);
    if p == "" { return false; }
    var o := Alone(p, scope, isArtifact);
    var r := ClassifyTaskChanges(o, lt, locale);
    ok := p in r.permittedPaths;
    ListHas(r.permittedPaths, InBucket(o, Permitted), lt, p);
    AlonePaths(p, scope, isArtifact);
    if TaskPath(p) == p { PermittedExactly(scope, isArtifact, p); }
  }

  lemma AlonePaths(p: string, scope: Scope, isArtifact: string -> bool)
    ensures Paths(Alone(p, scope, isArtifact).candidates) == {TaskPath(p)} - {""}
  {
    PathsOneMore([], Candidate(p, true));
    assert [] + [Candidate(p, true)] == Alone(p, scope, isArtifact).candidates;
  }
}
