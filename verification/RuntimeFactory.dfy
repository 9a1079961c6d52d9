/**
 The repository runtime factory without close(): two caches, their stale sets, the delayed reaper
 and builds in progress. Calls interleave at awaits, so an event is one piece of code between them.
 A cache entry that is being built carries the number of its build. A call waits for a build in
 `waiting` or `exWaiting` and has its answer in `results` or `exResults`; a getRuntime call that
 still needs the operational runtime is in `starting` as well.
 */
module RuntimeFactory {
  import opened Prelude
  import opened Sequences

  type RepoId = string
  type Fingerprint = string
  type RuntimeId = nat

  const MAX_STALE_AGE_MS := 10 * 60 * 1000

  datatype ExKey = ExKey(repo: RepoId, fingerprint: Fingerprint)

  datatype Entry = Entry(runtime: Option<RuntimeId>, stale: bool, staleAt: Option<int>, build: Option<nat>)

  datatype Cache = Cache(op: map<RepoId, Entry>, ex: map<ExKey, Entry>, staleOp: set<RepoId>, staleEx: set<ExKey>,
                         active: map<RepoId, Fingerprint>, reapScheduled: bool)

  datatype Build = OpBuild(repo: RepoId) | ExBuild(key: ExKey)

  datatype Outcome = Ready(runtime: RuntimeId) | Failed

  datatype Calls = Calls(waiting: map<nat, nat>, results: map<nat, Outcome>, starting: map<nat, ExKey>,
                         exWaiting: map<nat, nat>, exResults: map<nat, Outcome>)

  datatype State = State(cache: Cache, builds: map<nat, Build>, nextBuild: nat, calls: Calls)

  const Initial := State(Cache(map[], map[], {}, {}, map[], false), map[], 0, Calls(map[], map[], map[], map[], map[]))

  /** What checkActiveLease answers; it may throw. */
  datatype Lease = Free | Held | Throws

  datatype Event =
    | GetOperational(repo: RepoId, call: nat)
    | GetRuntime(key: ExKey, now: int, call: nat)
    | Continues(call: nat)
    | BuildSettles(build: nat, outcome: Outcome)
    | LeaseReleased(repo: RepoId, now: int, exLease: Lease, opLease: Lease)
    | LeaseAcquired(repo: RepoId)
    | ReapFires(now: int, opOrder: seq<RepoId>, exOrder: seq<ExKey>, opLeases: RepoId -> Lease, exLeases: ExKey -> Lease)

  // ---------------------------------------------------------------- stale marking

  function Marked(e: Entry, now: int): Entry { e.(stale := true, staleAt := Some(now)) }

  function Unmarked(e: Entry): Entry { e.(stale := false, staleAt := None) }

  function MarkOp(c: Cache, k: RepoId, now: int): Cache {
    if k !in c.op then c
    else c.(op := c.op[k := Marked(c.op[k], now)], staleOp := c.staleOp + {k}, reapScheduled := true)
  }

  function MarkEx(c: Cache, k: ExKey, now: int): Cache {
    if k !in c.ex then c
    else c.(ex := c.ex[k := Marked(c.ex[k], now)], staleEx := c.staleEx + {k}, reapScheduled := true)
  }

  function UnmarkOp(c: Cache, k: RepoId): Cache {
    if k !in c.op then c else c.(op := c.op[k := Unmarked(c.op[k])], staleOp := c.staleOp - {k})
  }

  function UnmarkEx(c: Cache, k: ExKey): Cache {
    if k !in c.ex then c else c.(ex := c.ex[k := Unmarked(c.ex[k])], staleEx := c.staleEx - {k})
  }

  /** The fingerprint of a repository changes: the entry of the previous one goes stale. */
  function SwitchActive(c: Cache, k: ExKey, now: int): Cache {
    var d := if k.repo in c.active && c.active[k.repo] != k.fingerprint
             then MarkEx(c, ExKey(k.repo, c.active[k.repo]), now) else c;
    d.(active := d.active[k.repo := k.fingerprint])
  }

  function ReleasedEx(c: Cache, r: RepoId, now: int, lease: Lease): Cache {
    if r !in c.active then c
    else
      var k := ExKey(r, c.active[r]);
      if k !in c.ex || c.ex[k].runtime.None? then c
      else if lease != Free then UnmarkEx(c, k)
      else if !c.ex[k].stale then MarkEx(c, k, now)
      else c
  }

  function ReleasedOp(c: Cache, r: RepoId, now: int, lease: Lease): Cache {
    if r !in c.op || c.op[r].runtime.None? then c
    else if lease != Free then UnmarkOp(c, r)
    else if !c.op[r].stale then MarkOp(c, r, now)
    else c
  }

  function Released(c: Cache, r: RepoId, now: int, exLease: Lease, opLease: Lease): Cache {
    ReleasedOp(ReleasedEx(c, r, now, exLease), r, now, opLease)
  }

  function Acquired(c: Cache, r: RepoId): Cache {
    UnmarkOp(if r in c.active then UnmarkEx(c, ExKey(r, c.active[r])) else c, r)
  }

  // ---------------------------------------------------------------- the reaper, one key at a time

  function Exceeded(e: Entry, now: int): bool {
    e.staleAt.Some? && now - e.staleAt.value >= MAX_STALE_AGE_MS
  }

  /** The new cache and whether the reaper must come back. */
  function ReapOpOne(c: Cache, k: RepoId, now: int, lease: Lease): (Cache, bool) {
    if k !in c.op then (c.(staleOp := c.staleOp - {k}), false)
    else
      var e := c.op[k];
      if e.build.Some? then (c, true)
      else if lease != Free && !Exceeded(e, now) then (c, true)
      else (c.(op := c.op - {k}, staleOp := c.staleOp - {k}), lease == Throws)
  }

  predicate IsActive(active: map<RepoId, Fingerprint>, k: ExKey) {
    k.repo !in active || active[k.repo] == k.fingerprint
  }

  function Deactivate(active: map<RepoId, Fingerprint>, k: ExKey): map<RepoId, Fingerprint> {
    if k.repo in active && active[k.repo] == k.fingerprint then active - {k.repo} else active
  }

  function ReapExOne(c: Cache, k: ExKey, now: int, lease: Lease): (Cache, bool) {
    if k !in c.ex then (c.(staleEx := c.staleEx - {k}), false)
    else
      var e := c.ex[k];
      if e.build.Some? then (c, true)
      else if lease != Free && IsActive(c.active, k) then (UnmarkEx(c, k), lease == Throws)
      else if lease != Free && !Exceeded(e, now) then (c, true)
      else (c.(ex := c.ex - {k}, staleEx := c.staleEx - {k}, active := Deactivate(c.active, k)), lease == Throws)
  }

  function ReapOp(c: Cache, order: seq<RepoId>, now: int, lease: RepoId -> Lease): (Cache, bool) {
    if order == [] then (c, false)
    else
      var (before, retry) := ReapOp(c, order[..|order| - 1], now, lease);
      var k := order[|order| - 1];
      var (after, again) := ReapOpOne(before, k, now, lease(k));
      (after, retry || again)
  }

  function ReapEx(c: Cache, order: seq<ExKey>, now: int, lease: ExKey -> Lease): (Cache, bool) {
    if order == [] then (c, false)
    else
      var (before, retry) := ReapEx(c, order[..|order| - 1], now, lease);
      var k := order[|order| - 1];
      var (after, again) := ReapExOne(before, k, now, lease(k));
      (after, retry || again)
  }

  function Reap(c: Cache, now: int, opOrder: seq<RepoId>, exOrder: seq<ExKey>,
                opLease: RepoId -> Lease, exLease: ExKey -> Lease): Cache {
    var (d, retry1) := ReapOp(c.(reapScheduled := false), opOrder, now, opLease);
    var (e, retry2) := ReapEx(d, exOrder, now, exLease);
    if retry1 || retry2 then e.(reapScheduled := true) else e
  }

  // ---------------------------------------------------------------- builds and calls

  const Placeholder := Entry(None, false, None, None)

  /** getOperationalRuntime up to its await: join, serve or start the build. */
  function Operational(s: State, r: RepoId, call: nat): State {
    if r in s.cache.op then
      match s.cache.op[r].build
      case Some(b) => s.(calls := s.calls.(waiting := s.calls.waiting[call := b]))
      case None => Serve(s.(cache := UnmarkOp(s.cache, r)), s.cache.op[r].runtime, call)
    else StartOp(s, r, call)
  }

  function Serve(s: State, runtime: Option<RuntimeId>, call: nat): State {
    match runtime
    case Some(x) => s.(calls := s.calls.(results := s.calls.results[call := Ready(x)]))
    case None => s
  }

  function StartOp(s: State, r: RepoId, call: nat): State {
    var b := s.nextBuild;
    State(s.cache.(op := s.cache.op[r := Placeholder.(build := Some(b))]), s.builds[b := OpBuild(r)], b + 1,
          s.calls.(waiting := s.calls.waiting[call := b]))
  }

  /** getRuntime up to its first await: join, serve, or ask for the operational runtime. */
  function Runtime(s: State, k: ExKey, now: int, call: nat): State {
    if k in s.cache.ex then
      match s.cache.ex[k].build
      case Some(b) => s.(calls := s.calls.(exWaiting := s.calls.exWaiting[call := b]))
      case None => ServeEx(s.(cache := UnmarkEx(SwitchActive(s.cache, k, now), k)), s.cache.ex[k].runtime, call)
    else Begin(Operational(s.(cache := SwitchActive(s.cache, k, now)), k.repo, call), k, call)
  }

  function ServeEx(s: State, runtime: Option<RuntimeId>, call: nat): State {
    match runtime
    case Some(x) => s.(calls := s.calls.(exResults := s.calls.exResults[call := Ready(x)]))
    case None => s
  }

  function Begin(s: State, k: ExKey, call: nat): State {
    s.(calls := s.calls.(starting := s.calls.starting[call := k]))
  }

  /** getRuntime after its first await: fail with the operational build, or store a placeholder whatever is there. */
  function Continue(s: State, call: nat, operational: Outcome): State
    requires call in s.calls.starting
  {
    var t := s.(calls := s.calls.(starting := s.calls.starting - {call}));
    match operational
    case Failed => t.(calls := t.calls.(exResults := t.calls.exResults[call := Failed]))
    case Ready(_) => StartEx(t, s.calls.starting[call], call)
  }

  function StartEx(s: State, k: ExKey, call: nat): State {
    var b := s.nextBuild;
    State(s.cache.(ex := s.cache.ex[k := Placeholder.(build := Some(b))]), s.builds[b := ExBuild(k)], b + 1,
          s.calls.(exWaiting := s.calls.exWaiting[call := b]))
  }

  function Others(waiting: map<nat, nat>, b: nat): map<nat, nat> {
    map c | c in waiting && waiting[c] != b :: waiting[c]
  }

  function Answered(waiting: map<nat, nat>, b: nat, outcome: Outcome): map<nat, Outcome> {
    map c | c in waiting && waiting[c] == b :: outcome
  }

  /** Everyone who waits for the build gets its outcome. */
  function Answer(calls: Calls, b: nat, outcome: Outcome): Calls {
    calls.(waiting := Others(calls.waiting, b), results := calls.results + Answered(calls.waiting, b, outcome),
           exWaiting := Others(calls.exWaiting, b), exResults := calls.exResults + Answered(calls.exWaiting, b, outcome))
  }

  function SettledOp(op: map<RepoId, Entry>, r: RepoId, b: nat, outcome: Outcome): map<RepoId, Entry> {
    match outcome
    case Ready(x) => if r in op && op[r].build == Some(b) then op[r := op[r].(runtime := Some(x), build := None)] else op
    case Failed => op - {r}
  }

  function SettledEx(ex: map<ExKey, Entry>, k: ExKey, b: nat, outcome: Outcome): map<ExKey, Entry> {
    match outcome
    case Ready(x) => if k in ex && ex[k].build == Some(b) then ex[k := ex[k].(runtime := Some(x), build := None)] else ex
    case Failed => ex - {k}
  }

  function SettleOp(s: State, r: RepoId, b: nat, outcome: Outcome): State {
    State(s.cache.(op := SettledOp(s.cache.op, r, b, outcome)), s.builds - {b}, s.nextBuild, Answer(s.calls, b, outcome))
  }

  function SettleEx(s: State, k: ExKey, b: nat, outcome: Outcome): State {
    var active := if outcome.Failed? then Deactivate(s.cache.active, k) else s.cache.active;
    State(s.cache.(ex := SettledEx(s.cache.ex, k, b, outcome), active := active), s.builds - {b}, s.nextBuild,
          Answer(s.calls, b, outcome))
  }

  ghost predicate Unused(calls: Calls, c: nat) {
    c !in calls.waiting && c !in calls.results && c !in calls.starting && c !in calls.exWaiting && c !in calls.exResults
  }

  ghost predicate Enabled(s: State, e: Event) {
    match e
    case GetOperational(_, c) => Unused(s.calls, c)
    case GetRuntime(_, _, c) => Unused(s.calls, c)
    case Continues(c) => c in s.calls.starting && c in s.calls.results
    case BuildSettles(b, _) => b in s.builds
    case LeaseReleased(_, _, _, _) => true
    case LeaseAcquired(_) => true
    case ReapFires(_, opOrder, exOrder, _, _) =>
      s.cache.reapScheduled && Lists(opOrder, s.cache.staleOp) && Lists(exOrder, s.cache.staleEx)
  }

  ghost function Step(s: State, e: Event): State {
    if !Enabled(s, e) then s else
    match e
    case GetOperational(r, c) => Operational(s, r, c)
    case GetRuntime(k, now, c) => Runtime(s, k, now, c)
    case Continues(c) => Continue(s, c, s.calls.results[c])
    case BuildSettles(b, outcome) =>
      (match s.builds[b]
       case OpBuild(r) => SettleOp(s, r, b, outcome)
       case ExBuild(k) => SettleEx(s, k, b, outcome))
    case LeaseReleased(r, now, exLease, opLease) => s.(cache := Released(s.cache, r, now, exLease, opLease))
    case LeaseAcquired(r) => s.(cache := Acquired(s.cache, r))
    case ReapFires(now, opOrder, exOrder, opLeases, exLeases) =>
      s.(cache := Reap(s.cache, now, opOrder, exOrder, opLeases, exLeases))
  }

  ghost function Run(s: State, es: seq<Event>): State {
    if es == [] then s else Step(Run(s, es[..|es| - 1]), es[|es| - 1])
  }

  // ---------------------------------------------------------------- invariants

  /** A stale entry is in its stale set. */
  ghost predicate StaleListed(c: Cache) {
    && (forall k :: k in c.op && c.op[k].stale ==> k in c.staleOp)
    && (forall k :: k in c.ex && c.ex[k].stale ==> k in c.staleEx)
  }

  /** A non-empty stale set has a reap coming. */
  ghost predicate ReapComing(c: Cache) {
    c.staleOp != {} || c.staleEx != {} ==> c.reapScheduled
  }

  ghost predicate CacheInv(c: Cache) { StaleListed(c) && ReapComing(c) }

  ghost predicate Numbered(builds: map<nat, Build>, next: nat) { forall b :: b in builds ==> b < next }

  /** Operational builds and operational placeholders are the same thing. */
  ghost predicate OpLinked(op: map<RepoId, Entry>, builds: map<nat, Build>) {
    && (forall b :: b in builds && builds[b].OpBuild? ==> builds[b].repo in op && op[builds[b].repo].build == Some(b))
    && (forall r :: r in op && op[r].build.Some? ==> op[r].build.value in builds && builds[op[r].build.value] == OpBuild(r))
    && (forall r :: r in op && op[r].build.None? ==> op[r].runtime.Some?)
  }

  /** An execution placeholder names a build of its key; the converse is what getRuntime does not keep. */
  ghost predicate ExLinked(ex: map<ExKey, Entry>, builds: map<nat, Build>) {
    && (forall k :: k in ex && ex[k].build.Some? ==> ex[k].build.value in builds && builds[ex[k].build.value] == ExBuild(k))
    && (forall k :: k in ex && ex[k].build.None? ==> ex[k].runtime.Some?)
  }

  /** Every execution build owns the entry of its key. */
  ghost predicate ExOwned(ex: map<ExKey, Entry>, builds: map<nat, Build>) {
    forall b :: b in builds && builds[b].ExBuild? ==> builds[b].key in ex && ex[builds[b].key].build == Some(b)
  }

  /** Whoever waits, waits for a build in progress of the right kind and has no answer yet. */
  ghost predicate CallsLinked(calls: Calls, builds: map<nat, Build>) {
    && (forall c :: c in calls.waiting ==> calls.waiting[c] in builds && builds[calls.waiting[c]].OpBuild? && c !in calls.results)
    && (forall c :: c in calls.exWaiting ==>
          calls.exWaiting[c] in builds && builds[calls.exWaiting[c]].ExBuild? && c !in calls.starting && c !in calls.exResults)
    && (forall c :: c in calls.starting ==> c !in calls.exResults)
  }

  ghost predicate Inv(s: State) {
    && CacheInv(s.cache) && Numbered(s.builds, s.nextBuild)
    && OpLinked(s.cache.op, s.builds) && ExLinked(s.cache.ex, s.builds) && CallsLinked(s.calls, s.builds)
  }

  // ---------------------------------------------------------------- marks, hooks and the fingerprint switch

  /** Entries may have been marked, unmarked or, when nobody builds them, evicted. */
  ghost predicate Quiet<K>(was: map<K, Entry>, now: map<K, Entry>) {
    && (forall k :: k in now ==> k in was && now[k].build == was[k].build && now[k].runtime == was[k].runtime)
    && (forall k :: k in was && was[k].build.Some? ==> k in now)
  }

  /** What the cache-only events keep. */
  ghost predicate Kept(c: Cache, d: Cache) {
    (CacheInv(c) ==> CacheInv(d)) && Quiet(c.op, d.op) && Quiet(c.ex, d.ex)
  }

  lemma KeptTwice(c: Cache, d: Cache, e: Cache)
    requires Kept(c, d) && Kept(d, e)
    ensures Kept(c, e)
  {
  }

  lemma MarkExKeeps(c: Cache, k: ExKey, now: int)
    ensures Kept(c, MarkEx(c, k, now))
  {
  }

  lemma MarkOpKeeps(c: Cache, k: RepoId, now: int)
    ensures Kept(c, MarkOp(c, k, now))
  {
  }

  lemma UnmarkExKeeps(c: Cache, k: ExKey)
    ensures Kept(c, UnmarkEx(c, k))
  {
  }

  lemma UnmarkOpKeeps(c: Cache, k: RepoId)
    ensures Kept(c, UnmarkOp(c, k))
  {
  }

  lemma SwitchKeeps(c: Cache, k: ExKey, now: int)
    ensures Kept(c, SwitchActive(c, k, now))
  {
    if k.repo in c.active { MarkExKeeps(c, ExKey(k.repo, c.active[k.repo]), now); }
  }

  lemma ReleasedExKeeps(c: Cache, r: RepoId, now: int, lease: Lease)
    ensures Kept(c, ReleasedEx(c, r, now, lease))
  {
    if r in c.active {
      MarkExKeeps(c, ExKey(r, c.active[r]), now);
      UnmarkExKeeps(c, ExKey(r, c.active[r]));
    }
  }

  lemma ReleasedKeeps(c: Cache, r: RepoId, now: int, exLease: Lease, opLease: Lease)
    ensures Kept(c, Released(c, r, now, exLease, opLease))
  {
    var d := ReleasedEx(c, r, now, exLease);
    ReleasedExKeeps(c, r, now, exLease);
    MarkOpKeeps(d, r, now);
    UnmarkOpKeeps(d, r);
    KeptTwice(c, d, ReleasedOp(d, r, now, opLease));
  }

  lemma AcquiredKeeps(c: Cache, r: RepoId)
    ensures Kept(c, Acquired(c, r))
  {
    var d := if r in c.active then UnmarkEx(c, ExKey(r, c.active[r])) else c;
    if r in c.active { UnmarkExKeeps(c, ExKey(r, c.active[r])); }
    UnmarkOpKeeps(d, r);
    KeptTwice(c, d, Acquired(c, r));
  }

  // ---------------------------------------------------------------- what a reap does

  predicate OpEvictable(e: Entry, now: int, lease: Lease) {
    e.build.None? && (lease == Free || Exceeded(e, now))
  }

  /** The operational pass removes exactly the evictable keys it visits and touches nothing else. */
  ghost predicate OpPass(c: Cache, order: seq<RepoId>, now: int, lease: RepoId -> Lease, d: Cache) {
    && d == c.(op := d.op, staleOp := d.staleOp)
    && (forall k :: k in c.op ==> (k in d.op <==> !(k in order && OpEvictable(c.op[k], now, lease(k)))))
    && (forall k :: k in d.op ==> k in c.op && d.op[k] == c.op[k])
  }

  /** A visited key stays listed exactly when its entry stays; the reaper comes back for those and for a lease check that threw. */
  ghost predicate OpListPass(c: Cache, order: seq<RepoId>, lease: RepoId -> Lease, d: Cache, retry: bool) {
    && (forall k :: k in d.staleOp <==> k in c.staleOp && (k in order ==> k in d.op))
    && (retry <==> exists k :: k in order && k in c.op && (k in d.op || (c.op[k].build.None? && lease(k) == Throws)))
  }

  lemma OpPassOneMore(c: Cache, order: seq<RepoId>, k: RepoId, now: int, lease: RepoId -> Lease, d: Cache)
    requires OpPass(c, order, now, lease, d) && k !in order
    ensures OpPass(c, order + [k], now, lease, ReapOpOne(d, k, now, lease(k)).0)
  {
    assert forall x :: x in order + [k] <==> x in order || x == k;
  }

  lemma OpListOneMore(c: Cache, order: seq<RepoId>, k: RepoId, now: int, lease: RepoId -> Lease, d: Cache, retry: bool)
    requires OpPass(c, order, now, lease, d) && OpListPass(c, order, lease, d, retry) && k !in order
    ensures OpListPass(c, order + [k], lease, ReapOpOne(d, k, now, lease(k)).0, retry || ReapOpOne(d, k, now, lease(k)).1)
  {
    assert forall x :: x in order + [k] <==> x in order || x == k;
    assert k in d.op <==> k in c.op;
  }

  lemma {:induction false} ReapOpDoes(c: Cache, order: seq<RepoId>, now: int, lease: RepoId -> Lease)
    requires Distinct(order)
    ensures
      var (d, retry) := ReapOp(c, order, now, lease);
      OpPass(c, order, now, lease, d) && OpListPass(c, order, lease, d, retry)
  {
    if order != [] {
      var n := |order| - 1;
      ReapOpDoes(c, order[..n], now, lease);
      var (d, retry) := ReapOp(c, order[..n], now, lease);
      assert order[n] !in order[..n];
      OpPassOneMore(c, order[..n], order[n], now, lease, d);
      OpListOneMore(c, order[..n], order[n], now, lease, d, retry);
      assert order[..n] + [order[n]] == order;
    }
  }

  /** What becomes of a visited execution entry; None is eviction. */
  function ExFate(e: Entry, now: int, lease: Lease, isActive: bool): Option<Entry> {
    if e.build.Some? then Some(e)
    else if lease == Free then None
    else if isActive then Some(Unmarked(e))
    else if Exceeded(e, now) then None
    else Some(e)
  }

  ghost predicate Meets(ex: map<ExKey, Entry>, k: ExKey, fate: Option<Entry>) {
    if fate.Some? then k in ex && ex[k] == fate.value else k !in ex
  }

  /** The key was visited, nobody built it and its lease was free, so the pass has evicted it. */
  predicate Freed(c: Cache, visited: seq<ExKey>, k: ExKey, lease: ExKey -> Lease) {
    k in visited && k in c.ex && c.ex[k].build.None? && lease(k) == Free
  }

  /** Active when visited: active before the pass, or its repository's active entry has been evicted in the pass. */
  predicate ActiveWhen(c: Cache, visited: seq<ExKey>, k: ExKey, lease: ExKey -> Lease) {
    IsActive(c.active, k) || Freed(c, visited, ExKey(k.repo, c.active[k.repo]), lease)
  }

  ghost predicate ExEntriesPass(c: Cache, order: seq<ExKey>, now: int, lease: ExKey -> Lease, ex: map<ExKey, Entry>) {
    && (forall k :: k in ex ==> k in c.ex)
    && (forall k :: k in c.ex && k !in order ==> k in ex && ex[k] == c.ex[k])
    && (forall i :: 0 <= i < |order| && order[i] in c.ex ==>
          Meets(ex, order[i], ExFate(c.ex[order[i]], now, lease(order[i]), ActiveWhen(c, order[..i], order[i], lease))))
  }

  ghost predicate ActivePass(c: Cache, order: seq<ExKey>, lease: ExKey -> Lease, active: map<RepoId, Fingerprint>) {
    && (forall r :: r in active ==> r in c.active && active[r] == c.active[r])
    && (forall r :: r in c.active ==> (r in active <==> !Freed(c, order, ExKey(r, c.active[r]), lease)))
  }

  /** The execution pass gives each visited entry its fate and keeps all others. */
  ghost predicate ExPass(c: Cache, order: seq<ExKey>, now: int, lease: ExKey -> Lease, d: Cache) {
    && d == c.(ex := d.ex, staleEx := d.staleEx, active := d.active)
    && ExEntriesPass(c, order, now, lease, d.ex) && ActivePass(c, order, lease, d.active)
  }

  /** The visit leaves the entry listed: it is being built, or held, inactive and not yet ten minutes stale. */
  predicate StaysListed(c: Cache, visited: seq<ExKey>, k: ExKey, now: int, lease: ExKey -> Lease) {
    && k in c.ex
    && (c.ex[k].build.Some? || (lease(k) != Free && !ActiveWhen(c, visited, k, lease) && !Exceeded(c.ex[k], now)))
  }

  predicate CheckThrew(c: Cache, k: ExKey, lease: ExKey -> Lease) { k in c.ex && c.ex[k].build.None? && lease(k) == Throws }

  ghost predicate ExListPass(c: Cache, order: seq<ExKey>, now: int, lease: ExKey -> Lease, d: Cache) {
    && (forall k :: k !in order ==> (k in d.staleEx <==> k in c.staleEx))
    && (forall i :: 0 <= i < |order| ==> (order[i] in d.staleEx <==> order[i] in c.staleEx && StaysListed(c, order[..i], order[i], now, lease)))
  }

  ghost predicate ExRetry(c: Cache, order: seq<ExKey>, now: int, lease: ExKey -> Lease) {
    exists i :: 0 <= i < |order| && (StaysListed(c, order[..i], order[i], now, lease) || CheckThrew(c, order[i], lease))
  }

  /** One visit does to the cache what the fate of the entry says. */
  lemma VisitIsFate(c: Cache, k: ExKey, now: int, lease: Lease)
    requires k in c.ex
    ensures
      var d := ReapExOne(c, k, now, lease).0;
      var fate := ExFate(c.ex[k], now, lease, IsActive(c.active, k));
      && d == c.(ex := d.ex, staleEx := d.staleEx, active := d.active)
      && d.ex == (if fate.Some? then c.ex[k := fate.value] else c.ex - {k})
      && d.active == (if c.ex[k].build.None? && lease == Free then Deactivate(c.active, k) else c.active)
  {
  }

  lemma FatesOneMore(c: Cache, order: seq<ExKey>, k: ExKey, now: int, lease: ExKey -> Lease,
                     before: map<ExKey, Entry>, after: map<ExKey, Entry>)
    requires ExEntriesPass(c, order, now, lease, before) && k !in order
    requires k !in c.ex ==> after == before
    requires k in c.ex ==>
      var fate := ExFate(c.ex[k], now, lease(k), ActiveWhen(c, order, k, lease));
      after == if fate.Some? then before[k := fate.value] else before - {k}
    ensures ExEntriesPass(c, order + [k], now, lease, after)
  {
    var more := order + [k];
    assert forall x :: x in more <==> x in order || x == k;
    forall i | 0 <= i < |more| && more[i] in c.ex
      ensures Meets(after, more[i], ExFate(c.ex[more[i]], now, lease(more[i]), ActiveWhen(c, more[..i], more[i], lease)))
    {
      if i < |order| {
        assert more[..i] == order[..i] && order[i] in order;
        assert Meets(before, order[i], ExFate(c.ex[order[i]], now, lease(order[i]), ActiveWhen(c, order[..i], order[i], lease)));
      } else {
        assert more[..i] == order;
      }
    }
  }

  lemma ActiveOneMore(c: Cache, order: seq<ExKey>, k: ExKey, lease: ExKey -> Lease,
                      before: map<RepoId, Fingerprint>, after: map<RepoId, Fingerprint>)
    requires ActivePass(c, order, lease, before) && k !in order
    requires after == if k in c.ex && c.ex[k].build.None? && lease(k) == Free then Deactivate(before, k) else before
    ensures ActivePass(c, order + [k], lease, after)
  {
    assert forall x :: x in order + [k] <==> x in order || x == k;
  }

  /** One visit does to the list and the retry flag what the entry says. */
  lemma VisitLists(c: Cache, order: seq<ExKey>, k: ExKey, now: int, lease: ExKey -> Lease, d: Cache)
    requires ExPass(c, order, now, lease, d) && k !in order
    ensures
      var (e, again) := ReapExOne(d, k, now, lease(k));
      && e.staleEx == (if StaysListed(c, order, k, now, lease) then d.staleEx else d.staleEx - {k})
      && (again <==> StaysListed(c, order, k, now, lease) || CheckThrew(c, k, lease))
  {
    assert k in d.ex <==> k in c.ex;
    assert IsActive(d.active, k) <==> ActiveWhen(c, order, k, lease);
  }

  lemma ListsOneMore(c: Cache, order: seq<ExKey>, k: ExKey, now: int, lease: ExKey -> Lease, d: Cache, e: Cache)
    requires ExListPass(c, order, now, lease, d) && k !in order
    requires e.staleEx == if StaysListed(c, order, k, now, lease) then d.staleEx else d.staleEx - {k}
    ensures ExListPass(c, order + [k], now, lease, e)
  {
    var more := order + [k];
    assert forall x :: x in more <==> x in order || x == k;
    forall i | 0 <= i < |more|
      ensures more[i] in e.staleEx <==> more[i] in c.staleEx && StaysListed(c, more[..i], more[i], now, lease)
    {
      if i < |order| { assert more[..i] == order[..i] && order[i] in order; } else { assert more[..i] == order; }
    }
  }

  lemma RetryOneMore(c: Cache, order: seq<ExKey>, k: ExKey, now: int, lease: ExKey -> Lease)
    ensures ExRetry(c, order + [k], now, lease) <==>
              ExRetry(c, order, now, lease) || StaysListed(c, order, k, now, lease) || CheckThrew(c, k, lease)
  {
    var more := order + [k];
    assert more[..|order|] == order && more[|order|] == k;
    assert forall i :: 0 <= i < |order| ==> more[..i] == order[..i] && more[i] == order[i];
    if ExRetry(c, order, now, lease) {
      var i :| 0 <= i < |order| && (StaysListed(c, order[..i], order[i], now, lease) || CheckThrew(c, order[i], lease));
      assert StaysListed(c, more[..i], more[i], now, lease) || CheckThrew(c, more[i], lease);
    }
  }

  lemma ExPassOneMore(c: Cache, order: seq<ExKey>, k: ExKey, now: int, lease: ExKey -> Lease, d: Cache)
    requires ExPass(c, order, now, lease, d) && k !in order
    ensures ExPass(c, order + [k], now, lease, ReapExOne(d, k, now, lease(k)).0)
  {
    var e := ReapExOne(d, k, now, lease(k)).0;
    assert k in d.ex <==> k in c.ex;
    if k in c.ex {
      VisitIsFate(d, k, now, lease(k));
      assert IsActive(d.active, k) <==> ActiveWhen(c, order, k, lease);
    }
    FatesOneMore(c, order, k, now, lease, d.ex, e.ex);
    ActiveOneMore(c, order, k, lease, d.active, e.active);
  }

  lemma {:induction false} ReapExDoes(c: Cache, order: seq<ExKey>, now: int, lease: ExKey -> Lease)
    requires Distinct(order)
    ensures
      var (d, retry) := ReapEx(c, order, now, lease);
      ExPass(c, order, now, lease, d) && ExListPass(c, order, now, lease, d) && (retry <==> ExRetry(c, order, now, lease))
  {
    if order != [] {
      var n := |order| - 1;
      ReapExDoes(c, order[..n], now, lease);
      var d := ReapEx(c, order[..n], now, lease).0;
      assert order[n] !in order[..n];
      ExPassOneMore(c, order[..n], order[n], now, lease, d);
      VisitLists(c, order[..n], order[n], now, lease, d);
      ListsOneMore(c, order[..n], order[n], now, lease, d, ReapExOne(d, order[n], now, lease(order[n])).0);
      RetryOneMore(c, order[..n], order[n], now, lease);
      assert order[..n] + [order[n]] == order;
    }
  }

  lemma OpPassKeeps(c: Cache, order: seq<RepoId>, now: int, lease: RepoId -> Lease, d: Cache, retry: bool)
    requires OpPass(c, order, now, lease, d) && OpListPass(c, order, lease, d, retry)
    ensures Quiet(c.op, d.op) && (StaleListed(c) ==> StaleListed(d))
  {
  }

  lemma ExPassKeeps(c: Cache, order: seq<ExKey>, now: int, lease: ExKey -> Lease, d: Cache)
    requires ExPass(c, order, now, lease, d) && ExListPass(c, order, now, lease, d)
    ensures Quiet(c.ex, d.ex) && (StaleListed(c) ==> StaleListed(d))
  {
    forall k | k in c.ex ensures
      && (c.ex[k].build.Some? ==> k in d.ex)
      && (k in d.ex ==> d.ex[k] == c.ex[k] || (d.ex[k] == Unmarked(c.ex[k])))
      && (k in d.ex && d.ex[k].stale && k in c.staleEx ==> k in d.staleEx)
    {
      if k in order {
        var i :| 0 <= i < |order| && order[i] == k;
        assert Meets(d.ex, order[i], ExFate(c.ex[order[i]], now, lease(order[i]), ActiveWhen(c, order[..i], order[i], lease)));
      }
    }
  }

  lemma ReapKeeps(c: Cache, now: int, opOrder: seq<RepoId>, exOrder: seq<ExKey>, opLease: RepoId -> Lease, exLease: ExKey -> Lease)
    requires Lists(opOrder, c.staleOp) && Lists(exOrder, c.staleEx)
    ensures Kept(c, Reap(c, now, opOrder, exOrder, opLease, exLease))
  {
    var c0 := c.(reapScheduled := false);
    ReapOpDoes(c0, opOrder, now, opLease);
    var (d, retry1) := ReapOp(c0, opOrder, now, opLease);
    OpPassKeeps(c0, opOrder, now, opLease, d, retry1);
    ReapExDoes(d, exOrder, now, exLease);
    var (e, retry2) := ReapEx(d, exOrder, now, exLease);
    ExPassKeeps(d, exOrder, now, exLease, e);
    LeftMeansRetry(d, exOrder, now, exLease, e);
    forall k | k in opOrder && k in e.staleOp ensures retry1 {}
    ListEmpties(c.staleOp, opOrder, e.staleOp, retry1);
    ListEmpties(c.staleEx, exOrder, e.staleEx, retry2);
  }

  lemma LeftMeansRetry(c: Cache, order: seq<ExKey>, now: int, lease: ExKey -> Lease, d: Cache)
    requires ExListPass(c, order, now, lease, d)
    ensures forall k :: k in order && k in d.staleEx ==> ExRetry(c, order, now, lease)
    ensures d.staleEx <= c.staleEx
  {
    forall k | k in d.staleEx ensures k in c.staleEx && (k in order ==> ExRetry(c, order, now, lease)) {
      if k in order {
        var i :| 0 <= i < |order| && order[i] == k;
        assert StaysListed(c, order[..i], order[i], now, lease);
      }
    }
  }

  /** If no reap is to come, nothing is left in the list. */
  lemma ListEmpties<K>(was: set<K>, order: seq<K>, now: set<K>, retry: bool)
    requires Lists(order, was) && now <= was && forall k :: k in order && k in now ==> retry
    ensures !retry ==> now == {}
  {
    if now != {} {
      var k :| k in now;
      assert k in Elements(order);
    }
  }

  // ---------------------------------------------------------------- every interleaving

  lemma KeptLinks(s: State, d: Cache)
    requires Inv(s) && Kept(s.cache, d)
    ensures Inv(s.(cache := d))
  {
  }

  lemma NewOpBuild(op: map<RepoId, Entry>, ex: map<ExKey, Entry>, builds: map<nat, Build>, r: RepoId, b: nat)
    requires OpLinked(op, builds) && ExLinked(ex, builds) && b !in builds && r !in op
    ensures OpLinked(op[r := Placeholder.(build := Some(b))], builds[b := OpBuild(r)])
    ensures ExLinked(ex, builds[b := OpBuild(r)])
  {
  }

  lemma NewWaiter(calls: Calls, builds: map<nat, Build>, build: Build, b: nat, call: nat)
    requires CallsLinked(calls, builds) && (b !in builds || builds[b] == build)
    ensures build.OpBuild? && call !in calls.results ==>
              CallsLinked(calls.(waiting := calls.waiting[call := b]), builds[b := build])
    ensures build.ExBuild? && call !in calls.starting && call !in calls.exResults ==>
              CallsLinked(calls.(exWaiting := calls.exWaiting[call := b]), builds[b := build])
  {
  }

  lemma StartOpKeeps(s: State, r: RepoId, call: nat)
    requires Inv(s) && r !in s.cache.op && call !in s.calls.results
    ensures Inv(StartOp(s, r, call))
  {
    assert s.nextBuild !in s.builds;
    NewOpBuild(s.cache.op, s.cache.ex, s.builds, r, s.nextBuild);
    NewWaiter(s.calls, s.builds, OpBuild(r), s.nextBuild, call);
  }

  lemma ServeKeeps(s: State, runtime: Option<RuntimeId>, call: nat)
    requires Inv(s) && call !in s.calls.waiting
    ensures Inv(Serve(s, runtime, call))
  {
  }

  lemma OperationalKeeps(s: State, r: RepoId, call: nat)
    requires Inv(s) && call !in s.calls.waiting && call !in s.calls.results
    ensures Inv(Operational(s, r, call))
  {
    if r !in s.cache.op { StartOpKeeps(s, r, call); }
    else if s.cache.op[r].build.None? {
      UnmarkOpKeeps(s.cache, r);
      KeptLinks(s, UnmarkOp(s.cache, r));
      ServeKeeps(s.(cache := UnmarkOp(s.cache, r)), s.cache.op[r].runtime, call);
    } else {
      NewWaiter(s.calls, s.builds, OpBuild(r), s.cache.op[r].build.value, call);
      assert s.builds[s.cache.op[r].build.value := OpBuild(r)] == s.builds;
    }
  }

  lemma OperationalCalls(s: State, r: RepoId, call: nat)
    ensures
      var t := Operational(s, r, call);
      && t.cache == s.cache.(op := t.cache.op, staleOp := t.cache.staleOp)
      && t.calls == s.calls.(waiting := t.calls.waiting, results := t.calls.results)
      && (forall c :: c in s.calls.waiting && c != call ==> c in t.calls.waiting && t.calls.waiting[c] == s.calls.waiting[c])
  {
  }

  lemma RuntimeKeeps(s: State, k: ExKey, now: int, call: nat)
    requires Inv(s) && Unused(s.calls, call)
    ensures Inv(Runtime(s, k, now, call))
  {
    var c := SwitchActive(s.cache, k, now);
    SwitchKeeps(s.cache, k, now);
    KeptLinks(s, c);
    if k !in s.cache.ex {
      OperationalKeeps(s.(cache := c), k.repo, call);
      OperationalCalls(s.(cache := c), k.repo, call);
    } else if s.cache.ex[k].build.None? {
      UnmarkExKeeps(c, k);
      KeptLinks(s.(cache := c), UnmarkEx(c, k));
    }
  }

  lemma StartExKeeps(s: State, k: ExKey, call: nat)
    requires Inv(s) && call !in s.calls.starting && call !in s.calls.exResults
    ensures Inv(StartEx(s, k, call))
  {
    assert s.nextBuild !in s.builds;
    NewWaiter(s.calls, s.builds, ExBuild(k), s.nextBuild, call);
  }

  lemma ContinueKeeps(s: State, call: nat, operational: Outcome)
    requires Inv(s) && call in s.calls.starting
    ensures Inv(Continue(s, call, operational))
  {
    var t := s.(calls := s.calls.(starting := s.calls.starting - {call}));
    assert Inv(t);
    if operational.Ready? { StartExKeeps(t, s.calls.starting[call], call); }
  }

  lemma AnswerKeeps(calls: Calls, builds: map<nat, Build>, b: nat, outcome: Outcome)
    requires CallsLinked(calls, builds)
    ensures CallsLinked(Answer(calls, b, outcome), builds - {b})
  {
  }

  lemma SettleOpKeeps(s: State, b: nat, outcome: Outcome)
    requires Inv(s) && b in s.builds && s.builds[b].OpBuild?
    ensures Inv(SettleOp(s, s.builds[b].repo, b, outcome))
  {
    AnswerKeeps(s.calls, s.builds, b, outcome);
  }

  lemma SettleExKeeps(s: State, b: nat, outcome: Outcome)
    requires Inv(s) && b in s.builds && s.builds[b].ExBuild?
    ensures Inv(SettleEx(s, s.builds[b].key, b, outcome))
  {
    AnswerKeeps(s.calls, s.builds, b, outcome);
  }

  predicate IsHook(e: Event) { e.LeaseReleased? || e.LeaseAcquired? || e.ReapFires? }

  /** The lease hooks and the reaper touch no build and no call. */
  lemma HooksKeep(s: State, e: Event)
    requires IsHook(e)
    ensures Step(s, e) == s.(cache := Step(s, e).cache) && Kept(s.cache, Step(s, e).cache)
  {
    if Enabled(s, e) {
      match e
      case LeaseReleased(r, now, exLease, opLease) => ReleasedKeeps(s.cache, r, now, exLease, opLease);
      case LeaseAcquired(r) => AcquiredKeeps(s.cache, r);
      case ReapFires(now, opOrder, exOrder, opLeases, exLeases) => ReapKeeps(s.cache, now, opOrder, exOrder, opLeases, exLeases);
    }
  }

  lemma SettleKeeps(s: State, b: nat, outcome: Outcome)
    requires Inv(s) && b in s.builds
    ensures Inv(Step(s, BuildSettles(b, outcome)))
  {
    if s.builds[b].OpBuild? { SettleOpKeeps(s, b, outcome); } else { SettleExKeeps(s, b, outcome); }
  }

  lemma StepKeeps(s: State, e: Event)
    requires Inv(s)
    ensures Inv(Step(s, e))
  {
    if Enabled(s, e) {
      match e
      case GetOperational(r, c) => OperationalKeeps(s, r, c);
      case GetRuntime(k, now, c) => RuntimeKeeps(s, k, now, c);
      case Continues(c) => ContinueKeeps(s, c, s.calls.results[c]);
      case BuildSettles(b, outcome) => SettleKeeps(s, b, outcome);
      case _ => HooksKeep(s, e); KeptLinks(s, Step(s, e).cache);
    }
  }

  lemma {:induction false} RunKeeps(s: State, es: seq<Event>)
    requires Inv(s)
    ensures Inv(Run(s, es))
  {
    if es != [] {
      RunKeeps(s, es[..|es| - 1]);
      StepKeeps(Run(s, es[..|es| - 1]), es[|es| - 1]);
    }
  }

  /** In every reachable state a stale entry is listed and a listed key has a reap coming. */
  lemma StaleTheorem(es: seq<Event>)
    ensures StaleListed(Run(Initial, es).cache) && ReapComing(Run(Initial, es).cache)
  {
    RunKeeps(Initial, es);
  }

  /** Both passes of a reap together. */
  lemma ReapFates(c: Cache, now: int, opOrder: seq<RepoId>, exOrder: seq<ExKey>, opLease: RepoId -> Lease, exLease: ExKey -> Lease)
    requires Lists(opOrder, c.staleOp) && Lists(exOrder, c.staleEx)
    ensures forall k :: k in opOrder <==> k in c.staleOp
    ensures forall k :: k in exOrder <==> k in c.staleEx
    ensures
      var d := Reap(c, now, opOrder, exOrder, opLease, exLease);
      && OpPass(c, opOrder, now, opLease, c.(op := d.op, staleOp := d.staleOp))
      && (forall k :: k in d.staleOp <==> k in c.staleOp && k in d.op)
      && ExEntriesPass(c, exOrder, now, exLease, d.ex) && ActivePass(c, exOrder, exLease, d.active)
      && ExListPass(c, exOrder, now, exLease, d)
      && (d.reapScheduled <==>
            || (exists k :: k in opOrder && k in c.op && (k in d.op || (c.op[k].build.None? && opLease(k) == Throws)))
            || ExRetry(c, exOrder, now, exLease))
  {
    var c0 := c.(reapScheduled := false);
    ReapOpDoes(c0, opOrder, now, opLease);
    var d := ReapOp(c0, opOrder, now, opLease).0;
    ReapExDoes(d, exOrder, now, exLease);
    ListedAre(opOrder, c.staleOp);
    ListedAre(exOrder, c.staleEx);
    SameExecution(c, d, exOrder, now, exLease);
  }

  lemma ListedAre<K>(order: seq<K>, s: set<K>)
    requires Lists(order, s)
    ensures forall k :: k in order <==> k in s
  {
    forall k ensures k in order <==> k in s { assert k in order <==> k in Elements(order); }
  }

  /** The execution pass looks at nothing the operational one changes. */
  lemma SameExecution(c: Cache, d: Cache, order: seq<ExKey>, now: int, lease: ExKey -> Lease)
    requires d.ex == c.ex && d.active == c.active && d.staleEx == c.staleEx
    ensures forall e :: ExEntriesPass(d, order, now, lease, e) <==> ExEntriesPass(c, order, now, lease, e)
    ensures forall e :: ExListPass(d, order, now, lease, e) <==> ExListPass(c, order, now, lease, e)
    ensures ExRetry(d, order, now, lease) <==> ExRetry(c, order, now, lease)
  {
    assert forall i :: 0 <= i < |order| ==> ActiveWhen(d, order[..i], order[i], lease) == ActiveWhen(c, order[..i], order[i], lease);
    assert forall i :: 0 <= i < |order| ==> StaysListed(d, order[..i], order[i], now, lease) == StaysListed(c, order[..i], order[i], now, lease);
    assert forall k :: CheckThrew(d, k, lease) == CheckThrew(c, k, lease);
  }

  /**
   A reap removes exactly the listed operational entries that nobody builds and that are free or ten
   minutes stale, and it leaves listed exactly the entries that stay.
   */
  lemma ReapTheorem(c: Cache, now: int, opOrder: seq<RepoId>, exOrder: seq<ExKey>, opLease: RepoId -> Lease, exLease: ExKey -> Lease, k: RepoId)
    requires Lists(opOrder, c.staleOp) && Lists(exOrder, c.staleEx)
    ensures
      var d := Reap(c, now, opOrder, exOrder, opLease, exLease);
      && (k in d.op <==>
            && k in c.op
            && !(&& k in c.staleOp && c.op[k].build.None?
                 && (opLease(k) == Free || (c.op[k].staleAt.Some? && now - c.op[k].staleAt.value >= 600_000))))
      && (k in d.op ==> d.op[k] == c.op[k])
      && (k in d.staleOp <==> k in c.staleOp && k in d.op)
  {
    ReapFates(c, now, opOrder, exOrder, opLease, exLease);
  }

  /**
   An execution entry that a reap visits stays while it is built, goes when its lease is free, is unmarked
   under a lease while its fingerprint is active, and otherwise goes after ten minutes. Active is meant at
   the moment of the visit, when the active entry of the repository may have gone before it.
   */
  lemma ReapExecutionTheorem(c: Cache, now: int, opOrder: seq<RepoId>, exOrder: seq<ExKey>, opLease: RepoId -> Lease, exLease: ExKey -> Lease, i: nat)
    requires Lists(opOrder, c.staleOp) && Lists(exOrder, c.staleEx) && i < |exOrder| && exOrder[i] in c.ex
    ensures
      var d := Reap(c, now, opOrder, exOrder, opLease, exLease);
      var k := exOrder[i];
      var e := c.ex[k];
      var active :=
        k.repo in c.active && c.active[k.repo] != k.fingerprint ==>
          var other := ExKey(k.repo, c.active[k.repo]);
          other in exOrder[..i] && other in c.ex && c.ex[other].build.None? && exLease(other) == Free;
      var aged := e.staleAt.Some? && now - e.staleAt.value >= 600_000;
      && (e.build.Some? ==> k in d.ex && d.ex[k] == e && k in d.staleEx)
      && (e.build.None? && exLease(k) == Free ==> k !in d.ex && k !in d.staleEx)
      && (e.build.None? && exLease(k) != Free && active ==> k in d.ex && d.ex[k] == e.(stale := false, staleAt := None) && k !in d.staleEx)
      && (e.build.None? && exLease(k) != Free && !active && aged ==> k !in d.ex && k !in d.staleEx)
      && (e.build.None? && exLease(k) != Free && !active && !aged ==> k in d.ex && d.ex[k] == e && k in d.staleEx)
  {
    ReapFates(c, now, opOrder, exOrder, opLease, exLease);
    var k := exOrder[i];
    assert Meets(Reap(c, now, opOrder, exOrder, opLease, exLease).ex, exOrder[i],
                 ExFate(c.ex[exOrder[i]], now, exLease(exOrder[i]), ActiveWhen(c, exOrder[..i], exOrder[i], exLease)));
    assert k in exOrder;
  }

  /**
   Nothing else in the execution cache changes: unlisted entries stay, and a repository stops having an active
   fingerprint exactly when the entry of that fingerprint goes because it is free.
   */
  lemma ReapLeavesTheRest(c: Cache, now: int, opOrder: seq<RepoId>, exOrder: seq<ExKey>, opLease: RepoId -> Lease, exLease: ExKey -> Lease)
    requires Lists(opOrder, c.staleOp) && Lists(exOrder, c.staleEx)
    ensures
      var d := Reap(c, now, opOrder, exOrder, opLease, exLease);
      && (forall k :: k in c.ex && k !in c.staleEx ==> k in d.ex && d.ex[k] == c.ex[k])
      && (forall k :: k in d.ex ==> k in c.ex)
      && (forall k :: k in d.staleEx ==> k in c.staleEx && k in c.ex)
      && (forall r :: r in d.active ==> r in c.active && d.active[r] == c.active[r])
      && (forall r :: r in c.active ==>
            var k := ExKey(r, c.active[r]);
            (r !in d.active <==> k in c.staleEx && k in c.ex && c.ex[k].build.None? && exLease(k) == Free))
  {
    ReapFates(c, now, opOrder, exOrder, opLease, exLease);
    var d := Reap(c, now, opOrder, exOrder, opLease, exLease);
    forall k | k in d.staleEx ensures k in c.staleEx && k in c.ex {
      if k in exOrder {
        var i :| 0 <= i < |exOrder| && exOrder[i] == k;
        assert StaysListed(c, exOrder[..i], exOrder[i], now, exLease);
      }
    }
  }

  /** A reap is followed by another exactly when a key is left in a list or a lease check threw. */
  lemma ReapComesBack(c: Cache, now: int, opOrder: seq<RepoId>, exOrder: seq<ExKey>, opLease: RepoId -> Lease, exLease: ExKey -> Lease)
    requires Lists(opOrder, c.staleOp) && Lists(exOrder, c.staleEx)
    ensures
      var d := Reap(c, now, opOrder, exOrder, opLease, exLease);
      d.reapScheduled <==>
        || d.staleOp != {} || d.staleEx != {}
        || (exists k :: k in c.staleOp && k in c.op && c.op[k].build.None? && opLease(k) == Throws)
        || (exists k :: k in c.staleEx && k in c.ex && c.ex[k].build.None? && exLease(k) == Throws)
  {
    ReapFates(c, now, opOrder, exOrder, opLease, exLease);
    var d := Reap(c, now, opOrder, exOrder, opLease, exLease);
    assert d.staleOp != {} <==> exists k :: k in opOrder && k in c.op && k in d.op;
    RetryMeans(c, exOrder, now, exLease, d);
  }

  lemma RetryMeans(c: Cache, order: seq<ExKey>, now: int, lease: ExKey -> Lease, d: Cache)
    requires ExListPass(c, order, now, lease, d) && forall k :: k in order <==> k in c.staleEx
    ensures ExRetry(c, order, now, lease) <==>
              d.staleEx != {} || exists k :: k in c.staleEx && k in c.ex && c.ex[k].build.None? && lease(k) == Throws
  {
    LeftMeansRetry(c, order, now, lease, d);
    if d.staleEx != {} {
      var k :| k in d.staleEx;
      assert k in order;
    }
    if ExRetry(c, order, now, lease) {
      var i :| 0 <= i < |order| && (StaysListed(c, order[..i], order[i], now, lease) || CheckThrew(c, order[i], lease));
      assert order[i] in order;
    }
    if k :| k in c.staleEx && CheckThrew(c, k, lease) {
      assert k in order;
      var i :| 0 <= i < |order| && order[i] == k;
      assert CheckThrew(c, order[i], lease);
    }
    forall k | k in c.staleEx && k in c.ex && c.ex[k].build.None? && lease(k) == Throws ensures CheckThrew(c, k, lease) {}
  }

  /** So a reap evicts only what nobody builds and is free of a lease or ten minutes stale. */
  lemma ReapEvictsOnly(c: Cache, now: int, opOrder: seq<RepoId>, exOrder: seq<ExKey>, opLease: RepoId -> Lease, exLease: ExKey -> Lease, k: ExKey)
    requires Lists(opOrder, c.staleOp) && Lists(exOrder, c.staleEx) && k in c.ex
    requires k !in Reap(c, now, opOrder, exOrder, opLease, exLease).ex
    ensures k in c.staleEx && c.ex[k].build.None?
    ensures exLease(k) == Free || (c.ex[k].staleAt.Some? && now - c.ex[k].staleAt.value >= 600_000)
  {
    ReapLeavesTheRest(c, now, opOrder, exOrder, opLease, exLease);
    assert k in Elements(exOrder);
    var i :| 0 <= i < |exOrder| && exOrder[i] == k;
    ReapExecutionTheorem(c, now, opOrder, exOrder, opLease, exLease, i);
  }

  // ---------------------------------------------------------------- single flight

  /** Each repository has at most one operational build in progress. */
  lemma SingleBuild(es: seq<Event>, b: nat, c: nat, r: RepoId)
    requires
      var s := Run(Initial, es);
      b in s.builds && c in s.builds && s.builds[b] == OpBuild(r) && s.builds[c] == OpBuild(r)
    ensures b == c
  {
    RunKeeps(Initial, es);
  }

  /** A call that arrives while the repository is being built joins that build and starts none. */
  lemma OverlapJoins(es: seq<Event>, r: RepoId, call: nat, b: nat)
    requires
      var s := Run(Initial, es);
      b in s.builds && s.builds[b] == OpBuild(r) && Enabled(s, GetOperational(r, call))
    ensures
      var s, t := Run(Initial, es), Step(Run(Initial, es), GetOperational(r, call));
      t == s.(calls := s.calls.(waiting := s.calls.waiting[call := b]))
  {
    RunKeeps(Initial, es);
  }

  /** A failed operational build removes the entry it created and no other. */
  lemma FailureRemovesOwnEntry(es: seq<Event>, b: nat, r: RepoId)
    requires
      var s := Run(Initial, es);
      b in s.builds && s.builds[b] == OpBuild(r)
    ensures
      var s, t := Run(Initial, es), Step(Run(Initial, es), BuildSettles(b, Failed));
      r in s.cache.op && s.cache.op[r].build == Some(b) && t.cache == s.cache.(op := s.cache.op - {r})
  {
    RunKeeps(Initial, es);
  }

  // ---------------------------------------------------------------- waiting calls

  /** The call waits for build b, on the operational or on the execution side. */
  ghost predicate WaitsFor(calls: Calls, call: nat, b: nat, execution: bool) {
    if execution then call in calls.exWaiting && calls.exWaiting[call] == b
    else call in calls.waiting && calls.waiting[call] == b
  }

  ghost predicate Received(calls: Calls, call: nat, outcome: Outcome, execution: bool) {
    if execution then call in calls.exResults && calls.exResults[call] == outcome
    else call in calls.results && calls.results[call] == outcome
  }

  lemma AnswerReaches(calls: Calls, b: nat, outcome: Outcome, call: nat, a: nat, execution: bool)
    requires WaitsFor(calls, call, a, execution)
    ensures if a == b then Received(Answer(calls, b, outcome), call, outcome, execution)
            else WaitsFor(Answer(calls, b, outcome), call, a, execution)
  {
  }

  lemma RuntimeKeepsWaiter(s: State, k: ExKey, now: int, c: nat, call: nat, b: nat, execution: bool)
    requires WaitsFor(s.calls, call, b, execution) && c != call
    ensures WaitsFor(Runtime(s, k, now, c).calls, call, b, execution)
  {
    if k !in s.cache.ex { OperationalCalls(s.(cache := SwitchActive(s.cache, k, now)), k.repo, c); }
  }

  lemma StepKeepsWaiter(s: State, e: Event, call: nat, b: nat, execution: bool)
    requires Inv(s) && WaitsFor(s.calls, call, b, execution)
    ensures if e.BuildSettles? && e.build == b && Enabled(s, e) then Received(Step(s, e).calls, call, e.outcome, execution)
            else WaitsFor(Step(s, e).calls, call, b, execution)
  {
    if Enabled(s, e) {
      match e
      case GetOperational(r, c) => OperationalCalls(s, r, c);
      case GetRuntime(k, now, c) => RuntimeKeepsWaiter(s, k, now, c, call, b, execution);
      case Continues(c) =>
      case BuildSettles(x, outcome) => AnswerReaches(s.calls, x, outcome, call, b, execution);
      case _ => HooksKeep(s, e);
    }
  }

  /** Whoever waits for a build, of either kind, keeps waiting for it and receives exactly its outcome. */
  lemma {:induction false} WaiterGetsItsBuild(s: State, es: seq<Event>, call: nat, b: nat, outcome: Outcome, execution: bool)
    requires Inv(s) && WaitsFor(s.calls, call, b, execution)
    requires forall i :: 0 <= i < |es| ==> !(es[i].BuildSettles? && es[i].build == b)
    ensures WaitsFor(Run(s, es).calls, call, b, execution) && b in Run(s, es).builds
    ensures Received(Step(Run(s, es), BuildSettles(b, outcome)).calls, call, outcome, execution)
  {
    if es != [] {
      var n := |es| - 1;
      WaiterGetsItsBuild(s, es[..n], call, b, outcome, execution);
      RunKeeps(s, es[..n]);
      StepKeepsWaiter(Run(s, es[..n]), es[n], call, b, execution);
    }
    RunKeeps(s, es);
    StepKeepsWaiter(Run(s, es), BuildSettles(b, outcome), call, b, execution);
  }

  /** A getRuntime call that finds its key cached or being built is served from it at once. */
  lemma ExecutionOverlapJoins(s: State, k: ExKey, now: int, call: nat)
    requires Inv(s) && k in s.cache.ex && Enabled(s, GetRuntime(k, now, call))
    ensures
      var t := Step(s, GetRuntime(k, now, call));
      && t.builds == s.builds
      && match s.cache.ex[k].build
         case Some(b) => s.builds[b] == ExBuild(k) && WaitsFor(t.calls, call, b, true)
         case None => Received(t.calls, call, Ready(s.cache.ex[k].runtime.value), true)
  {
  }

  // ---------------------------------------------------------------- what the cache serves

  /** The entry that a build fills. */
  function EntryOf(c: Cache, what: Build): Option<Entry> {
    match what
    case OpBuild(r) => if r in c.op then Some(c.op[r]) else None
    case ExBuild(k) => if k in c.ex then Some(c.ex[k]) else None
  }

  /** The event ends a build of this kind and key with the runtime, while the build owns the entry. */
  ghost predicate Completes(s: State, e: Event, what: Build, x: RuntimeId) {
    && e.BuildSettles? && e.outcome == Ready(x) && e.build in s.builds && s.builds[e.build] == what
    && EntryOf(s.cache, what).Some? && EntryOf(s.cache, what).value.build == Some(e.build)
  }

  /** An entry that nobody builds was completed just now, or was there before with the same runtime. */
  ghost predicate Inherited(s: State, e: Event, what: Build, entry: Entry) {
    || (exists x: RuntimeId :: Completes(s, e, what, x) && entry.runtime == Some(x))
    || (EntryOf(s.cache, what).Some? && EntryOf(s.cache, what).value.build.None? && EntryOf(s.cache, what).value.runtime == entry.runtime)
  }

  lemma QuietInherits(c: Cache, d: Cache, what: Build)
    requires Quiet(c.op, d.op) && Quiet(c.ex, d.ex) && EntryOf(d, what).Some?
    ensures
      var was, now := EntryOf(c, what), EntryOf(d, what).value;
      was.Some? && was.value.build == now.build && was.value.runtime == now.runtime
  {
  }

  lemma OperationalInherits(s: State, r: RepoId, call: nat, what: Build)
    requires
      var now := EntryOf(Operational(s, r, call).cache, what);
      now.Some? && now.value.build.None?
    ensures
      var was, now := EntryOf(s.cache, what), EntryOf(Operational(s, r, call).cache, what).value;
      was.Some? && was.value.build.None? && was.value.runtime == now.runtime
  {
    if r in s.cache.op && s.cache.op[r].build.None? {
      UnmarkOpKeeps(s.cache, r);
      QuietInherits(s.cache, UnmarkOp(s.cache, r), what);
    }
  }

  lemma RuntimeInherits(s: State, k: ExKey, now: int, call: nat, what: Build)
    requires
      var after := EntryOf(Runtime(s, k, now, call).cache, what);
      after.Some? && after.value.build.None?
    ensures
      var was, after := EntryOf(s.cache, what), EntryOf(Runtime(s, k, now, call).cache, what).value;
      was.Some? && was.value.build.None? && was.value.runtime == after.runtime
  {
    var c := SwitchActive(s.cache, k, now);
    SwitchKeeps(s.cache, k, now);
    if k !in s.cache.ex {
      OperationalInherits(s.(cache := c), k.repo, call, what);
      QuietInherits(s.cache, c, what);
    } else if s.cache.ex[k].build.None? {
      UnmarkExKeeps(c, k);
      QuietInherits(c, UnmarkEx(c, k), what);
      QuietInherits(s.cache, c, what);
    }
  }

  lemma SettleInherits(s: State, b: nat, outcome: Outcome, what: Build)
    requires b in s.builds
    requires
      var now := EntryOf(Step(s, BuildSettles(b, outcome)).cache, what);
      now.Some? && now.value.build.None?
    ensures Inherited(s, BuildSettles(b, outcome), what, EntryOf(Step(s, BuildSettles(b, outcome)).cache, what).value)
  {
    if outcome.Ready? {
      var e := BuildSettles(b, outcome);
      assert s.builds[b] == what && EntryOf(s.cache, what).Some? && EntryOf(s.cache, what).value.build == Some(b) ==>
          Completes(s, e, what, outcome.runtime);
    }
  }

  lemma StepInherits(s: State, e: Event, what: Build)
    requires EntryOf(Step(s, e).cache, what).Some? && EntryOf(Step(s, e).cache, what).value.build.None?
    ensures Inherited(s, e, what, EntryOf(Step(s, e).cache, what).value)
  {
    if Enabled(s, e) {
      match e
      case GetOperational(r, c) => OperationalInherits(s, r, c, what);
      case GetRuntime(k, now, c) => RuntimeInherits(s, k, now, c, what);
      case Continues(c) =>
      case BuildSettles(b, outcome) => SettleInherits(s, b, outcome, what);
      case _ =>
        HooksKeep(s, e);
        QuietInherits(s.cache, Step(s, e).cache, what);
    }
  }

  /** Event n of the run is the last that completed a build of this kind and key, and its runtime is x. */
  ghost predicate LastCompleted(es: seq<Event>, n: nat, what: Build, x: RuntimeId) {
    && n < |es| && Completes(Run(Initial, es[..n]), es[n], what, x)
    && forall m: nat, y: RuntimeId {:trigger Completes(Run(Initial, es[..m]), es[m], what, y)} ::
         n < m < |es| ==> !Completes(Run(Initial, es[..m]), es[m], what, y)
  }

  lemma LastStays(es: seq<Event>, e: Event, n: nat, what: Build, x: RuntimeId)
    requires LastCompleted(es, n, what, x) && forall y: RuntimeId :: !Completes(Run(Initial, es), e, what, y)
    ensures LastCompleted(es + [e], n, what, x)
  {
    var more := es + [e];
    assert more[..|es|] == es && forall m :: 0 <= m < |es| ==> more[..m] == es[..m];
    forall m: nat, y: RuntimeId | n < m < |more| ensures !Completes(Run(Initial, more[..m]), more[m], what, y) {
      if m < |es| { assert more[m] == es[m] && more[..m] == es[..m]; } else { assert more[..m] == es && more[m] == e; }
    }
    assert more[..n] == es[..n] && more[n] == es[n];
  }

  /**
   In every reachable state: an entry that nobody builds holds the runtime of the last build of its key
   that ended well while it owned the entry. This is the operational and the execution cache alike.
   */
  lemma {:induction false} CachedIsLastBuilt(es: seq<Event>, what: Build)
    requires
      var entry := EntryOf(Run(Initial, es).cache, what);
      entry.Some? && entry.value.build.None?
    ensures exists n: nat, x: RuntimeId :: LastCompleted(es, n, what, x) && EntryOf(Run(Initial, es).cache, what).value.runtime == Some(x)
  {
    if es != [] {
      var n := |es| - 1;
      var s, e := Run(Initial, es[..n]), es[n];
      StepInherits(s, e, what);
      var entry := EntryOf(Run(Initial, es).cache, what).value;
      if x: RuntimeId :| Completes(s, e, what, x) && entry.runtime == Some(x) {
        assert LastCompleted(es, n, what, x);
      } else {
        CachedIsLastBuilt(es[..n], what);
        var m: nat, x: RuntimeId :| LastCompleted(es[..n], m, what, x) && EntryOf(s.cache, what).value.runtime == Some(x);
        LastStays(es[..n], e, m, what, x);
        assert es[..n] + [e] == es;
      }
    }
  }

  /** So whoever is served from a cache receives the runtime last built for its repository or key. */
  lemma ServedIsLastBuilt(es: seq<Event>, what: Build, now: int, call: nat)
    requires
      var s := Run(Initial, es);
      Unused(s.calls, call) && EntryOf(s.cache, what).Some? && EntryOf(s.cache, what).value.build.None?
    ensures
      var s := Run(Initial, es);
      exists n: nat, x: RuntimeId :: LastCompleted(es, n, what, x) &&
        match what
        case OpBuild(r) => Received(Step(s, GetOperational(r, call)).calls, call, Ready(x), false)
        case ExBuild(k) => Received(Step(s, GetRuntime(k, now, call)).calls, call, Ready(x), true)
  {
    CachedIsLastBuilt(es, what);
  }

  /** A repository that is not cached gets one new build, and the caller waits for it. */
  lemma AbsentStartsBuild(s: State, r: RepoId, call: nat)
    requires Enabled(s, GetOperational(r, call)) && r !in s.cache.op
    ensures
      var t := Step(s, GetOperational(r, call));
      && t.nextBuild == s.nextBuild + 1 && t.builds == s.builds[s.nextBuild := OpBuild(r)]
      && WaitsFor(t.calls, call, s.nextBuild, false) && t.calls.results == s.calls.results
      && t.cache == s.cache.(op := t.cache.op) && t.cache.op.Keys == s.cache.op.Keys + {r}
      && t.cache.op[r].build == Some(s.nextBuild) && !t.cache.op[r].stale && t.cache.op[r].runtime.None?
      && forall k :: k in s.cache.op ==> t.cache.op[k] == s.cache.op[k]
  {
  }

  /** A cached repository is unmarked when it is served. */
  lemma ServingUnmarks(s: State, r: RepoId, call: nat)
    requires Inv(s) && Enabled(s, GetOperational(r, call)) && r in s.cache.op && s.cache.op[r].build.None?
    ensures
      var t := Step(s, GetOperational(r, call));
      && Received(t.calls, call, Ready(s.cache.op[r].runtime.value), false) && t.builds == s.builds
      && r in t.cache.op && !t.cache.op[r].stale && t.cache.op[r].staleAt.None? && r !in t.cache.staleOp
      && t.cache.ex == s.cache.ex && t.cache.active == s.cache.active
      && (forall k :: k != r ==> (k in t.cache.op <==> k in s.cache.op) && (k in s.cache.op ==> t.cache.op[k] == s.cache.op[k]))
  {
  }

  /** The fingerprint becomes the active one, and the entry of the previous one goes stale and is listed. */
  ghost predicate Switched(c: Cache, k: ExKey, now: int, d: Cache) {
    && k.repo in d.active && d.active[k.repo] == k.fingerprint
    && (forall r :: r != k.repo ==> (r in d.active <==> r in c.active) && (r in c.active ==> d.active[r] == c.active[r]))
    && (forall p :: p != k && p in c.ex ==>
          && p in d.ex
          && if p.repo == k.repo && k.repo in c.active && c.active[k.repo] == p.fingerprint
             then d.ex[p] == c.ex[p].(stale := true, staleAt := Some(now)) && p in d.staleEx && d.reapScheduled
             else d.ex[p] == c.ex[p] && (p in d.staleEx <==> p in c.staleEx))
  }

  lemma SwitchIsSwitched(c: Cache, k: ExKey, now: int)
    ensures Switched(c, k, now, SwitchActive(c, k, now)) && Switched(c, k, now, UnmarkEx(SwitchActive(c, k, now), k))
    ensures k in SwitchActive(c, k, now).ex <==> k in c.ex
  {
    assert forall p: ExKey :: p == ExKey(p.repo, p.fingerprint);
  }

  /** A getRuntime call on a key nobody builds switches to its fingerprint, whether it is served or goes on to the operational runtime. */
  lemma SwitchMarksPrevious(s: State, k: ExKey, now: int, call: nat)
    requires Enabled(s, GetRuntime(k, now, call)) && (k in s.cache.ex ==> s.cache.ex[k].build.None?)
    ensures
      var t := Step(s, GetRuntime(k, now, call));
      && Switched(s.cache, k, now, t.cache)
      && (k in s.cache.ex ==> k in t.cache.ex && !t.cache.ex[k].stale && k !in t.cache.staleEx && call !in t.calls.starting)
      && (k !in s.cache.ex ==> k !in t.cache.ex && call in t.calls.starting && t.calls.starting[call] == k)
  {
    var c := SwitchActive(s.cache, k, now);
    SwitchIsSwitched(s.cache, k, now);
    if k !in s.cache.ex { OperationalCalls(s.(cache := c), k.repo, call); }
  }

  /** After the operational runtime: a failure fails the call and builds nothing; otherwise one build of the key starts. */
  lemma ContinuesExactly(s: State, call: nat)
    requires Enabled(s, Continues(call))
    ensures
      var t := Step(s, Continues(call));
      var k := s.calls.starting[call];
      if s.calls.results[call] == Failed then t.cache == s.cache && t.builds == s.builds && Received(t.calls, call, Failed, true)
      else
        && t.builds == s.builds[s.nextBuild := ExBuild(k)] && t.nextBuild == s.nextBuild + 1 && WaitsFor(t.calls, call, s.nextBuild, true)
        && t.cache == s.cache.(ex := t.cache.ex) && k in t.cache.ex && t.cache.ex[k].build == Some(s.nextBuild) && !t.cache.ex[k].stale
        && forall p :: p != k ==> (p in t.cache.ex <==> p in s.cache.ex) && (p in s.cache.ex ==> t.cache.ex[p] == s.cache.ex[p])
  {
  }

  /** A failed execution build takes the entry of its key, and the fingerprint is active no more. */
  lemma FailureDeactivates(s: State, b: nat, k: ExKey)
    requires b in s.builds && s.builds[b] == ExBuild(k)
    ensures
      var t := Step(s, BuildSettles(b, Failed));
      && t.cache.ex == s.cache.ex - {k} && t.cache.op == s.cache.op
      && (forall r :: r in t.cache.active <==> r in s.cache.active && ExKey(r, s.cache.active[r]) != k)
      && (forall r :: r in t.cache.active ==> t.cache.active[r] == s.cache.active[r])
  {
  }

  // ---------------------------------------------------------------- what the lease hooks mark

  /** The entry goes stale and is listed if the lease is free, and is unmarked and taken off the list if not. */
  ghost predicate MarkedByLease(was: Entry, now: Entry, listed: bool, coming: bool, lease: Lease, at: int) {
    && now.runtime == was.runtime && now.build == was.build
    && (now.stale <==> lease == Free) && (listed <==> lease == Free) && (lease == Free ==> coming)
    && now.staleAt == if lease != Free then None else if was.stale then was.staleAt else Some(at)
  }

  /** The built entries of the repository are marked by their leases; nothing else changes. */
  ghost predicate ReleasedExactly(c: Cache, d: Cache, r: RepoId, now: int, exLease: Lease, opLease: Lease) {
    && d.active == c.active && d.op.Keys == c.op.Keys && d.ex.Keys == c.ex.Keys
    && (forall k :: k in c.op ==>
          if k == r && c.op[k].runtime.Some?
          then MarkedByLease(c.op[k], d.op[k], k in d.staleOp, d.reapScheduled, opLease, now)
          else d.op[k] == c.op[k] && (k in d.staleOp <==> k in c.staleOp))
    && (forall k :: k in c.ex ==>
          if k.repo == r && r in c.active && c.active[r] == k.fingerprint && c.ex[k].runtime.Some?
          then MarkedByLease(c.ex[k], d.ex[k], k in d.staleEx, d.reapScheduled, exLease, now)
          else d.ex[k] == c.ex[k] && (k in d.staleEx <==> k in c.staleEx))
  }

  /** In every reachable state: after a release, the built entries of the repository are stale and listed exactly when their leases are free. */
  lemma ReleaseMarks(es: seq<Event>, r: RepoId, now: int, exLease: Lease, opLease: Lease)
    ensures
      var s, t := Run(Initial, es), Step(Run(Initial, es), LeaseReleased(r, now, exLease, opLease));
      t == s.(cache := t.cache) && ReleasedExactly(s.cache, t.cache, r, now, exLease, opLease)
  {
    StaleTheorem(es);
    ReleaseMarksCache(Run(Initial, es).cache, r, now, exLease, opLease);
  }

  lemma ReleaseMarksCache(c: Cache, r: RepoId, now: int, exLease: Lease, opLease: Lease)
    requires CacheInv(c)
    ensures ReleasedExactly(c, Released(c, r, now, exLease, opLease), r, now, exLease, opLease)
  {
    ReleaseMarksExecution(c, r, now, exLease);
    ReleaseMarksOperational(ReleasedEx(c, r, now, exLease), r, now, opLease);
  }

  lemma ReleaseMarksExecution(c: Cache, r: RepoId, now: int, lease: Lease)
    requires CacheInv(c)
    ensures
      var d := ReleasedEx(c, r, now, lease);
      && CacheInv(d) && d == c.(ex := d.ex, staleEx := d.staleEx, reapScheduled := d.reapScheduled) && d.ex.Keys == c.ex.Keys
      && (c.reapScheduled ==> d.reapScheduled)
      && (forall k :: k in c.ex ==>
            if k.repo == r && r in c.active && c.active[r] == k.fingerprint && c.ex[k].runtime.Some?
            then MarkedByLease(c.ex[k], d.ex[k], k in d.staleEx, d.reapScheduled, lease, now)
            else d.ex[k] == c.ex[k] && (k in d.staleEx <==> k in c.staleEx))
  {
    ReleasedExKeeps(c, r, now, lease);
    assert forall k: ExKey :: k == ExKey(k.repo, k.fingerprint);
  }

  lemma ReleaseMarksOperational(c: Cache, r: RepoId, now: int, lease: Lease)
    requires CacheInv(c)
    ensures
      var d := ReleasedOp(c, r, now, lease);
      && d == c.(op := d.op, staleOp := d.staleOp, reapScheduled := d.reapScheduled) && d.op.Keys == c.op.Keys
      && (c.reapScheduled ==> d.reapScheduled)
      && (forall k :: k in c.op ==>
            if k == r && c.op[k].runtime.Some?
            then MarkedByLease(c.op[k], d.op[k], k in d.staleOp, d.reapScheduled, lease, now)
            else d.op[k] == c.op[k] && (k in d.staleOp <==> k in c.staleOp))
  {
  }

  /** After an acquisition, neither the operational entry nor the active execution entry of the repository is stale; nothing else changes. */
  lemma AcquisitionUnmarks(s: State, r: RepoId)
    ensures
      var t := Step(s, LeaseAcquired(r));
      && t == s.(cache := t.cache) && t.cache.active == s.cache.active && t.cache.reapScheduled == s.cache.reapScheduled
      && t.cache.op.Keys == s.cache.op.Keys && t.cache.ex.Keys == s.cache.ex.Keys
      && (forall k :: k in s.cache.op ==>
            if k == r then t.cache.op[k] == s.cache.op[k].(stale := false, staleAt := None) && k !in t.cache.staleOp
            else t.cache.op[k] == s.cache.op[k] && (k in t.cache.staleOp <==> k in s.cache.staleOp))
      && (forall k :: k in s.cache.ex ==>
            if k.repo == r && r in s.cache.active && s.cache.active[r] == k.fingerprint
            then t.cache.ex[k] == s.cache.ex[k].(stale := false, staleAt := None) && k !in t.cache.staleEx
            else t.cache.ex[k] == s.cache.ex[k] && (k in t.cache.staleEx <==> k in s.cache.staleEx))
  {
    assert forall k: ExKey :: k == ExKey(k.repo, k.fingerprint);
  }

  // ---------------------------------------------------------------- who owns an execution entry

  ghost predicate Owned(s: State) { ExOwned(s.cache.ex, s.builds) }

  /** The check getRuntime does not make: nobody builds the key at the moment the placeholder is stored. */
  ghost predicate Guarded(s: State, e: Event) {
    e.Continues? && Enabled(s, e) && s.calls.results[e.call].Ready? ==>
      s.calls.starting[e.call] !in s.cache.ex || s.cache.ex[s.calls.starting[e.call]].build.None?
  }

  lemma StartOwns(s: State, k: ExKey, call: nat)
    requires Inv(s) && Owned(s) && (k !in s.cache.ex || s.cache.ex[k].build.None?)
    ensures Owned(StartEx(s, k, call))
  {
    assert s.nextBuild !in s.builds;
  }

  lemma OperationalOwns(s: State, r: RepoId, call: nat)
    requires Owned(s)
    ensures Owned(Operational(s, r, call))
  {
  }

  lemma QuietOwns(s: State, d: Cache)
    requires Owned(s) && Quiet(s.cache.ex, d.ex)
    ensures Owned(s.(cache := d))
  {
  }

  lemma RuntimeOwns(s: State, k: ExKey, now: int, call: nat)
    requires Owned(s)
    ensures Owned(Runtime(s, k, now, call))
  {
    var c := SwitchActive(s.cache, k, now);
    SwitchKeeps(s.cache, k, now);
    QuietOwns(s, c);
    UnmarkExKeeps(c, k);
    QuietOwns(s.(cache := c), UnmarkEx(c, k));
    OperationalOwns(s.(cache := c), k.repo, call);
  }

  lemma SettleOwns(s: State, b: nat, outcome: Outcome)
    requires Inv(s) && Owned(s) && b in s.builds
    ensures Owned(Step(s, BuildSettles(b, outcome)))
  {
  }

  lemma StepOwns(s: State, e: Event)
    requires Inv(s) && Owned(s) && Guarded(s, e)
    ensures Owned(Step(s, e))
  {
    if Enabled(s, e) {
      match e
      case GetOperational(r, c) => OperationalOwns(s, r, c);
      case GetRuntime(k, now, c) => RuntimeOwns(s, k, now, c);
      case Continues(c) =>
        var t := s.(calls := s.calls.(starting := s.calls.starting - {c}));
        if s.calls.results[c].Ready? { StartOwns(t, s.calls.starting[c], c); }
      case BuildSettles(b, outcome) => SettleOwns(s, b, outcome);
      case _ => HooksKeep(s, e); QuietOwns(s, Step(s, e).cache);
    }
  }

  /** A start without the check orphans the build that was there: its failure then takes the newcomer's entry. */
  lemma UnguardedStartDisowns(s: State, e: Event)
    requires Inv(s) && !Guarded(s, e)
    ensures
      var k := s.calls.starting[e.call];
      var t := Step(s, e);
      var first := s.cache.ex[k].build.value;
      var u := Step(t, BuildSettles(first, Failed));
      && !Owned(t) && first in t.builds && t.builds[first] == ExBuild(k)
      && k in t.cache.ex && t.cache.ex[k].build == Some(s.nextBuild) != Some(first)
      && k !in u.cache.ex && s.nextBuild in u.builds
  {
  }

  ghost predicate AllGuarded(es: seq<Event>) {
    forall n :: 0 <= n < |es| ==> Guarded(Run(Initial, es[..n]), es[n])
  }

  ghost predicate AlwaysOwned(es: seq<Event>) {
    forall n :: 0 <= n <= |es| ==> Owned(Run(Initial, es[..n]))
  }

  lemma RunPrefix(es: seq<Event>, n: nat)
    requires n < |es|
    ensures Run(Initial, es[..n + 1]) == Step(Run(Initial, es[..n]), es[n])
  {
    assert es[..n + 1][..n] == es[..n];
  }

  lemma {:induction false} GuardedOwns(es: seq<Event>, n: nat)
    requires AllGuarded(es) && n <= |es|
    ensures Owned(Run(Initial, es[..n]))
  {
    if n > 0 {
      GuardedOwns(es, n - 1);
      RunKeeps(Initial, es[..n - 1]);
      RunPrefix(es, n - 1);
      StepOwns(Run(Initial, es[..n - 1]), es[n - 1]);
    }
  }

  /** Over every run: each execution build owns its entry all along exactly when no start overtakes a build of its key. */
  lemma OwnershipTheorem(es: seq<Event>)
    ensures AlwaysOwned(es) <==> AllGuarded(es)
  {
    if AllGuarded(es) {
      forall n | 0 <= n <= |es| ensures Owned(Run(Initial, es[..n])) { GuardedOwns(es, n); }
    }
    if AlwaysOwned(es) {
      forall n | 0 <= n < |es| ensures Guarded(Run(Initial, es[..n]), es[n]) {
        RunKeeps(Initial, es[..n]);
        RunPrefix(es, n);
        if !Guarded(Run(Initial, es[..n]), es[n]) { UnguardedStartDisowns(Run(Initial, es[..n]), es[n]); }
      }
    }
  }

  /** While builds own their entries, a key has one build and a failure takes its own entry and no other. */
  lemma OwnedFailure(s: State, b: nat, k: ExKey)
    requires Owned(s) && b in s.builds && s.builds[b] == ExBuild(k)
    ensures
      var t := Step(s, BuildSettles(b, Failed));
      && k in s.cache.ex && s.cache.ex[k].build == Some(b)
      && t.cache.ex == s.cache.ex - {k} && t.cache.op == s.cache.op
      && forall c :: c in s.builds && s.builds[c] == ExBuild(k) ==> c == b
  {
  }

  /** Two getRuntime calls that both found nothing, the operational build they share, and their two starts. */
  function Overtaking(k: ExKey): seq<Event> {
    [GetRuntime(k, 0, 0), GetRuntime(k, 0, 1), BuildSettles(0, Ready(7)), Continues(0), Continues(1)]
  }

  /** Both calls wait for the one operational build. */
  ghost predicate BothWait(s: State, k: ExKey) {
    && s.cache.ex == map[] && s.builds == map[0 := OpBuild(k.repo)] && s.nextBuild == 1
    && s.calls == Calls(map[0 := 0, 1 := 0], map[], map[0 := k, 1 := k], map[], map[])
  }

  /** The first call builds the key, and the second may start too. */
  ghost predicate FirstBuilds(s: State, k: ExKey) {
    && k in s.cache.ex && s.cache.ex[k].build == Some(1) && s.nextBuild == 2
    && 1 in s.calls.starting && s.calls.starting[1] == k && 1 in s.calls.results && s.calls.results[1] == Ready(7)
  }

  lemma OvertakingWaits(k: ExKey)
    ensures BothWait(Step(Step(Initial, GetRuntime(k, 0, 0)), GetRuntime(k, 0, 1)), k)
  {
    var s := Step(Initial, GetRuntime(k, 0, 0));
    assert s.cache.op == map[k.repo := Placeholder.(build := Some(0))] && s.cache.ex == map[];
    assert s.calls == Calls(map[0 := 0], map[], map[0 := k], map[], map[]);
  }

  lemma OvertakingBuilds(s: State, k: ExKey)
    requires BothWait(s, k)
    ensures FirstBuilds(Step(Step(s, BuildSettles(0, Ready(7))), Continues(0)), k)
  {
    var t := Step(s, BuildSettles(0, Ready(7)));
    assert t.calls.results == map[0 := Ready(7), 1 := Ready(7)] && t.calls.starting == s.calls.starting;
  }

  lemma SecondOvertakes(s: State, k: ExKey)
    requires Inv(s) && FirstBuilds(s, k)
    ensures !Guarded(s, Continues(1)) && Overtaken(Step(s, Continues(1)), k)
  {
    UnguardedStartDisowns(s, Continues(1));
  }

  /** The entry belongs to build 2, and the failure of build 1 takes it away while build 2 goes on. */
  ghost predicate Overtaken(s: State, k: ExKey) {
    var t := Step(s, BuildSettles(1, Failed));
    k in s.cache.ex && s.cache.ex[k].build == Some(2) && k !in t.cache.ex && 2 in t.builds
  }

  /** The code does perform it: after the second start the first build no longer owns the entry. */
  lemma ExecutionFailureRemovesOther(k: ExKey)
    ensures !AllGuarded(Overtaking(k)) && Overtaken(Run(Initial, Overtaking(k)), k)
  {
    var es := Overtaking(k);
    OvertakingReaches(k);
    RunKeeps(Initial, es[..4]);
    SecondOvertakes(Run(Initial, es[..4]), k);
    RunPrefix(es, 4);
    assert es[..5] == es;
  }

  lemma OvertakingReaches(k: ExKey)
    ensures FirstBuilds(Run(Initial, Overtaking(k)[..4]), k)
  {
    var es := Overtaking(k);
    OvertakingPrefixes(k);
    OvertakingWaits(k);
    OvertakingBuilds(Step(Step(Initial, es[0]), es[1]), k);
  }

  lemma OvertakingPrefixes(k: ExKey)
    ensures
      var es := Overtaking(k);
      Run(Initial, es[..4]) == Step(Step(Step(Step(Initial, es[0]), es[1]), es[2]), es[3])
  {
    var es := Overtaking(k);
    assert es[..0] == [];
    RunPrefix(es, 0);
    RunPrefix(es, 1);
    RunPrefix(es, 2);
    RunPrefix(es, 3);
  }

  // ---------------------------------------------------------------- the factory

  /**
   The factory itself. Each method is one piece of code between two awaits and is proved to do the
   corresponding step; the fields from `builds` on stand for the pending promises.
   */
  class RepositoryRuntimeFactory {
    var operationalCache: map<RepoId, Entry>
    var executionCache: map<ExKey, Entry>
    var staleOperational: set<RepoId>
    var staleExecution: set<ExKey>
    var activeFingerprint: map<RepoId, Fingerprint>
    var reapScheduled: bool
    var builds: map<nat, Build>
    var nextBuild: nat
    var calls: Calls

    ghost function CacheView(): (c: Cache)
      reads this
    {
      Cache(operationalCache, executionCache, staleOperational, staleExecution, activeFingerprint, reapScheduled)
    }

    ghost function View(): (s: State)
      reads this
    {
      State(CacheView(), builds, nextBuild, calls)
    }

    constructor ()
      ensures View() == Initial && Inv(View())
    {
      operationalCache, executionCache, staleOperational, staleExecution := map[], map[], {}, {};
      activeFingerprint, reapScheduled := map[], false;
      builds, nextBuild, calls := map[], 0, Calls(map[], map[], map[], map[], map[]);
    }

    method MarkStaleOperational(k: RepoId, now: int)
      modifies this`operationalCache, this`executionCache, this`staleOperational, this`staleExecution, this`activeFingerprint, this`reapScheduled
      ensures CacheView() == MarkOp(old(CacheView()), k, now)
    {
      if k in operationalCache {
        operationalCache := operationalCache[k := Marked(operationalCache[k], now)];
        staleOperational := staleOperational + {k};
        reapScheduled := true;
      }
    }

    method MarkStaleExecution(k: ExKey, now: int)
      modifies this`operationalCache, this`executionCache, this`staleOperational, this`staleExecution, this`activeFingerprint, this`reapScheduled
      ensures CacheView() == MarkEx(old(CacheView()), k, now)
    {
      if k in executionCache {
        executionCache := executionCache[k := Marked(executionCache[k], now)];
        staleExecution := staleExecution + {k};
        reapScheduled := true;
      }
    }

    method UnmarkStaleOperational(k: RepoId)
      modifies this`operationalCache, this`executionCache, this`staleOperational, this`staleExecution, this`activeFingerprint, this`reapScheduled
      ensures CacheView() == UnmarkOp(old(CacheView()), k)
    {
      if k in operationalCache {
        operationalCache := operationalCache[k := Unmarked(operationalCache[k])];
        staleOperational := staleOperational - {k};
      }
    }

    method UnmarkStaleExecution(k: ExKey)
      modifies this`operationalCache, this`executionCache, this`staleOperational, this`staleExecution, this`activeFingerprint, this`reapScheduled
      ensures CacheView() == UnmarkEx(old(CacheView()), k)
    {
      if k in executionCache {
        executionCache := executionCache[k := Unmarked(executionCache[k])];
        staleExecution := staleExecution - {k};
      }
    }

    method VisitOperational(k: RepoId, now: int, lease: Lease) returns (again: bool)
      modifies this`operationalCache, this`executionCache, this`staleOperational, this`staleExecution, this`activeFingerprint, this`reapScheduled
      ensures (CacheView(), again) == ReapOpOne(old(CacheView()), k, now, lease)
    {
      again := false;
      if k !in operationalCache {
        staleOperational := staleOperational - {k};
        return;
      }
      var entry := operationalCache[k];
      if entry.build.Some? { return true; }
      var hasActiveLease := lease != Free;
      if lease == Throws { again := true; }
      if hasActiveLease && !Exceeded(entry, now) { return true; }
      operationalCache := operationalCache - {k};
      staleOperational := staleOperational - {k};
    }

    method VisitExecution(k: ExKey, now: int, lease: Lease) returns (again: bool)
      modifies this`operationalCache, this`executionCache, this`staleOperational, this`staleExecution, this`activeFingerprint, this`reapScheduled
      ensures (CacheView(), again) == ReapExOne(old(CacheView()), k, now, lease)
    {
      again := false;
      if k !in executionCache {
        staleExecution := staleExecution - {k};
        return;
      }
      var entry := executionCache[k];
      if entry.build.Some? { return true; }
      var isActive := k.repo in activeFingerprint ==> activeFingerprint[k.repo] == k.fingerprint;
      var hasActiveLease := lease != Free;
      if lease == Throws { again := true; }
      if hasActiveLease && isActive {
        UnmarkStaleExecution(k);
        return;
      }
      if hasActiveLease && !Exceeded(entry, now) { return true; }
      executionCache := executionCache - {k};
      staleExecution := staleExecution - {k};
      if k.repo in activeFingerprint && activeFingerprint[k.repo] == k.fingerprint {
        activeFingerprint := activeFingerprint - {k.repo};
      }
    }

    method ReapOperational(order: seq<RepoId>, now: int, lease: RepoId -> Lease) returns (retry: bool)
      modifies this`operationalCache, this`executionCache, this`staleOperational, this`staleExecution, this`activeFingerprint, this`reapScheduled
      ensures (CacheView(), retry) == ReapOp(old(CacheView()), order, now, lease)
    {
      retry := false;
      for i := 0 to |order|
        invariant (CacheView(), retry) == ReapOp(old(CacheView()), order[..i], now, lease)
      {
        var again := VisitOperational(order[i], now, lease(order[i]));
        retry := retry || again;
        assert order[..i + 1][..i] == order[..i];
      }
      assert order[..|order|] == order;
    }

    method ReapExecution(order: seq<ExKey>, now: int, lease: ExKey -> Lease) returns (retry: bool)
      modifies this`operationalCache, this`executionCache, this`staleOperational, this`staleExecution, this`activeFingerprint, this`reapScheduled
      ensures (CacheView(), retry) == ReapEx(old(CacheView()), order, now, lease)
    {
      retry := false;
      for i := 0 to |order|
        invariant (CacheView(), retry) == ReapEx(old(CacheView()), order[..i], now, lease)
      {
        var again := VisitExecution(order[i], now, lease(order[i]));
        retry := retry || again;
        assert order[..i + 1][..i] == order[..i];
      }
      assert order[..|order|] == order;
    }

    /** The timer callback of scheduleReap together with the reap it starts. */
    method ReapStaleRuntimes(now: int, opOrder: seq<RepoId>, exOrder: seq<ExKey>,
                             opLease: RepoId -> Lease, exLease: ExKey -> Lease)
      requires Inv(View()) && Enabled(View(), ReapFires(now, opOrder, exOrder, opLease, exLease))
      modifies this
      ensures View() == Step(old(View()), ReapFires(now, opOrder, exOrder, opLease, exLease))
      ensures Inv(View())
    {
      StepKeeps(View(), ReapFires(now, opOrder, exOrder, opLease, exLease));
      reapScheduled := false;
      var retryOperational := ReapOperational(opOrder, now, opLease);
      var retryExecution := ReapExecution(exOrder, now, exLease);
      if retryOperational || retryExecution { reapScheduled := true; }
    }

    /** getOperationalRuntime up to its await; the caller is answered now or waits for a build. */
    method GetOperationalRuntime(r: RepoId, call: nat)
      requires Inv(View()) && Enabled(View(), GetOperational(r, call))
      modifies this
      ensures View() == Step(old(View()), GetOperational(r, call)) && Inv(View())
    {
      StepKeeps(View(), GetOperational(r, call));
      EnterOperational(r, call);
    }

    method EnterOperational(r: RepoId, call: nat)
      modifies this
      ensures View() == Operational(old(View()), r, call)
    {
      if r in operationalCache {
        var entry := operationalCache[r];
        if entry.build.Some? {
          calls := calls.(waiting := calls.waiting[call := entry.build.value]);
          return;
        }
        UnmarkStaleOperational(r);
        if entry.runtime.Some? { calls := calls.(results := calls.results[call := Ready(entry.runtime.value)]); }
        return;
      }
      var b := nextBuild;
      nextBuild := nextBuild + 1;
      builds := builds[b := OpBuild(r)];
      operationalCache := operationalCache[r := Placeholder.(build := Some(b))];
      calls := calls.(waiting := calls.waiting[call := b]);
    }

    method SwitchActiveFingerprint(k: ExKey, now: int)
      modifies this`operationalCache, this`executionCache, this`staleOperational, this`staleExecution, this`activeFingerprint, this`reapScheduled
      ensures CacheView() == SwitchActive(old(CacheView()), k, now)
    {
      if k.repo in activeFingerprint && activeFingerprint[k.repo] != k.fingerprint {
        MarkStaleExecution(ExKey(k.repo, activeFingerprint[k.repo]), now);
      }
      activeFingerprint := activeFingerprint[k.repo := k.fingerprint];
    }

    /** getRuntime up to its first await. */
    method GetExecutionRuntime(k: ExKey, now: int, call: nat)
      requires Inv(View()) && Enabled(View(), GetRuntime(k, now, call))
      modifies this
      ensures View() == Step(old(View()), GetRuntime(k, now, call)) && Inv(View())
    {
      StepKeeps(View(), GetRuntime(k, now, call));
      if k in executionCache {
        var entry := executionCache[k];
        if entry.build.Some? {
          calls := calls.(exWaiting := calls.exWaiting[call := entry.build.value]);
          return;
        }
        SwitchActiveFingerprint(k, now);
        UnmarkStaleExecution(k);
        if entry.runtime.Some? { calls := calls.(exResults := calls.exResults[call := Ready(entry.runtime.value)]); }
        return;
      }
      SwitchActiveFingerprint(k, now);
      EnterOperational(k.repo, call);
      calls := calls.(starting := calls.starting[call := k]);
    }

    /** getRuntime from its first await to its second, or to its throw when the operational build failed. */
    method ContinueExecution(call: nat)
      requires Inv(View()) && Enabled(View(), Continues(call))
      modifies this
      ensures View() == Step(old(View()), Continues(call)) && Inv(View())
    {
      StepKeeps(View(), Continues(call));
      var k := calls.starting[call];
      var operational := calls.results[call];
      calls := calls.(starting := calls.starting - {call});
      if operational.Failed? {
        calls := calls.(exResults := calls.exResults[call := Failed]);
        return;
      }
      StartExecutionBuild(k, call);
    }

    method StartExecutionBuild(k: ExKey, call: nat)
      modifies this
      ensures View() == StartEx(old(View()), k, call)
    {
      var b := nextBuild;
      nextBuild := nextBuild + 1;
      builds := builds[b := ExBuild(k)];
      executionCache := executionCache[k := Placeholder.(build := Some(b))];
      calls := calls.(exWaiting := calls.exWaiting[call := b]);
    }

    method SettleOperational(r: RepoId, b: nat, outcome: Outcome)
      modifies this
      ensures View() == SettleOp(old(View()), r, b, outcome)
    {
      builds, calls := builds - {b}, Answer(calls, b, outcome);
      match outcome
      case Ready(x) =>
        if r in operationalCache && operationalCache[r].build == Some(b) {
          operationalCache := operationalCache[r := operationalCache[r].(runtime := Some(x), build := None)];
        }
      case Failed =>
        operationalCache := operationalCache - {r};
    }

    method SettleExecution(k: ExKey, b: nat, outcome: Outcome)
      modifies this
      ensures View() == SettleEx(old(View()), k, b, outcome)
    {
      builds, calls := builds - {b}, Answer(calls, b, outcome);
      match outcome
      case Ready(x) =>
        if k in executionCache && executionCache[k].build == Some(b) {
          executionCache := executionCache[k := executionCache[k].(runtime := Some(x), build := None)];
        }
      case Failed =>
        executionCache := executionCache - {k};
        if k.repo in activeFingerprint && activeFingerprint[k.repo] == k.fingerprint {
          activeFingerprint := activeFingerprint - {k.repo};
        }
    }

    /** The code after a build's await, in the success and in the catch branch. */
    method BuildSettled(b: nat, outcome: Outcome)
      requires Inv(View()) && b in builds
      modifies this
      ensures View() == Step(old(View()), BuildSettles(b, outcome)) && Inv(View())
    {
      StepKeeps(View(), BuildSettles(b, outcome));
      match builds[b]
      case OpBuild(r) => SettleOperational(r, b, outcome);
      case ExBuild(k) => SettleExecution(k, b, outcome);
    }

    method ReleaseExecution(r: RepoId, now: int, lease: Lease)
      modifies this`operationalCache, this`executionCache, this`staleOperational, this`staleExecution, this`activeFingerprint, this`reapScheduled
      ensures CacheView() == ReleasedEx(old(CacheView()), r, now, lease)
    {
      if r in activeFingerprint {
        var k := ExKey(r, activeFingerprint[r]);
        if k in executionCache && executionCache[k].runtime.Some? {
          if lease != Free { UnmarkStaleExecution(k); }
          else if !executionCache[k].stale { MarkStaleExecution(k, now); }
        }
      }
    }

    method ReleaseOperational(r: RepoId, now: int, lease: Lease)
      modifies this`operationalCache, this`executionCache, this`staleOperational, this`staleExecution, this`activeFingerprint, this`reapScheduled
      ensures CacheView() == ReleasedOp(old(CacheView()), r, now, lease)
    {
      if r in operationalCache && operationalCache[r].runtime.Some? {
        if lease != Free { UnmarkStaleOperational(r); }
        else if !operationalCache[r].stale { MarkStaleOperational(r, now); }
      }
    }

    method OnLeaseReleased(r: RepoId, now: int, exLease: Lease, opLease: Lease)
      requires Inv(View())
      modifies this
      ensures View() == Step(old(View()), LeaseReleased(r, now, exLease, opLease)) && Inv(View())
    {
      StepKeeps(View(), LeaseReleased(r, now, exLease, opLease));
      ReleaseExecution(r, now, exLease);
      ReleaseOperational(r, now, opLease);
    }

    method OnLeaseAcquired(r: RepoId)
      requires Inv(View())
      modifies this
      ensures View() == Step(old(View()), LeaseAcquired(r)) && Inv(View())
    {
      StepKeeps(View(), LeaseAcquired(r));
      if r in activeFingerprint { UnmarkStaleExecution(ExKey(r, activeFingerprint[r])); }
      UnmarkStaleOperational(r);
    }
  }
}
