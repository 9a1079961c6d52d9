/**
 The orphan tick: SweepOrphanedRuns moves every running run whose process is gone to an inferred
 status, and OrphanedRunsSweeper then gives it a fresh job or puts it back. Clocks, process checks
 and the failures of lease, event bus and queue are arbitrary; the store itself works.
 */
module OrphanSweep {
  import opened Prelude
  import opened Sequences
  import opened RunRecords

  type Uuid = string
  type RepoId = string

  datatype Reason = Orphaned(pid: int) | Text(text: string)

  datatype Run = Run(repo: RepoId, status: RunStatus, pid: Option<int>, currentPhase: Option<string>,
                     completedAt: Option<int>, failureReason: Option<Reason>)

  datatype PhaseStatus = PhaseBlocked | PhaseNeedsHumanReview | OtherPhaseStatus(name: string)

  datatype Phase = Phase(startedAt: Option<int>, completedAt: Option<int>, status: PhaseStatus)

  datatype JobId = OrphanJob(run: Uuid, time: int) | OtherJob(number: nat)

  /** `active` stands for the statuses queued, claimed and running. */
  datatype Job = Job(runId: Uuid, active: bool)

  datatype Store = Store(runs: map<Uuid, Run>, phases: map<Uuid, seq<Phase>>, jobs: map<JobId, Job>, leases: map<RepoId, Lease>)

  datatype Entry = Entry(uuid: Uuid, run: Run, previousPid: int, previousStatus: RunStatus)

  /** What the outside answers while one entry is handled. */
  datatype Moment = Moment(checkAt: int, acquireAt: int, jobAt: int, token: nat,
                           acquireFails: bool, publishFails: bool, enqueueFails: bool)

  datatype Verdict =
    | LeaseConflict | AlreadyQueued | AcquireFailed | HumanReview | Unannounced | Missed | Refused | Enqueued | EnqueueFailed

  // ---------------------------------------------------------------- the store

  function Patched(run: Run, status: RunStatus, completedAt: Option<int>, reason: Option<Reason>): Run {
    run.(status := status, completedAt := completedAt, failureReason := reason, currentPhase := None)
  }

  function CompareAndSet(s: Store, u: Uuid, expected: RunStatus, status: RunStatus,
                         completedAt: Option<int>, reason: Option<Reason>): (Store, bool) {
    if u in s.runs && s.runs[u].status == expected then
      (s.(runs := s.runs[u := Patched(s.runs[u], status, completedAt, reason)]), true)
    else (s, false)
  }

  predicate LeaseActive(s: Store, r: RepoId, now: int) {
    r in s.leases && s.leases[r].expiresAt > now
  }

  ghost function ActiveJobs(s: Store, u: Uuid): set<JobId> {
    set j | j in s.jobs && s.jobs[j].runId == u && s.jobs[j].active
  }

  // ---------------------------------------------------------------- SweepOrphanedRuns

  /** Started later, or equally late and completed later; a missing completion counts as time 0. */
  predicate Later(a: Phase, b: Phase)
    requires a.startedAt.Some? && b.startedAt.Some?
  {
    a.startedAt.value > b.startedAt.value || (a.startedAt == b.startedAt && Ended(a) > Ended(b))
  }

  function Ended(p: Phase): int { if p.completedAt.Some? then p.completedAt.value else 0 }

  /** The first of the started phases that none is later than. */
  function Latest(ps: seq<Phase>): (r: Option<Phase>)
    ensures r.Some? ==> r.value in ps && r.value.startedAt.Some?
    ensures forall i :: 0 <= i < |ps| && ps[i].startedAt.Some? ==> r.Some? && !Later(ps[i], r.value)
  {
    if ps == [] then None
    else
      var rest := Latest(ps[..|ps| - 1]);
      var p := ps[|ps| - 1];
      if p.startedAt.None? then rest
      else if rest.None? || Later(p, rest.value) then Some(p)
      else rest
  }

  function Inferred(ps: seq<Phase>): RunStatus {
    match Latest(ps)
    case Some(p) =>
      if p.completedAt.Some? && p.status == PhaseNeedsHumanReview then NeedsHumanReview
      else if p.completedAt.Some? && p.status == PhaseBlocked then Blocked
      else Failed
    case None => Failed
  }

  /** Phase i has started; every other started phase started earlier, or then and completed earlier, or then too and is listed later. */
  ghost predicate IsLatest(ps: seq<Phase>, i: nat) {
    && i < |ps| && ps[i].startedAt.Some?
    && forall j :: 0 <= j < |ps| && j != i && ps[j].startedAt.Some? ==>
         var started, other := ps[i].startedAt.value, ps[j].startedAt.value;
         var ended := if ps[i].completedAt.Some? then ps[i].completedAt.value else 0;
         var otherEnded := if ps[j].completedAt.Some? then ps[j].completedAt.value else 0;
         other < started || (other == started && (otherEnded < ended || (otherEnded == ended && i < j)))
  }

  /** The latest phase is completed with this status. */
  ghost predicate EndedWith(ps: seq<Phase>, status: PhaseStatus) {
    exists i: nat :: IsLatest(ps, i) && ps[i].completedAt.Some? && ps[i].status == status
  }

  lemma {:induction false} LatestIsAt(ps: seq<Phase>) returns (i: nat)
    requires Latest(ps).Some?
    ensures IsLatest(ps, i) && ps[i] == Latest(ps).value
  {
    var n := |ps| - 1;
    var rest := Latest(ps[..n]);
    if ps[n].startedAt.Some? && (rest.None? || Later(ps[n], rest.value)) {
      i := n;
      forall j | 0 <= j < n && ps[j].startedAt.Some? ensures !Later(ps[..n][j], rest.value) {}
      assert forall j :: 0 <= j < n ==> ps[..n][j] == ps[j];
    } else {
      i := LatestIsAt(ps[..n]);
      assert forall j :: 0 <= j < n ==> ps[..n][j] == ps[j];
    }
  }

  /** What SweepOrphanedRuns infers: the status its latest phase ended with, if that asks for a human, and failed in every other case. */
  lemma InferredExactly(ps: seq<Phase>)
    ensures Inferred(ps) == Blocked <==> EndedWith(ps, PhaseBlocked)
    ensures Inferred(ps) == NeedsHumanReview <==> EndedWith(ps, PhaseNeedsHumanReview)
    ensures Inferred(ps) == Failed <==> !EndedWith(ps, PhaseBlocked) && !EndedWith(ps, PhaseNeedsHumanReview)
    ensures (forall i :: 0 <= i < |ps| ==> ps[i].startedAt.None?) ==> Inferred(ps) == Failed
  {
    if Latest(ps).Some? {
      var i := LatestIsAt(ps);
      forall j: nat | IsLatest(ps, j) ensures j == i {}
    }
  }

  function PhasesOf(s: Store, u: Uuid): seq<Phase> { if u in s.phases then s.phases[u] else [] }

  predicate IsOrphan(run: Run, alive: bool) { run.status == Running && run.pid.Some? && !alive }

  function SweptReason(run: Run, status: RunStatus): Option<Reason>
    requires run.pid.Some?
  {
    if status != Failed && run.failureReason.Some? then run.failureReason else Some(Orphaned(run.pid.value))
  }

  /** The record SweepOrphanedRuns leaves for an orphan. */
  function Inferring(run: Run, status: RunStatus, now: int): Run
    requires run.pid.Some?
  {
    Patched(run, status, Some(now), SweptReason(run, status))
  }

  function Reconcile(s: Store, u: Uuid, run: Run, alive: bool, now: int): (Store, Option<Entry>) {
    if !IsOrphan(run, alive) then (s, None)
    else
      var status := Inferred(PhasesOf(s, u));
      var (t, updated) := CompareAndSet(s, u, Running, status, Some(now), SweptReason(run, status));
      if updated then (t, Some(Entry(u, Inferring(run, status, now), run.pid.value, Running))) else (s, None)
  }

  /** The loop over the active runs as they were listed in `s`. */
  function Scan(s: Store, order: seq<Uuid>, alive: Uuid -> bool, at: Uuid -> int): (Store, seq<Entry>)
    requires forall u :: u in order ==> u in s.runs
  {
    if order == [] then (s, [])
    else
      var (t, found) := Scan(s, order[..|order| - 1], alive, at);
      var u := order[|order| - 1];
      var (t', e) := Reconcile(t, u, s.runs[u], alive(u), at(u));
      (t', if e.Some? then found + [e.value] else found)
  }

  // ---------------------------------------------------------------- OrphanedRunsSweeper

  /** The run as every path but the human one leaves it. */
  function Reset(run: Run): Run { Patched(run, Running, None, None) }

  function RestoreToPreSweep(s: Store, e: Entry): Store {
    CompareAndSet(s, e.uuid, e.run.status, e.previousStatus, None, None).0
  }

  /** From the held lease to its release. */
  function Recover(s: Store, e: Entry, m: Moment): (Store, Verdict) {
    if e.run.status == Blocked || e.run.status == NeedsHumanReview then
      (s, if m.publishFails then Unannounced else HumanReview)
    else if !CanResume(e.run.status) then (s, Refused)
    else
      var (t, updated) := CompareAndSet(s, e.uuid, e.run.status, Running, None, None);
      if !updated then (s, Missed)
      else
        var id := OrphanJob(e.uuid, m.jobAt);
        if m.publishFails || m.enqueueFails || id in t.jobs then
          (CompareAndSet(t, e.uuid, Running, e.previousStatus, None, None).0, EnqueueFailed)
        else (t.(jobs := t.jobs[id := Job(e.uuid, true)]), Enqueued)
  }

  /** Why an entry is put back without a lease; `queued` holds the runs that had an active job when the loop began. */
  function Refusal(s: Store, e: Entry, queued: set<Uuid>, m: Moment): Option<Verdict> {
    if LeaseActive(s, e.run.repo, m.checkAt) then Some(LeaseConflict)
    else if e.uuid in queued then Some(AlreadyQueued)
    else if m.acquireFails then Some(AcquireFailed)
    else if !Acquirable(s.leases, e.run.repo, "orphan-sweeper", e.uuid, m.acquireAt) then Some(LeaseConflict)
    else None
  }

  function UnderLease(s: Store, e: Entry, m: Moment): (Store, Verdict) {
    var r := e.run.repo;
    var lease := Lease("orphan-sweeper", e.uuid, m.acquireAt + LEASE_TTL_MS, m.token);
    var (t, v) := Recover(s.(leases := s.leases[r := lease]), e, m);
    (t.(leases := t.leases - {r}), v)
  }

  function SweepOne(s: Store, e: Entry, queued: set<Uuid>, m: Moment): (Store, Verdict) {
    match Refusal(s, e, queued, m)
    case Some(v) => (RestoreToPreSweep(s, e), v)
    case None => UnderLease(s, e, m)
  }

  function Sweep(s: Store, entries: seq<Entry>, queued: set<Uuid>, moment: Uuid -> Moment): (Store, seq<Verdict>) {
    if entries == [] then (s, [])
    else
      var (t, vs) := Sweep(s, entries[..|entries| - 1], queued, moment);
      var e := entries[|entries| - 1];
      var (t', v) := SweepOne(t, e, queued, moment(e.uuid));
      (t', vs + [v])
  }

  function QueuedRuns(s: Store): set<Uuid> { set j | j in s.jobs && s.jobs[j].active :: s.jobs[j].runId }

  function Tick(s: Store, order: seq<Uuid>, alive: Uuid -> bool, at: Uuid -> int, moment: Uuid -> Moment): (Store, seq<Entry>, seq<Verdict>)
    requires forall u :: u in order ==> u in s.runs
  {
    var (mid, entries) := Scan(s, order, alive, at);
    var (end, verdicts) := Sweep(mid, entries, QueuedRuns(mid), moment);
    (end, entries, verdicts)
  }

  // ---------------------------------------------------------------- what a scan leaves

  /** What findActiveRuns lists, in any order. */
  ghost predicate ListsActive(s: Store, order: seq<Uuid>) {
    && Distinct(order)
    && (forall u :: u in order <==> u in s.runs && RunActive(s.runs[u].status))
  }

  function Scanned(s: Store, u: Uuid, alive: Uuid -> bool, at: Uuid -> int): Run
    requires u in s.runs
  {
    var run := s.runs[u];
    if IsOrphan(run, alive(u)) then Inferring(run, Inferred(PhasesOf(s, u)), at(u)) else run
  }

  ghost predicate StoreScanned(s: Store, order: seq<Uuid>, alive: Uuid -> bool, at: Uuid -> int, t: Store) {
    && t == s.(runs := t.runs) && t.runs.Keys == s.runs.Keys
    && (forall u :: u in s.runs ==> t.runs[u] == if u in order then Scanned(s, u, alive, at) else s.runs[u])
  }

  ghost predicate EntriesScanned(s: Store, order: seq<Uuid>, alive: Uuid -> bool, at: Uuid -> int, entries: seq<Entry>) {
    && DistinctUuids(entries)
    && (forall i :: 0 <= i < |entries| ==> entries[i].uuid in order && IsEntry(s, entries[i], alive, at))
    && (forall u :: u in order && u in s.runs && IsOrphan(s.runs[u], alive(u)) ==> Has(entries, u))
  }

  ghost predicate IsEntry(s: Store, e: Entry, alive: Uuid -> bool, at: Uuid -> int) {
    && e.uuid in s.runs && IsOrphan(s.runs[e.uuid], alive(e.uuid))
    && e.run == Scanned(s, e.uuid, alive, at) && e.previousStatus == Running
  }

  ghost predicate Has(entries: seq<Entry>, u: Uuid) {
    exists i :: 0 <= i < |entries| && entries[i].uuid == u
  }

  lemma StoreScannedOneMore(s: Store, order: seq<Uuid>, u: Uuid, alive: Uuid -> bool, at: Uuid -> int, t: Store)
    requires StoreScanned(s, order, alive, at, t) && u in s.runs && u !in order
    ensures
      var (t', e) := Reconcile(t, u, s.runs[u], alive(u), at(u));
      && StoreScanned(s, order + [u], alive, at, t')
      && (e.Some? <==> IsOrphan(s.runs[u], alive(u)))
      && (e.Some? ==> e.value.uuid == u && IsEntry(s, e.value, alive, at))
  {
    assert t.runs[u] == s.runs[u];
    assert forall x :: x in order + [u] <==> x in order || x == u;
  }

  lemma EntriesScannedOneMore(s: Store, order: seq<Uuid>, u: Uuid, alive: Uuid -> bool, at: Uuid -> int,
                              entries: seq<Entry>, e: Option<Entry>)
    requires EntriesScanned(s, order, alive, at, entries) && u in s.runs && u !in order
    requires e.Some? <==> IsOrphan(s.runs[u], alive(u))
    requires e.Some? ==> e.value.uuid == u && IsEntry(s, e.value, alive, at)
    ensures EntriesScanned(s, order + [u], alive, at, if e.Some? then entries + [e.value] else entries)
  {
    assert forall x :: x in order + [u] <==> x in order || x == u;
    if e.Some? {
      forall x ensures Has(entries + [e.value], x) <==> Has(entries, x) || x == u { HasOneMore(entries, e.value, x); }
      NewUuid(entries, e.value);
    }
  }

  lemma HasOneMore(entries: seq<Entry>, e: Entry, x: Uuid)
    ensures Has(entries + [e], x) <==> Has(entries, x) || x == e.uuid
  {
    var more := entries + [e];
    assert more[|entries|] == e;
    if Has(entries, x) {
      var i :| 0 <= i < |entries| && entries[i].uuid == x;
      assert more[i].uuid == x;
    }
  }

  lemma NewUuid(entries: seq<Entry>, e: Entry)
    requires DistinctUuids(entries) && !Has(entries, e.uuid)
    ensures DistinctUuids(entries + [e])
  {
  }

  lemma {:induction false} ScanDoes(s: Store, order: seq<Uuid>, alive: Uuid -> bool, at: Uuid -> int)
    requires forall u :: u in order ==> u in s.runs
    requires Distinct(order)
    ensures
      var (t, entries) := Scan(s, order, alive, at);
      StoreScanned(s, order, alive, at, t) && EntriesScanned(s, order, alive, at, entries)
  {
    if order != [] {
      var n := |order| - 1;
      ScanDoes(s, order[..n], alive, at);
      var (t, entries) := Scan(s, order[..n], alive, at);
      var u := order[n];
      assert u !in order[..n];
      StoreScannedOneMore(s, order[..n], u, alive, at, t);
      EntriesScannedOneMore(s, order[..n], u, alive, at, entries, Reconcile(t, u, s.runs[u], alive(u), at(u)).1);
      assert order[..n] + [u] == order;
    }
  }

  // ---------------------------------------------------------------- what a sweep leaves

  predicate LeftToHumans(v: Verdict) { v == HumanReview || v == Unannounced }

  /** The entry's run still has the status the scan gave it. */
  ghost predicate Awaits(s: Store, e: Entry) {
    && e.uuid in s.runs && s.runs[e.uuid].status == e.run.status
    && e.run.status in {Failed, Blocked, NeedsHumanReview} && e.previousStatus == Running
  }

  ghost predicate RunSwept(s: Store, e: Entry, v: Verdict, t: Store) {
    && v != Missed && v != Refused
    && (LeftToHumans(v) ==> e.run.status != Failed)
    && e.uuid in s.runs && e.uuid in t.runs
    && t.runs[e.uuid] == (if LeftToHumans(v) then s.runs[e.uuid] else Reset(s.runs[e.uuid]))
  }

  /** Jobs of the sweep are new, active, and for runs outside the snapshot. */
  ghost predicate JobsSwept(s: Store, queued: set<Uuid>, moment: Uuid -> Moment, t: Store) {
    && (forall j :: j in s.jobs ==> j in t.jobs && t.jobs[j] == s.jobs[j])
    && (forall j :: j in t.jobs && j !in s.jobs ==>
          j.OrphanJob? && j.run !in queued && j.time == moment(j.run).jobAt && t.jobs[j] == Job(j.run, true))
  }

  ghost predicate LeasesSwept(s: Store, t: Store) {
    forall r :: r in t.leases ==> r in s.leases && t.leases[r] == s.leases[r]
  }

  /** An expired lease row is no obstacle: the sweeper acquires over it. */
  ghost predicate Obstructed(s: Store, e: Entry, queued: set<Uuid>, m: Moment) {
    LeaseActive(s, e.run.repo, m.checkAt) || !Acquirable(s.leases, e.run.repo, "orphan-sweeper", e.uuid, m.acquireAt)
    || e.uuid in queued || m.acquireFails || m.publishFails || m.enqueueFails
    || OrphanJob(e.uuid, m.jobAt) in s.jobs
  }

  /** The sweeper gets no lease for the entry, or does not try. */
  ghost predicate Turned(s: Store, e: Entry, queued: set<Uuid>, m: Moment) {
    LeaseActive(s, e.run.repo, m.checkAt) || !Acquirable(s.leases, e.run.repo, "orphan-sweeper", e.uuid, m.acquireAt)
    || e.uuid in queued || m.acquireFails
  }

  /** The verdict says whether a job was made, nothing but an obstacle prevents one, and what is for a human is left to one. */
  ghost predicate VerdictFits(s: Store, e: Entry, queued: set<Uuid>, m: Moment, v: Verdict, t: Store) {
    var id := OrphanJob(e.uuid, m.jobAt);
    && (v == Enqueued <==> id !in s.jobs && id in t.jobs)
    && (v == Enqueued ==> e.run.status == Failed)
    && (e.run.status == Failed && !Obstructed(s, e, queued, m) ==> v == Enqueued)
    && (e.run.status != Failed && !Turned(s, e, queued, m) ==> LeftToHumans(v))
    && (e.uuid in queued || m.acquireFails ==> !LeftToHumans(v))
  }

  /** Why an entry is put back: another holds the lease, at the check or at the acquire; a job is queued; the acquire fails. */
  lemma RefusalExactly(s: Store, e: Entry, queued: set<Uuid>, m: Moment)
    ensures
      var r := e.run.repo;
      var held := r in s.leases && s.leases[r].expiresAt > m.checkAt;
      var taken := r in s.leases && s.leases[r].expiresAt > m.acquireAt && !(s.leases[r].worker == "orphan-sweeper" && s.leases[r].run == e.uuid);
      && (Refusal(s, e, queued, m) == Some(LeaseConflict) <==> held || (e.uuid !in queued && !m.acquireFails && taken))
      && (Refusal(s, e, queued, m) == Some(AlreadyQueued) <==> !held && e.uuid in queued)
      && (Refusal(s, e, queued, m) == Some(AcquireFailed) <==> !held && e.uuid !in queued && m.acquireFails)
      && (Refusal(s, e, queued, m) == None <==> !held && e.uuid !in queued && !m.acquireFails && !taken)
  {
  }

  lemma RecoverDoes(s: Store, e: Entry, m: Moment)
    requires Awaits(s, e)
    ensures
      var (t, v) := Recover(s, e, m);
      && t == s.(runs := t.runs, jobs := t.jobs)
      && t.runs == s.runs[e.uuid := t.runs[e.uuid]] && RunSwept(s, e, v, t)
      && t.jobs == (if v == Enqueued then s.jobs[OrphanJob(e.uuid, m.jobAt) := Job(e.uuid, true)] else s.jobs)
      && (v == Enqueued <==> e.run.status == Failed && !m.publishFails && !m.enqueueFails && OrphanJob(e.uuid, m.jobAt) !in s.jobs)
      && (v == HumanReview <==> e.run.status in {Blocked, NeedsHumanReview} && !m.publishFails)
      && (v == Unannounced <==> e.run.status in {Blocked, NeedsHumanReview} && m.publishFails)
      && v in {Enqueued, HumanReview, Unannounced, EnqueueFailed}
  {
  }

  lemma RestoreDoes(s: Store, e: Entry)
    requires Awaits(s, e)
    ensures RestoreToPreSweep(s, e) == s.(runs := s.runs[e.uuid := Reset(s.runs[e.uuid])])
  {
  }

  ghost predicate OneSwept(s: Store, e: Entry, queued: set<Uuid>, moment: Uuid -> Moment, t: Store, v: Verdict) {
    && RunSwept(s, e, v, t) && t.phases == s.phases && t.runs == s.runs[e.uuid := t.runs[e.uuid]]
    && JobsSwept(s, queued, moment, t) && LeasesSwept(s, t)
    && (forall j :: j in t.jobs && j !in s.jobs ==> j == OrphanJob(e.uuid, moment(e.uuid).jobAt))
    && VerdictFits(s, e, queued, moment(e.uuid), v, t)
  }

  lemma RestoredIsSwept(s: Store, e: Entry, queued: set<Uuid>, moment: Uuid -> Moment, v: Verdict)
    requires Awaits(s, e) && v in {LeaseConflict, AlreadyQueued, AcquireFailed}
    requires Turned(s, e, queued, moment(e.uuid))
    ensures OneSwept(s, e, queued, moment, RestoreToPreSweep(s, e), v)
  {
    RestoreDoes(s, e);
  }

  lemma RecoveredIsSwept(s: Store, e: Entry, queued: set<Uuid>, moment: Uuid -> Moment)
    requires Awaits(s, e) && e.uuid !in queued && !moment(e.uuid).acquireFails
    ensures
      var (t, v) := UnderLease(s, e, moment(e.uuid));
      OneSwept(s, e, queued, moment, t, v)
  {
    var m := moment(e.uuid);
    var lease := Lease("orphan-sweeper", e.uuid, m.acquireAt + LEASE_TTL_MS, m.token);
    RecoverDoes(s.(leases := s.leases[e.run.repo := lease]), e, m);
  }

  lemma SweepOneDoes(s: Store, e: Entry, queued: set<Uuid>, moment: Uuid -> Moment)
    requires Awaits(s, e)
    ensures
      var (t, v) := SweepOne(s, e, queued, moment(e.uuid));
      OneSwept(s, e, queued, moment, t, v)
  {
    match Refusal(s, e, queued, moment(e.uuid))
    case Some(v) => RestoredIsSwept(s, e, queued, moment, v);
    case None => RecoveredIsSwept(s, e, queued, moment);
  }

  ghost predicate Swept(s: Store, entries: seq<Entry>, queued: set<Uuid>, moment: Uuid -> Moment, t: Store, vs: seq<Verdict>) {
    && |vs| == |entries| && t.phases == s.phases && t.runs.Keys == s.runs.Keys
    && (forall u :: u in s.runs && !Has(entries, u) ==> t.runs[u] == s.runs[u])
    && (forall i :: 0 <= i < |entries| ==> RunSwept(s, entries[i], vs[i], t))
    && JobsSwept(s, queued, moment, t) && LeasesSwept(s, t)
    && (forall j :: j in t.jobs && j !in s.jobs ==> j.OrphanJob? && Has(entries, j.run))
  }

  ghost predicate VerdictsFit(s: Store, entries: seq<Entry>, queued: set<Uuid>, moment: Uuid -> Moment, t: Store, vs: seq<Verdict>) {
    |vs| == |entries| && forall i :: 0 <= i < |entries| ==> VerdictFits(s, entries[i], queued, moment(entries[i].uuid), vs[i], t)
  }

  ghost predicate DistinctUuids(entries: seq<Entry>) {
    forall i, j :: 0 <= i < j < |entries| ==> entries[i].uuid != entries[j].uuid
  }

  lemma SweptOneMore(s: Store, entries: seq<Entry>, e: Entry, queued: set<Uuid>, moment: Uuid -> Moment,
                     t: Store, vs: seq<Verdict>, t': Store, v: Verdict)
    requires Swept(s, entries, queued, moment, t, vs) && OneSwept(t, e, queued, moment, t', v)
    requires e.uuid in s.runs && !Has(entries, e.uuid)
    ensures Swept(s, entries + [e], queued, moment, t', vs + [v])
  {
    var more, vs' := entries + [e], vs + [v];
    forall u ensures Has(more, u) <==> Has(entries, u) || u == e.uuid { HasOneMore(entries, e, u); }
    forall i | 0 <= i < |more| ensures RunSwept(s, more[i], vs'[i], t') {
      if i < |entries| { assert RunSwept(s, entries[i], vs[i], t); assert Has(entries, more[i].uuid); }
    }
  }

  lemma VerdictsFitOneMore(s: Store, entries: seq<Entry>, e: Entry, queued: set<Uuid>, moment: Uuid -> Moment,
                           t: Store, vs: seq<Verdict>, t': Store, v: Verdict)
    requires Swept(s, entries, queued, moment, t, vs) && VerdictsFit(s, entries, queued, moment, t, vs)
    requires OneSwept(t, e, queued, moment, t', v) && !Has(entries, e.uuid)
    ensures VerdictsFit(s, entries + [e], queued, moment, t', vs + [v])
  {
    var more, vs' := entries + [e], vs + [v];
    forall i | 0 <= i < |more| ensures VerdictFits(s, more[i], queued, moment(more[i].uuid), vs'[i], t') {
      var id := OrphanJob(more[i].uuid, moment(more[i].uuid).jobAt);
      if i < |entries| {
        assert Has(entries, more[i].uuid);
        assert VerdictFits(s, entries[i], queued, moment(entries[i].uuid), vs[i], t);
        assert id in t'.jobs <==> id in t.jobs;
      } else {
        assert id in t.jobs <==> id in s.jobs;
      }
    }
  }

  lemma {:induction false} SweepDoes(s: Store, entries: seq<Entry>, queued: set<Uuid>, moment: Uuid -> Moment)
    requires DistinctUuids(entries) && forall i :: 0 <= i < |entries| ==> Awaits(s, entries[i])
    ensures
      var (t, vs) := Sweep(s, entries, queued, moment);
      Swept(s, entries, queued, moment, t, vs) && VerdictsFit(s, entries, queued, moment, t, vs)
  {
    if entries != [] {
      var n := |entries| - 1;
      var e := entries[n];
      SweepDoes(s, entries[..n], queued, moment);
      var (t, vs) := Sweep(s, entries[..n], queued, moment);
      assert Awaits(s, e) && !Has(entries[..n], e.uuid);
      SweepOneDoes(t, e, queued, moment);
      var (t', v) := SweepOne(t, e, queued, moment(e.uuid));
      SweptOneMore(s, entries[..n], e, queued, moment, t, vs, t', v);
      VerdictsFitOneMore(s, entries[..n], e, queued, moment, t, vs, t', v);
      assert entries[..n] + [e] == entries;
    }
  }

  // ---------------------------------------------------------------- a whole tick

  /** What a tick makes of one run. */
  ghost predicate RunTicked(s: Store, u: Uuid, alive: Uuid -> bool, at: Uuid -> int, t: Store)
    requires u in s.runs
  {
    && u in t.runs
    && (!IsOrphan(s.runs[u], alive(u)) ==> t.runs[u] == s.runs[u])
    && (IsOrphan(s.runs[u], alive(u)) ==>
          || t.runs[u] == Reset(s.runs[u])
          || (t.runs[u] == Scanned(s, u, alive, at) && t.runs[u].status in {Blocked, NeedsHumanReview}))
  }

  lemma RunAfterTick(s: Store, order: seq<Uuid>, alive: Uuid -> bool, at: Uuid -> int, moment: Uuid -> Moment, u: Uuid)
    requires ListsActive(s, order) && u in s.runs
    ensures RunTicked(s, u, alive, at, Tick(s, order, alive, at, moment).0)
  {
    ScanDoes(s, order, alive, at);
    var (mid, entries) := Scan(s, order, alive, at);
    EntriesAwait(s, order, alive, at);
    SweepDoes(mid, entries, QueuedRuns(mid), moment);
    if Has(entries, u) {
      var i :| 0 <= i < |entries| && entries[i].uuid == u;
      var vs := Sweep(mid, entries, QueuedRuns(mid), moment).1;
      assert RunSwept(mid, entries[i], vs[i], Tick(s, order, alive, at, moment).0);
      assert IsEntry(s, entries[i], alive, at);
    }
  }

  lemma EntriesAwait(s: Store, order: seq<Uuid>, alive: Uuid -> bool, at: Uuid -> int)
    requires ListsActive(s, order)
    ensures
      var (mid, entries) := Scan(s, order, alive, at);
      DistinctUuids(entries) && forall i :: 0 <= i < |entries| ==> Awaits(mid, entries[i])
  {
    ScanDoes(s, order, alive, at);
    var (mid, entries) := Scan(s, order, alive, at);
    forall i | 0 <= i < |entries| ensures Awaits(mid, entries[i]) {
      assert IsEntry(s, entries[i], alive, at);
    }
  }

  lemma LeasesAfterTick(s: Store, order: seq<Uuid>, alive: Uuid -> bool, at: Uuid -> int, moment: Uuid -> Moment)
    requires ListsActive(s, order)
    ensures
      var t := Tick(s, order, alive, at, moment).0;
      t.runs.Keys == s.runs.Keys && LeasesSwept(s, t)
  {
    ScanDoes(s, order, alive, at);
    var (mid, entries) := Scan(s, order, alive, at);
    EntriesAwait(s, order, alive, at);
    LeasesAfterSweep(mid, entries, QueuedRuns(mid), moment);
  }

  lemma LeasesAfterSweep(s: Store, entries: seq<Entry>, queued: set<Uuid>, moment: Uuid -> Moment)
    requires DistinctUuids(entries) && forall i :: 0 <= i < |entries| ==> Awaits(s, entries[i])
    ensures
      var t := Sweep(s, entries, queued, moment).0;
      t.runs.Keys == s.runs.Keys && LeasesSwept(s, t)
  {
    SweepDoes(s, entries, queued, moment);
  }

  /**
   What a tick makes of one run. Other runs than orphans stay; an orphan is running again with its outcome
   cleared, or it waits for a human exactly as its latest phase ended, with its own reason if it has one.
   */
  lemma OutcomeTheorem(s: Store, order: seq<Uuid>, alive: Uuid -> bool, at: Uuid -> int, moment: Uuid -> Moment, u: Uuid)
    requires ListsActive(s, order) && u in s.runs
    ensures
      var t, run := Tick(s, order, alive, at, moment).0, s.runs[u];
      var orphan := run.status == Running && run.pid.Some? && !alive(u);
      var ps := if u in s.phases then s.phases[u] else [];
      && u in t.runs && (!orphan ==> t.runs[u] == run)
      && (orphan ==>
            || t.runs[u] == run.(completedAt := None, failureReason := None, currentPhase := None)
            || (EndedWith(ps, PhaseBlocked) && t.runs[u] == WaitingRecord(run, Blocked, at(u)))
            || (EndedWith(ps, PhaseNeedsHumanReview) && t.runs[u] == WaitingRecord(run, NeedsHumanReview, at(u))))
  {
    RunAfterTick(s, order, alive, at, moment, u);
    InferredExactly(PhasesOf(s, u));
  }

  /** The record of an orphan that is left to a human. */
  function WaitingRecord(run: Run, status: RunStatus, now: int): Run
    requires run.pid.Some?
  {
    run.(status := status, completedAt := Some(now), currentPhase := None,
         failureReason := if run.failureReason.Some? then run.failureReason else Some(Orphaned(run.pid.value)))
  }

  /** An orphan whose latest phase asks for a human gets no job, and is left to the human whenever the sweeper gets its lease. */
  lemma HumanOrphanWaits(s: Store, order: seq<Uuid>, alive: Uuid -> bool, at: Uuid -> int, moment: Uuid -> Moment, u: Uuid)
    requires ListsActive(s, order) && u in s.runs && s.runs[u].status == Running && s.runs[u].pid.Some? && !alive(u)
    requires
      var ps := if u in s.phases then s.phases[u] else [];
      EndedWith(ps, PhaseBlocked) || EndedWith(ps, PhaseNeedsHumanReview)
    ensures
      var t, run := Tick(s, order, alive, at, moment).0, s.runs[u];
      ActiveJobs(t, u) == ActiveJobs(s, u)
    ensures
      var t, m, r := Tick(s, order, alive, at, moment).0, moment(u), s.runs[u].repo;
      var ps := if u in s.phases then s.phases[u] else [];
      var free := r in s.leases ==>
        && s.leases[r].expiresAt <= m.checkAt
        && (s.leases[r].expiresAt <= m.acquireAt || (s.leases[r].worker == "orphan-sweeper" && s.leases[r].run == u));
      && u in t.runs
      && (free && ActiveJobs(s, u) == {} && !m.acquireFails ==>
            t.runs[u] == WaitingRecord(s.runs[u], if EndedWith(ps, PhaseBlocked) then Blocked else NeedsHumanReview, at(u)))
      && (ActiveJobs(s, u) != {} || m.acquireFails ==> t.runs[u].status == Running)
  {
    InferredExactly(PhasesOf(s, u));
    TickAddsFirstJobs(s, order, alive, at, moment, u);
    HumanVerdict(s, order, alive, at, moment, u);
    QueuedMeansActive(s, u);
  }

  lemma HumanVerdict(s: Store, order: seq<Uuid>, alive: Uuid -> bool, at: Uuid -> int, moment: Uuid -> Moment, u: Uuid)
    requires ListsActive(s, order) && u in s.runs && IsOrphan(s.runs[u], alive(u)) && Inferred(PhasesOf(s, u)) != Failed
    ensures
      var t, m, r := Tick(s, order, alive, at, moment).0, moment(u), s.runs[u].repo;
      && u in t.runs
      && (!LeaseActive(s, r, m.checkAt) && Acquirable(s.leases, r, "orphan-sweeper", u, m.acquireAt) && u !in QueuedRuns(s) && !m.acquireFails ==>
            t.runs[u] == Scanned(s, u, alive, at))
      && (u in QueuedRuns(s) || m.acquireFails ==> t.runs[u] == Reset(s.runs[u]))
  {
    var (mid, entries) := Scan(s, order, alive, at);
    var i := OrphanHasEntry(s, order, alive, at, u);
    EntriesAwait(s, order, alive, at);
    SweepDoes(mid, entries, QueuedRuns(mid), moment);
    var (t, vs) := Sweep(mid, entries, QueuedRuns(mid), moment);
    assert VerdictFits(mid, entries[i], QueuedRuns(mid), moment(u), vs[i], t);
    assert RunSwept(mid, entries[i], vs[i], t);
    assert QueuedRuns(mid) == QueuedRuns(s);
  }

  /** No run is left failed by a tick that was not failed before it, and all sweep leases are gone. */
  lemma TickTheorem(s: Store, order: seq<Uuid>, alive: Uuid -> bool, at: Uuid -> int, moment: Uuid -> Moment)
    requires ListsActive(s, order)
    ensures
      var t := Tick(s, order, alive, at, moment).0;
      && t.runs.Keys == s.runs.Keys
      && (forall u :: u in s.runs ==> RunTicked(s, u, alive, at, t))
      && (forall u :: u in s.runs && t.runs[u].status == Failed ==> s.runs[u].status == Failed)
      && LeasesSwept(s, t)
  {
    LeasesAfterTick(s, order, alive, at, moment);
    forall u | u in s.runs ensures RunTicked(s, u, alive, at, Tick(s, order, alive, at, moment).0) {
      RunAfterTick(s, order, alive, at, moment, u);
    }
  }

  /** A tick makes a job only for an orphan that had no active job at all, and then exactly one. */
  lemma TickAddsFirstJobs(s: Store, order: seq<Uuid>, alive: Uuid -> bool, at: Uuid -> int, moment: Uuid -> Moment, u: Uuid)
    requires ListsActive(s, order)
    ensures
      var t := Tick(s, order, alive, at, moment).0;
      || ActiveJobs(t, u) == ActiveJobs(s, u)
      || (ActiveJobs(s, u) == {} && ActiveJobs(t, u) == {OrphanJob(u, moment(u).jobAt)} && Requeued(s, u, alive, t))
  {
    ScanDoes(s, order, alive, at);
    var (mid, entries) := Scan(s, order, alive, at);
    EntriesAwait(s, order, alive, at);
    SweepDoes(mid, entries, QueuedRuns(mid), moment);
    var (t, vs) := Sweep(mid, entries, QueuedRuns(mid), moment);
    var made := OrphanJob(u, moment(u).jobAt);
    if made in t.jobs && made !in s.jobs {
      var i :| 0 <= i < |entries| && entries[i].uuid == u;
      MadeForRequeued(s, entries[i], alive, at, moment, mid, vs[i], t);
    }
    JobsOfRun(s, QueuedRuns(s), moment, t, u);
  }

  /** An orphan whose latest phase asks for no human, running again with its outcome cleared. */
  ghost predicate Requeued(s: Store, u: Uuid, alive: Uuid -> bool, t: Store) {
    && u in s.runs && s.runs[u].status == Running && s.runs[u].pid.Some? && !alive(u)
    && var ps := if u in s.phases then s.phases[u] else [];
    && !EndedWith(ps, PhaseBlocked) && !EndedWith(ps, PhaseNeedsHumanReview)
    && u in t.runs && t.runs[u] == s.runs[u].(completedAt := None, failureReason := None, currentPhase := None)
  }

  lemma MadeForRequeued(s: Store, e: Entry, alive: Uuid -> bool, at: Uuid -> int, moment: Uuid -> Moment,
                        mid: Store, v: Verdict, t: Store)
    requires IsEntry(s, e, alive, at) && e.uuid in mid.runs && mid.runs[e.uuid] == Scanned(s, e.uuid, alive, at)
    requires mid.jobs == s.jobs && RunSwept(mid, e, v, t)
    requires VerdictFits(mid, e, QueuedRuns(mid), moment(e.uuid), v, t)
    requires OrphanJob(e.uuid, moment(e.uuid).jobAt) in t.jobs && OrphanJob(e.uuid, moment(e.uuid).jobAt) !in s.jobs
    ensures Requeued(s, e.uuid, alive, t)
  {
    InferredExactly(PhasesOf(s, e.uuid));
  }

  lemma JobsOfRun(s: Store, queued: set<Uuid>, moment: Uuid -> Moment, t: Store, u: Uuid)
    requires JobsSwept(s, queued, moment, t) && queued == QueuedRuns(s)
    ensures
      var made := OrphanJob(u, moment(u).jobAt);
      if made in t.jobs && made !in s.jobs then ActiveJobs(s, u) == {} && ActiveJobs(t, u) == {made}
      else ActiveJobs(t, u) == ActiveJobs(s, u)
  {
    QueuedMeansActive(s, u);
    var made := OrphanJob(u, moment(u).jobAt);
    forall j | j in ActiveJobs(t, u) ensures j in ActiveJobs(s, u) || j == made {
    }
    forall j | j in ActiveJobs(s, u) ensures j in ActiveJobs(t, u) {
    }
    if made in t.jobs && made !in s.jobs {
      assert made in ActiveJobs(t, u);
    }
  }

  lemma QueuedMeansActive(s: Store, u: Uuid)
    ensures u in QueuedRuns(s) <==> ActiveJobs(s, u) != {}
  {
    if u in QueuedRuns(s) {
      var j :| j in s.jobs && s.jobs[j].active && s.jobs[j].runId == u;
      assert j in ActiveJobs(s, u);
    }
    if ActiveJobs(s, u) != {} {
      var j :| j in ActiveJobs(s, u);
      assert s.jobs[j].runId in QueuedRuns(s);
    }
  }

  /** An orphan without obstacles gets its job in the very next tick. */
  lemma UnobstructedOrphanIsQueued(s: Store, order: seq<Uuid>, alive: Uuid -> bool, at: Uuid -> int, moment: Uuid -> Moment, u: Uuid)
    requires ListsActive(s, order) && u in s.runs && s.runs[u].status == Running && s.runs[u].pid.Some? && !alive(u)
    requires
      var ps := if u in s.phases then s.phases[u] else [];
      !EndedWith(ps, PhaseBlocked) && !EndedWith(ps, PhaseNeedsHumanReview)
    requires
      var m, r := moment(u), s.runs[u].repo;
      r in s.leases ==>
        && s.leases[r].expiresAt <= m.checkAt
        && (s.leases[r].expiresAt <= m.acquireAt || (s.leases[r].worker == "orphan-sweeper" && s.leases[r].run == u))
    requires ActiveJobs(s, u) == {} && OrphanJob(u, moment(u).jobAt) !in s.jobs
    requires !moment(u).acquireFails && !moment(u).publishFails && !moment(u).enqueueFails
    ensures OrphanJob(u, moment(u).jobAt) in ActiveJobs(Tick(s, order, alive, at, moment).0, u)
  {
    InferredExactly(PhasesOf(s, u));
    FailedOrphanIsQueued(s, order, alive, at, moment, u);
  }

  lemma FailedOrphanIsQueued(s: Store, order: seq<Uuid>, alive: Uuid -> bool, at: Uuid -> int, moment: Uuid -> Moment, u: Uuid)
    requires ListsActive(s, order) && u in s.runs && IsOrphan(s.runs[u], alive(u))
    requires Inferred(PhasesOf(s, u)) == Failed
    requires !LeaseActive(s, s.runs[u].repo, moment(u).checkAt)
    requires Acquirable(s.leases, s.runs[u].repo, "orphan-sweeper", u, moment(u).acquireAt)
    requires ActiveJobs(s, u) == {} && OrphanJob(u, moment(u).jobAt) !in s.jobs
    requires !moment(u).acquireFails && !moment(u).publishFails && !moment(u).enqueueFails
    ensures OrphanJob(u, moment(u).jobAt) in ActiveJobs(Tick(s, order, alive, at, moment).0, u)
  {
    var (mid, entries) := Scan(s, order, alive, at);
    var i := OrphanHasEntry(s, order, alive, at, u);
    EntriesAwait(s, order, alive, at);
    SweepDoes(mid, entries, QueuedRuns(mid), moment);
    var (t, vs) := Sweep(mid, entries, QueuedRuns(mid), moment);
    QueuedMeansActive(s, u);
    NothingObstructs(s, mid, entries[i], moment(u));
    assert VerdictFits(mid, entries[i], QueuedRuns(mid), moment(u), vs[i], t);
  }

  lemma OrphanHasEntry(s: Store, order: seq<Uuid>, alive: Uuid -> bool, at: Uuid -> int, u: Uuid) returns (i: nat)
    requires ListsActive(s, order) && u in s.runs && IsOrphan(s.runs[u], alive(u))
    ensures
      var (mid, entries) := Scan(s, order, alive, at);
      && i < |entries| && entries[i].uuid == u && IsEntry(s, entries[i], alive, at)
      && mid.jobs == s.jobs && mid.leases == s.leases && u in mid.runs && mid.runs[u] == Scanned(s, u, alive, at)
  {
    ScanDoes(s, order, alive, at);
    var entries := Scan(s, order, alive, at).1;
    assert u in order;
    i :| 0 <= i < |entries| && entries[i].uuid == u;
  }

  lemma NothingObstructs(s: Store, mid: Store, e: Entry, m: Moment)
    requires mid.jobs == s.jobs && mid.leases == s.leases && e.uuid !in QueuedRuns(s)
    requires !LeaseActive(s, e.run.repo, m.checkAt) && Acquirable(s.leases, e.run.repo, "orphan-sweeper", e.uuid, m.acquireAt)
    requires OrphanJob(e.uuid, m.jobAt) !in s.jobs && !m.acquireFails && !m.publishFails && !m.enqueueFails
    ensures !Obstructed(mid, e, QueuedRuns(mid), m)
  {
  }

  lemma {:induction false} HeldThroughSweep(s: Store, entries: seq<Entry>, queued: set<Uuid>, moment: Uuid -> Moment, r: RepoId)
    requires r in s.leases
    requires forall i :: 0 <= i < |entries| && entries[i].run.repo == r ==> moment(entries[i].uuid).checkAt < s.leases[r].expiresAt
    ensures
      var (t, vs) := Sweep(s, entries, queued, moment);
      && r in t.leases && t.leases[r] == s.leases[r] && |vs| == |entries|
      && forall i :: 0 <= i < |entries| && entries[i].run.repo == r ==> vs[i] == LeaseConflict
  {
    if entries != [] {
      var n := |entries| - 1;
      HeldThroughSweep(s, entries[..n], queued, moment, r);
      var (t, vs) := Sweep(s, entries[..n], queued, moment);
      RefusalExactly(t, entries[n], queued, moment(entries[n].uuid));
      SweepOneLeases(t, entries[n], queued, moment(entries[n].uuid));
    }
  }

  /** A sweep of one entry touches no lease but that of its own repository, and that one only if it gets it. */
  lemma SweepOneLeases(s: Store, e: Entry, queued: set<Uuid>, m: Moment)
    ensures
      var t := SweepOne(s, e, queued, m).0;
      t.leases == if Refusal(s, e, queued, m).Some? then s.leases else s.leases - {e.run.repo}
  {
    if Refusal(s, e, queued, m).None? {
      var lease := Lease("orphan-sweeper", e.uuid, m.acquireAt + LEASE_TTL_MS, m.token);
      assert s.leases[e.run.repo := lease] - {e.run.repo} == s.leases - {e.run.repo};
    }
  }

  /** The repository's lease is live whenever the sweeper looks at one of its runs. */
  ghost predicate HeldThroughout(s: Store, r: RepoId, moment: Uuid -> Moment) {
    r in s.leases && forall v :: v in s.runs && s.runs[v].repo == r ==> s.leases[r].expiresAt > moment(v).checkAt
  }

  lemma HeldVerdicts(s: Store, order: seq<Uuid>, alive: Uuid -> bool, at: Uuid -> int, moment: Uuid -> Moment, r: RepoId)
    requires ListsActive(s, order) && HeldThroughout(s, r, moment)
    ensures
      var (mid, entries) := Scan(s, order, alive, at);
      var (t, vs) := Sweep(mid, entries, QueuedRuns(mid), moment);
      && r in t.leases && t.leases[r] == s.leases[r] && |vs| == |entries|
      && forall i :: 0 <= i < |entries| && entries[i].run.repo == r ==> vs[i] == LeaseConflict
  {
    ScanDoes(s, order, alive, at);
    var (mid, entries) := Scan(s, order, alive, at);
    forall i | 0 <= i < |entries| && entries[i].run.repo == r ensures moment(entries[i].uuid).checkAt < mid.leases[r].expiresAt {
      assert IsEntry(s, entries[i], alive, at);
    }
    HeldThroughSweep(mid, entries, QueuedRuns(mid), moment, r);
  }

  lemma HeldOrphan(s: Store, order: seq<Uuid>, alive: Uuid -> bool, at: Uuid -> int, moment: Uuid -> Moment, u: Uuid)
    requires ListsActive(s, order) && u in s.runs && IsOrphan(s.runs[u], alive(u)) && HeldThroughout(s, s.runs[u].repo, moment)
    ensures
      var t := Tick(s, order, alive, at, moment).0;
      u in t.runs && t.runs[u] == Reset(s.runs[u]) && ActiveJobs(t, u) == ActiveJobs(s, u)
  {
    var (mid, entries) := Scan(s, order, alive, at);
    var i := OrphanHasEntry(s, order, alive, at, u);
    HeldVerdicts(s, order, alive, at, moment, s.runs[u].repo);
    EntriesAwait(s, order, alive, at);
    SweepDoes(mid, entries, QueuedRuns(mid), moment);
    var (t, vs) := Sweep(mid, entries, QueuedRuns(mid), moment);
    assert VerdictFits(mid, entries[i], QueuedRuns(mid), moment(u), vs[i], t);
    assert RunSwept(mid, entries[i], vs[i], t);
    JobsOfRun(mid, QueuedRuns(mid), moment, t, u);
    assert ActiveJobs(mid, u) == ActiveJobs(s, u);
  }

  /** While another worker holds the repository, its orphans run on: none gets a job or is left to a human, and the lease stays. */
  lemma HeldRepositoryIsLeftAlone(s: Store, order: seq<Uuid>, alive: Uuid -> bool, at: Uuid -> int, moment: Uuid -> Moment, u: Uuid)
    requires ListsActive(s, order) && u in s.runs && HeldThroughout(s, s.runs[u].repo, moment)
    ensures
      var t, run := Tick(s, order, alive, at, moment).0, s.runs[u];
      && u in t.runs && t.runs[u].status == run.status && ActiveJobs(t, u) == ActiveJobs(s, u)
      && run.repo in t.leases && t.leases[run.repo] == s.leases[run.repo]
  {
    HeldVerdicts(s, order, alive, at, moment, s.runs[u].repo);
    if IsOrphan(s.runs[u], alive(u)) {
      HeldOrphan(s, order, alive, at, moment, u);
    } else {
      RunAfterTick(s, order, alive, at, moment, u);
      TickAddsFirstJobs(s, order, alive, at, moment, u);
    }
  }

  // ---------------------------------------------------------------- many ticks

  datatype Event =
    | OrphanTick(order: seq<Uuid>, alive: Uuid -> bool, at: Uuid -> int, moment: Uuid -> Moment)
    | Outside(after: Store)

  /** The outside may do anything to the store except make or revive a job of the sweep. */
  ghost predicate Enabled(s: Store, e: Event) {
    match e
    case OrphanTick(order, _, _, _) => ListsActive(s, order)
    case Outside(t) =>
      forall j :: j in t.jobs && j.OrphanJob? && t.jobs[j].active ==> j in s.jobs && t.jobs[j] == s.jobs[j]
  }

  ghost function Step(s: Store, e: Event): Store {
    if !Enabled(s, e) then s else
    match e
    case OrphanTick(order, alive, at, moment) => Tick(s, order, alive, at, moment).0
    case Outside(t) => t
  }

  ghost function RunAll(s: Store, es: seq<Event>): Store {
    if es == [] then s else Step(RunAll(s, es[..|es| - 1]), es[|es| - 1])
  }

  ghost predicate OneSweepJob(s: Store) {
    forall u, i, j :: i in ActiveJobs(s, u) && j in ActiveJobs(s, u) && i.OrphanJob? && j.OrphanJob? ==> i == j
  }

  lemma StepKeepsOne(s: Store, e: Event)
    requires OneSweepJob(s)
    ensures OneSweepJob(Step(s, e))
  {
    if e.OrphanTick? && Enabled(s, e) {
      var t := Step(s, e);
      forall u, i, j | i in ActiveJobs(t, u) && j in ActiveJobs(t, u) && i.OrphanJob? && j.OrphanJob?
        ensures i == j
      {
        TickAddsFirstJobs(s, e.order, e.alive, e.at, e.moment, u);
      }
    } else if e.Outside? && Enabled(s, e) {
      assert forall u, j :: j in ActiveJobs(e.after, u) && j.OrphanJob? ==> j in ActiveJobs(s, u);
    }
  }

  /** Over any number of ticks, whatever happens between them, a run has at most one active job from sweeping. */
  lemma {:induction false} OneSweepJobTheorem(s: Store, es: seq<Event>)
    requires OneSweepJob(s)
    ensures OneSweepJob(RunAll(s, es))
  {
    if es != [] {
      OneSweepJobTheorem(s, es[..|es| - 1]);
      StepKeepsOne(RunAll(s, es[..|es| - 1]), es[|es| - 1]);
    }
  }

  // ---------------------------------------------------------------- the counters

  datatype Result = Result(scanned: nat, enqueued: nat, skippedLeaseConflict: nat, skippedAlreadyQueued: nat, enqueueErrors: seq<Uuid>)

  predicate IsError(v: Verdict) { v in {AcquireFailed, Unannounced, Refused, EnqueueFailed} }

  function Count(vs: seq<Verdict>, which: set<Verdict>): nat {
    if vs == [] then 0 else Count(vs[..|vs| - 1], which) + if vs[|vs| - 1] in which then 1 else 0
  }

  ghost predicate Tallies(r: Result, entries: seq<Entry>, vs: seq<Verdict>) {
    && |vs| == |entries|
    && r.enqueued == Count(vs, {Enqueued}) && r.skippedLeaseConflict == Count(vs, {LeaseConflict})
    && r.skippedAlreadyQueued == Count(vs, {AlreadyQueued})
    && |r.enqueueErrors| == Count(vs, {AcquireFailed, Unannounced, Refused, EnqueueFailed})
    && (forall u :: u in r.enqueueErrors ==> Has(entries, u))
  }

  lemma {:induction false} CountsPartition(vs: seq<Verdict>)
    ensures Count(vs, {Enqueued}) + Count(vs, {LeaseConflict}) + Count(vs, {AlreadyQueued})
      + Count(vs, {AcquireFailed, Unannounced, Refused, EnqueueFailed}) + Count(vs, {HumanReview, Missed}) == |vs|
  {
    if vs != [] {
      CountsPartition(vs[..|vs| - 1]);
      var v := vs[|vs| - 1];
      match v {
        case LeaseConflict => case AlreadyQueued => case AcquireFailed => case HumanReview => case Unannounced =>
        case Missed => case Refused => case Enqueued => case EnqueueFailed =>
      }
    }
  }

  lemma {:induction false} CountWithout(vs: seq<Verdict>)
    requires forall i :: 0 <= i < |vs| ==> vs[i] != Missed
    ensures Count(vs, {HumanReview, Missed}) == Count(vs, {HumanReview})
  {
    if vs != [] { CountWithout(vs[..|vs| - 1]); }
  }

  /** In a tick every entry is in exactly one counter, except those announced to a human. */
  lemma CountersConserve(s: Store, order: seq<Uuid>, alive: Uuid -> bool, at: Uuid -> int, moment: Uuid -> Moment, r: Result)
    requires ListsActive(s, order)
    requires
      var (_, entries, vs) := Tick(s, order, alive, at, moment);
      Tallies(r, entries, vs) && r.scanned == |entries|
    ensures
      var (_, _, vs) := Tick(s, order, alive, at, moment);
      r.enqueued + r.skippedLeaseConflict + r.skippedAlreadyQueued + |r.enqueueErrors| + Count(vs, {HumanReview}) == r.scanned
  {
    EntriesAwait(s, order, alive, at);
    var (mid, entries) := Scan(s, order, alive, at);
    SweepDoes(mid, entries, QueuedRuns(mid), moment);
    var (t, vs) := Sweep(mid, entries, QueuedRuns(mid), moment);
    forall i | 0 <= i < |vs| ensures vs[i] != Missed { assert RunSwept(mid, entries[i], vs[i], t); }
    CountsPartition(vs);
    CountWithout(vs);
  }

  // ---------------------------------------------------------------- the two use cases over one store

  class OrphanSweeper {
    var runs: map<Uuid, Run>
    var phases: map<Uuid, seq<Phase>>
    var jobs: map<JobId, Job>
    var leases: map<RepoId, Lease>

    ghost function View(): (s: Store)
      reads this
    {
      Store(runs, phases, jobs, leases)
    }

    method AtomicUpdateByUuid(u: Uuid, expected: RunStatus, status: RunStatus, completedAt: Option<int>, reason: Option<Reason>)
      returns (updated: bool)
      modifies this
      ensures (View(), updated) == CompareAndSet(old(View()), u, expected, status, completedAt, reason)
    {
      updated := u in runs && runs[u].status == expected;
      if updated { runs := runs[u := Patched(runs[u], status, completedAt, reason)]; }
    }

    method ReconcileRun(u: Uuid, run: Run, alive: bool, now: int) returns (entry: Option<Entry>)
      modifies this
      ensures (View(), entry) == Reconcile(old(View()), u, run, alive, now)
    {
      if run.status != Running || run.pid.None? || alive { return None; }
      var status := Inferred(if u in phases then phases[u] else []);
      var reason := SweptReason(run, status);
      var updated := AtomicUpdateByUuid(u, Running, status, Some(now), reason);
      if !updated { return None; }
      entry := Some(Entry(u, Patched(run, status, Some(now), reason), run.pid.value, run.status));
    }

    /** SweepOrphanedRuns.execute; `order` is the list of active runs and `before` their records. */
    method ScanActive(order: seq<Uuid>, alive: Uuid -> bool, at: Uuid -> int) returns (entries: seq<Entry>)
      requires forall u :: u in order ==> u in runs
      modifies this
      ensures (View(), entries) == Scan(old(View()), order, alive, at)
    {
      var before := runs;
      entries := [];
      for i := 0 to |order|
        invariant (View(), entries) == Scan(old(View()), order[..i], alive, at)
      {
        var u := order[i];
        var entry := ReconcileRun(u, before[u], alive(u), at(u));
        if entry.Some? { entries := entries + [entry.value]; }
        assert order[..i + 1][..i] == order[..i];
      }
      assert order[..|order|] == order;
    }

    method RestoreRunToPreSweep(e: Entry)
      modifies this
      ensures View() == RestoreToPreSweep(old(View()), e)
    {
      var _ := AtomicUpdateByUuid(e.uuid, e.run.status, e.previousStatus, None, None);
    }

    method RecoverEntry(e: Entry, m: Moment) returns (v: Verdict)
      modifies this
      ensures (View(), v) == Recover(old(View()), e, m)
    {
      if e.run.status == Blocked || e.run.status == NeedsHumanReview {
        return if m.publishFails then Unannounced else HumanReview;
      }
      if !CanResume(e.run.status) { return Refused; }
      var updated := AtomicUpdateByUuid(e.uuid, e.run.status, Running, None, None);
      if !updated { return Missed; }
      var id := OrphanJob(e.uuid, m.jobAt);
      if m.publishFails || m.enqueueFails || id in jobs {
        var _ := AtomicUpdateByUuid(e.uuid, Running, e.previousStatus, None, None);
        return EnqueueFailed;
      }
      jobs := jobs[id := Job(e.uuid, true)];
      v := Enqueued;
    }

    method Refuses(e: Entry, queued: set<Uuid>, m: Moment) returns (why: Option<Verdict>)
      ensures why == Refusal(View(), e, queued, m)
    {
      var r := e.run.repo;
      if r in leases && leases[r].expiresAt > m.checkAt { return Some(LeaseConflict); }
      if e.uuid in queued { return Some(AlreadyQueued); }
      if m.acquireFails { return Some(AcquireFailed); }
      if !Acquirable(leases, r, "orphan-sweeper", e.uuid, m.acquireAt) { return Some(LeaseConflict); }
      why := None;
    }

    method SweepEntry(e: Entry, queued: set<Uuid>, m: Moment) returns (v: Verdict)
      modifies this
      ensures (View(), v) == SweepOne(old(View()), e, queued, m)
    {
      var why := Refuses(e, queued, m);
      if why.Some? {
        RestoreRunToPreSweep(e);
        return why.value;
      }
      v := RecoverUnderLease(e, m);
    }

    method RecoverUnderLease(e: Entry, m: Moment) returns (v: Verdict)
      modifies this
      ensures (View(), v) == UnderLease(old(View()), e, m)
    {
      leases := leases[e.run.repo := Lease("orphan-sweeper", e.uuid, m.acquireAt + LEASE_TTL_MS, m.token)];
      v := RecoverEntry(e, m);
      leases := leases - {e.run.repo};
    }

    /** OrphanedRunsSweeper.execute with its counters. */
    method Execute(entries: seq<Entry>, moment: Uuid -> Moment) returns (r: Result, ghost vs: seq<Verdict>)
      modifies this
      ensures (View(), vs) == Sweep(old(View()), entries, QueuedRuns(old(View())), moment)
      ensures Tallies(r, entries, vs) && r.scanned == |entries|
    {
      var queued := set j | j in jobs && jobs[j].active :: jobs[j].runId;
      var enqueued, conflicts, already, errors: seq<Uuid> := 0, 0, 0, [];
      vs := [];
      assert entries[..0] == [];
      for i := 0 to |entries|
        invariant (View(), vs) == Sweep(old(View()), entries[..i], queued, moment)
        invariant enqueued >= 0 && conflicts >= 0 && already >= 0
        invariant Tallies(Result(i, enqueued, conflicts, already, errors), entries[..i], vs)
      {
        var e := entries[i];
        var v := SweepEntry(e, queued, moment(e.uuid));
        TallyOneMore(Result(i, enqueued, conflicts, already, errors), entries[..i], vs, e, v);
        if v == Enqueued { enqueued := enqueued + 1; }
        if v == LeaseConflict { conflicts := conflicts + 1; }
        if v == AlreadyQueued { already := already + 1; }
        if IsError(v) { errors := errors + [e.uuid]; }
        vs := vs + [v];
        assert entries[..i + 1][..i] == entries[..i] && entries[..i + 1] == entries[..i] + [e];
      }
      assert entries[..|entries|] == entries;
      r := Result(|entries|, enqueued, conflicts, already, errors);
    }

    /** A whole tick: scan, then sweep what the scan found. */
    method TickOnce(order: seq<Uuid>, alive: Uuid -> bool, at: Uuid -> int, moment: Uuid -> Moment) returns (r: Result)
      requires ListsActive(View(), order)
      modifies this
      ensures View() == Tick(old(View()), order, alive, at, moment).0
      ensures forall u :: u in runs && runs[u].status == Failed ==> u in old(runs) && old(runs[u].status) == Failed
      ensures LeasesSwept(old(View()), View())
    {
      TickTheorem(View(), order, alive, at, moment);
      var entries := ScanActive(order, alive, at);
      ghost var vs;
      r, vs := Execute(entries, moment);
    }
  }

  lemma TallyOneMore(r: Result, entries: seq<Entry>, vs: seq<Verdict>, e: Entry, v: Verdict)
    requires Tallies(r, entries, vs)
    ensures Tallies(Result(r.scanned, r.enqueued + (if v == Enqueued then 1 else 0),
                           r.skippedLeaseConflict + (if v == LeaseConflict then 1 else 0),
                           r.skippedAlreadyQueued + (if v == AlreadyQueued then 1 else 0),
                           if IsError(v) then r.enqueueErrors + [e.uuid] else r.enqueueErrors),
                    entries + [e], vs + [v])
  {
    assert (vs + [v])[..|vs|] == vs;
    forall u ensures Has(entries + [e], u) <==> Has(entries, u) || u == e.uuid { HasOneMore(entries, e, u); }
  }
}
