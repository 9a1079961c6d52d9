/**
 Release batches: the item transitions, the store a reconciliation writes to, and what every
 sequence of writes keeps. An item's position is its index plus one.
 */
module ReleaseBatch {
  import opened Prelude
  import RunRecords

  type Sha = string
  type Uuid = nat
  type RunStatus = RunRecords.RunStatus

  datatype ItemStatus = Pending | Active | WaitingMerge | Merged | Blocked

  datatype BlockReason =
    | EnvironmentUnhealthy | BaseShaUnresolvable | RunFailed | RunBlocked | RunCancelled | NeedsHumanReview
    | PrBaseMismatch | PrClosedUnmerged | AutoMergeUnavailable | CiFailed | OtherReason(text: string)

  datatype Item = Item(issue: nat, status: ItemStatus, runUuid: Option<Uuid>, prNumber: Option<int>,
                       baseSha: Option<Sha>, mergedSha: Option<Sha>, blockedReason: Option<BlockReason>)

  datatype BatchStatus =
    | Queued | Building | BatchBlocked | AwaitingManualTest | TestFailed | Approved | Promoting | Completed | Cancelled

  datatype Batch = Batch(status: BatchStatus, sourceStartSha: Sha, releaseBranch: string, currentPosition: nat,
                         blockedReason: Option<BlockReason>, items: seq<Item>)

  predicate Terminal(b: Batch) { b.status == Completed || b.status == Cancelled }

  predicate Current(s: ItemStatus) { s == Active || s == WaitingMerge }

  // ---------------------------------------------------------------- item transitions

  datatype Transition =
    | Admit(k: nat, uuid: Uuid, base: Option<Sha>)
    | AttachPr(k: nat, pr: int)
    | AwaitMerge(k: nat, pr: int)
    | Merge(k: nat, sha: Sha)
    | BlockItem(k: nat, reason: BlockReason)
    | UnblockItem(k: nat)
    | BlockBatch(reason: BlockReason)
    | SetStatus(status: BatchStatus)

  /** When the transition does not throw. */
  predicate Allowed(b: Batch, t: Transition) {
    !Terminal(b) &&
    match t
    case Admit(k, uuid, base) =>
      && k < |b.items| && b.items[k].status != Merged
      && (forall i :: 0 <= i < |b.items| && i != k ==> !Current(b.items[i].status))
      && (forall i :: 0 <= i < k ==> b.items[i].status == Merged)
      && (b.items[k].runUuid.Some? ==> b.items[k].runUuid.value == uuid)
      && (forall i :: 0 <= i < |b.items| && i != k ==> b.items[i].runUuid != Some(uuid))
    case AttachPr(k, pr) => k < |b.items| && pr > 0
    case AwaitMerge(k, pr) => k < |b.items| && pr > 0 && b.items[k].status == Active
    case Merge(k, sha) => k < |b.items| && sha != "" && Current(b.items[k].status)
    case BlockItem(k, _) => k < |b.items| && b.items[k].status != Merged
    case UnblockItem(k) => k < |b.items|
    case BlockBatch(_) => true
    case SetStatus(_) => true
  }

  function OrElse<T>(a: Option<T>, b: Option<T>): Option<T> { if a.Some? then a else b }

  function Transit(b: Batch, t: Transition): Batch
    requires Allowed(b, t)
  {
    match t
    case Admit(k, uuid, base) =>
      b.(status := if b.status == Queued || b.status == BatchBlocked then Building else b.status,
         currentPosition := k + 1, blockedReason := None,
         items := b.items[k := b.items[k].(status := Active, blockedReason := None, runUuid := Some(uuid),
                                           baseSha := OrElse(base, b.items[k].baseSha))])
    case AttachPr(k, pr) => b.(items := b.items[k := b.items[k].(prNumber := Some(pr))])
    case AwaitMerge(k, pr) => b.(items := b.items[k := b.items[k].(status := WaitingMerge, prNumber := Some(pr))])
    case Merge(k, sha) => b.(items := b.items[k := b.items[k].(status := Merged, mergedSha := Some(sha))])
    case BlockItem(k, reason) =>
      b.(status := BatchBlocked, blockedReason := Some(reason),
         items := b.items[k := b.items[k].(status := Blocked, blockedReason := Some(reason))])
    case UnblockItem(k) =>
      if b.items[k].status != Blocked then b
      else
        var items := b.items[k := b.items[k].(status := Active, blockedReason := None)];
        if b.status == BatchBlocked && forall i :: 0 <= i < |items| ==> items[i].status != Blocked then
          b.(items := items, status := Building, blockedReason := None)
        else b.(items := items)
    case BlockBatch(reason) => b.(status := BatchBlocked, blockedReason := Some(reason))
    case SetStatus(status) => b.(status := status, blockedReason := None)
  }

  // ---------------------------------------------------------------- the store

  datatype Run = Run(uuid: Uuid, issue: nat, branch: string, startedAt: int, status: RunStatus, startSha: Option<Sha>)

  /** A job is live while queued, claimed or running. */
  datatype Job = Job(runUuid: Uuid, live: bool)

  datatype World = World(batch: Batch, runs: seq<Run>, jobs: seq<Job>)

  /** The newest run of an issue; among equal start times the one stored first. */
  function FindByIssue(runs: seq<Run>, issue: nat): Option<Run> {
    if runs == [] then None
    else
      var best := FindByIssue(runs[..|runs| - 1], issue);
      var r := runs[|runs| - 1];
      if r.issue == issue && (best.None? || r.startedAt > best.value.startedAt) then Some(r) else best
  }

  function MatchingRun(w: World, issue: nat): Option<Run> {
    var found := FindByIssue(w.runs, issue);
    if found.Some? && found.value.branch == w.batch.releaseBranch then found else None
  }

  ghost predicate HasLiveJob(w: World, u: Uuid) {
    exists j :: 0 <= j < |w.jobs| && w.jobs[j].runUuid == u && w.jobs[j].live
  }

  ghost predicate HasRun(w: World, u: Uuid) {
    exists i :: 0 <= i < |w.runs| && w.runs[i].uuid == u
  }

  ghost predicate RunFor(w: World, u: Uuid, issue: nat) {
    exists i :: 0 <= i < |w.runs| && w.runs[i].uuid == u && OnBranch(w, i, issue)
  }

  ghost predicate OnBranch(w: World, i: nat, issue: nat)
    requires i < |w.runs|
  {
    w.runs[i].issue == issue && w.runs[i].branch == w.batch.releaseBranch
  }

  ghost predicate IssueOfBatch(w: World, issue: nat) {
    exists k :: 0 <= k < |w.batch.items| && w.batch.items[k].issue == issue
  }

  /** Every stored run of the issue started before this time. */
  ghost predicate LaterThan(runs: seq<Run>, issue: nat, now: int) {
    forall i :: 0 <= i < |runs| && runs[i].issue == issue ==> runs[i].startedAt < now
  }

  /** No run of the issue is active; the insertion checks it. */
  ghost predicate NoneActive(w: World, issue: nat) {
    forall i :: 0 <= i < |w.runs| && w.runs[i].issue == issue ==> !RunRecords.RunActive(w.runs[i].status)
  }

  ghost predicate NoReleaseRun(w: World, issue: nat) {
    forall i :: 0 <= i < |w.runs| ==> !OnBranch(w, i, issue)
  }

  /** The position the reconciliation works on: the first unmerged item. */
  function FirstUnmerged(items: seq<Item>): (k: nat)
    ensures k <= |items|
    ensures k < |items| ==> items[k].status != Merged
    ensures forall i :: 0 <= i < k ==> items[i].status == Merged
  {
    if items == [] || items[0].status != Merged then 0 else 1 + FirstUnmerged(items[1..])
  }

  function NewItem(issue: nat): Item { Item(issue, Pending, None, None, None, None, None) }

  /** Remediation items go behind the others, and the batch builds again. */
  function Appended(b: Batch, issues: seq<nat>): Batch {
    var items := b.items + seq(|issues|, i requires 0 <= i < |issues| => NewItem(issues[i]));
    b.(status := Building, blockedReason := None, items := items,
       currentPosition := if FirstUnmerged(items) < |items| then FirstUnmerged(items) + 1 else b.currentPosition)
  }

  /** The run belongs to an item behind the first. */
  ghost predicate LaterRun(w: World, u: Uuid) {
    exists i, k :: 0 <= i < |w.runs| && 0 < k < |w.batch.items| && w.runs[i].uuid == u && OnBranch(w, i, w.batch.items[k].issue)
  }

  datatype Event =
    // writes of the coordinator, and of remediation between its calls
    | InsertRun(run: Run)
    | EnqueueJob(uuid: Uuid)
    | SetStart(uuid: Uuid, sha: Sha)
    | MarkPassed(uuid: Uuid)
    | Save(t: Transition)
    | AppendItems(issues: seq<nat>)
    // everything else that touches the store
    | RunMoves(uuid: Uuid, status: RunStatus)
    | JobSettles(j: nat)
    | OutsideRun(run: Run)
    | OutsideJob(uuid: Uuid)

  predicate Environment(e: Event) { e.RunMoves? || e.JobSettles? || e.OutsideRun? || e.OutsideJob? }

  ghost predicate Legal(w: World, e: Event) {
    match e
    case InsertRun(r) =>
      && !HasRun(w, r.uuid) && r.branch == w.batch.releaseBranch && r.startSha.None?
      && MatchingRun(w, r.issue).None? && NoneActive(w, r.issue)
    case EnqueueJob(u) => HasRun(w, u) && !HasLiveJob(w, u)
    case SetStart(u, sha) =>
      && HasRun(w, u) && (forall k :: 0 <= k < |w.batch.items| ==> w.batch.items[k].runUuid != Some(u))
      && (sha == w.batch.sourceStartSha ==> !LaterRun(w, u))
    case MarkPassed(u) => HasRun(w, u)
    case Save(t) =>
      && Allowed(w.batch, t)
      && (t.BlockItem? ==> forall i :: 0 <= i < t.k ==> w.batch.items[i].status == Merged)
      && (t.Admit? ==>
            && RunFor(w, t.uuid, w.batch.items[t.k].issue)
            && (t.k > 0 ==> t.base.Some? && t.base.value != w.batch.sourceStartSha))
    case AppendItems(issues) =>
      && w.batch.status == TestFailed && issues != []
      && (forall i, j :: 0 <= i < j < |issues| ==> issues[i] != issues[j])
      && (forall i :: 0 <= i < |issues| ==> !IssueOfBatch(w, issues[i]) && NoReleaseRun(w, issues[i]))
    case RunMoves(_, _) => true
    case JobSettles(j) => j < |w.jobs|
    case OutsideRun(r) => !HasRun(w, r.uuid) && !IssueOfBatch(w, r.issue)
    case OutsideJob(u) => !HasLiveJob(w, u)
  }

  /** The clock of an insertion is later than every stored run of the issue. */
  ghost predicate Timely(w: World, e: Event) {
    e.InsertRun? ==> LaterThan(w.runs, e.run.issue, e.run.startedAt)
  }

  function PatchRun(runs: seq<Run>, u: Uuid, status: Option<RunStatus>, sha: Option<Sha>): (out: seq<Run>)
    ensures |out| == |runs|
    ensures forall i :: 0 <= i < |runs| ==>
              && out[i].uuid == runs[i].uuid && out[i].issue == runs[i].issue
              && out[i].branch == runs[i].branch && out[i].startedAt == runs[i].startedAt
  {
    seq(|runs|, i requires 0 <= i < |runs| =>
      if runs[i].uuid != u then runs[i]
      else runs[i].(status := if status.Some? then status.value else runs[i].status,
                    startSha := OrElse(sha, runs[i].startSha)))
  }

  function Apply(w: World, e: Event): World
    requires Legal(w, e)
  {
    match e
    case InsertRun(r) => w.(runs := w.runs + [r])
    case EnqueueJob(u) => w.(jobs := w.jobs + [Job(u, true)])
    case SetStart(u, sha) => w.(runs := PatchRun(w.runs, u, None, Some(sha)))
    case MarkPassed(u) => w.(runs := PatchRun(w.runs, u, Some(RunRecords.Passed), None))
    case Save(t) => w.(batch := Transit(w.batch, t))
    case AppendItems(issues) => w.(batch := Appended(w.batch, issues))
    case RunMoves(u, status) => w.(runs := PatchRun(w.runs, u, Some(status), None))
    case JobSettles(j) => w.(jobs := w.jobs[j := w.jobs[j].(live := false)])
    case OutsideRun(r) => w.(runs := w.runs + [r])
    case OutsideJob(u) => w.(jobs := w.jobs + [Job(u, true)])
  }

  ghost predicate LegalRun(w: World, es: seq<Event>)
    decreases |es|
  {
    es != [] ==> Legal(w, es[0]) && LegalRun(Apply(w, es[0]), es[1..])
  }

  ghost function Replay(w: World, es: seq<Event>): World
    requires LegalRun(w, es)
    decreases |es|
  {
    if es == [] then w else Replay(Apply(w, es[0]), es[1..])
  }

  ghost predicate TimelyRun(w: World, es: seq<Event>)
    requires LegalRun(w, es)
    decreases |es|
  {
    es != [] ==> Timely(w, es[0]) && TimelyRun(Apply(w, es[0]), es[1..])
  }

  lemma {:induction false} ReplayAppend(w: World, es: seq<Event>, fs: seq<Event>)
    requires LegalRun(w, es) && LegalRun(Replay(w, es), fs)
    ensures LegalRun(w, es + fs) && Replay(w, es + fs) == Replay(Replay(w, es), fs)
    ensures TimelyRun(w, es + fs) <==> TimelyRun(w, es) && TimelyRun(Replay(w, es), fs)
    decreases |es|
  {
    if es == [] {
      assert es + fs == fs;
    } else {
      assert (es + fs)[0] == es[0] && (es + fs)[1..] == es[1..] + fs;
      ReplayAppend(Apply(w, es[0]), es[1..], fs);
    }
  }

  // ---------------------------------------------------------------- what every write keeps

  /** After an unmerged item everything is pending: merged items are a prefix, one item is current. */
  ghost predicate Sequential(b: Batch) {
    forall i, j :: 0 <= i < j < |b.items| && b.items[i].status != Merged ==> b.items[j].status == Pending
  }

  /** No item but the first was admitted on the commit the batch started from. */
  ghost predicate FreshBases(b: Batch) {
    forall i :: 0 < i < |b.items| ==> b.items[i].baseSha != Some(b.sourceStartSha)
  }

  ghost predicate DistinctIssues(b: Batch) {
    forall i, j :: 0 <= i < j < |b.items| ==> b.items[i].issue != b.items[j].issue
  }

  ghost predicate UniqueUuids(w: World) {
    forall i, j :: 0 <= i < j < |w.runs| ==> w.runs[i].uuid != w.runs[j].uuid
  }

  /** Every release-branch run of the issue started after all other runs of the issue stored before it. */
  ghost predicate NewestOnBranch(w: World, issue: nat) {
    forall i, j :: 0 <= i < |w.runs| && 0 <= j < |w.runs| && i != j && OnBranch(w, j, issue) && w.runs[i].issue == issue ==>
      w.runs[i].startedAt < w.runs[j].startedAt
  }

  ghost predicate OneRunEach(w: World) {
    forall issue :: IssueOfBatch(w, issue) ==> NewestOnBranch(w, issue)
  }

  ghost predicate OneLiveJob(w: World) {
    forall i, j :: 0 <= i < j < |w.jobs| && w.jobs[i].live && w.jobs[j].live ==> w.jobs[i].runUuid != w.jobs[j].runUuid
  }

  /** The run an item points at is a release-branch run of its issue. */
  ghost predicate Attached(w: World) {
    forall k :: 0 <= k < |w.batch.items| && w.batch.items[k].runUuid.Some? ==>
      RunFor(w, w.batch.items[k].runUuid.value, w.batch.items[k].issue)
  }

  ghost predicate Core(w: World) {
    && Sequential(w.batch) && FreshBases(w.batch) && DistinctIssues(w.batch)
    && UniqueUuids(w) && OneLiveJob(w) && Attached(w)
  }

  /** A pending item has neither run nor base. */
  ghost predicate PendingUntouched(b: Batch) {
    forall k :: 0 <= k < |b.items| && b.items[k].status == Pending ==> b.items[k].runUuid.None? && b.items[k].baseSha.None?
  }

  /** No run of a later item starts on the commit the batch started from. */
  ghost predicate LaterRunsFresh(w: World) {
    forall i, k :: 0 <= i < |w.runs| && 0 < k < |w.batch.items| && OnBranch(w, i, w.batch.items[k].issue) ==>
      w.runs[i].startSha != Some(w.batch.sourceStartSha)
  }

  ghost predicate Inv(w: World) { Core(w) && PendingUntouched(w.batch) && LaterRunsFresh(w) }

  predicate Untouched(item: Item) { item.status == Pending && item.baseSha.None? && item.runUuid.None? }

  /** A new batch: nothing admitted, and its issues have no run on the release branch yet. */
  ghost predicate Init(w: World) {
    && (forall k :: 0 <= k < |w.batch.items| ==> Untouched(w.batch.items[k]))
    && DistinctIssues(w.batch) && UniqueUuids(w) && OneLiveJob(w)
    && (forall i :: 0 <= i < |w.runs| && IssueOfBatch(w, w.runs[i].issue) ==> w.runs[i].branch != w.batch.releaseBranch)
  }

  lemma InitIsInv(w: World)
    requires Init(w)
    ensures Inv(w) && OneRunEach(w)
  {
  }

  /** The one transition that can break the sequence: blocking an item while an earlier one is unmerged. */
  lemma SaveKeepsSequence(b: Batch, t: Transition)
    requires Sequential(b) && Allowed(b, t)
    ensures Sequential(Transit(b, t)) <==> (t.BlockItem? ==> forall i :: 0 <= i < t.k ==> b.items[i].status == Merged)
  {
    var c := Transit(b, t);
    if t.BlockItem? && Sequential(c) {
      forall i | 0 <= i < t.k ensures b.items[i].status == Merged {
        assert c.items[i].status == b.items[i].status && c.items[t.k].status == Blocked;
      }
    }
  }

  /** The one transition that can break the bases: admitting a later item on the starting commit. */
  lemma SaveKeepsBases(b: Batch, t: Transition)
    requires FreshBases(b) && Allowed(b, t)
    ensures FreshBases(Transit(b, t)) <==> !(t.Admit? && t.k > 0 && t.base == Some(b.sourceStartSha))
  {
    var c := Transit(b, t);
    if t.Admit? && t.k > 0 { assert c.items[t.k].baseSha == OrElse(t.base, b.items[t.k].baseSha); }
  }

  /** Transitions leave the issues, the branch, the starting commit and the number of items alone. */
  lemma SaveKeepsIdentity(b: Batch, t: Transition)
    requires Allowed(b, t)
    ensures
      var c := Transit(b, t);
      && |c.items| == |b.items| && c.releaseBranch == b.releaseBranch && c.sourceStartSha == b.sourceStartSha
      && forall k :: 0 <= k < |b.items| ==> c.items[k].issue == b.items[k].issue
  {
  }

  /** What a transition does to its item and the batch, and that it leaves the other items alone. */
  lemma SaveChanges(b: Batch, t: Transition)
    requires Allowed(b, t)
    ensures
      var c := Transit(b, t);
      && (t.BlockBatch? || t.SetStatus? ==> c.items == b.items)
      && (!t.BlockBatch? && !t.SetStatus? ==> forall i :: 0 <= i < |b.items| && i != t.k ==> c.items[i] == b.items[i])
    ensures
      var c := Transit(b, t);
      && (t.Admit? ==> c.items[t.k].status == Active && c.items[t.k].runUuid == Some(t.uuid) && c.items[t.k].blockedReason.None?)
      && (t.Admit? ==> c.currentPosition == t.k + 1 && c.status !in {Queued, BatchBlocked} && c.blockedReason.None?)
      && (t.Admit? && t.base.Some? ==> c.items[t.k].baseSha == t.base)
      && (t.Merge? ==> c.items[t.k].status == Merged && c.items[t.k].mergedSha == Some(t.sha) && c.items[t.k].runUuid == b.items[t.k].runUuid)
      && (t.AwaitMerge? ==> c.items[t.k].status == WaitingMerge && c.items[t.k].prNumber == Some(t.pr))
      && (t.AttachPr? ==> c.items[t.k].status == b.items[t.k].status && c.items[t.k].prNumber == Some(t.pr))
    ensures
      var c := Transit(b, t);
      && (t.BlockItem? ==> c.items[t.k].status == Blocked && c.items[t.k].blockedReason == Some(t.reason))
      && (t.BlockItem? || t.BlockBatch? ==> c.status == BatchBlocked && c.blockedReason == Some(t.reason))
      && (t.UnblockItem? ==> c.items[t.k].status == if b.items[t.k].status == Blocked then Active else b.items[t.k].status)
      && (t.UnblockItem? && b.status == BatchBlocked && b.items[t.k].status == Blocked ==>
            (c.status == Building <==> forall i :: 0 <= i < |b.items| && i != t.k ==> b.items[i].status != Blocked))
      && (t.UnblockItem? && c.status != b.status ==> c.blockedReason.None?)
      && (t.AttachPr? || t.AwaitMerge? || t.Merge? ==> c.status == b.status && c.blockedReason == b.blockedReason)
  {
  }

  lemma SameIssues(w: World, w': World)
    requires |w.batch.items| == |w'.batch.items|
    requires forall k :: 0 <= k < |w.batch.items| ==> w.batch.items[k].issue == w'.batch.items[k].issue
    ensures forall issue :: IssueOfBatch(w, issue) <==> IssueOfBatch(w', issue)
  {
    forall issue ensures IssueOfBatch(w, issue) <==> IssueOfBatch(w', issue) {
      if IssueOfBatch(w, issue) {
        var k :| 0 <= k < |w.batch.items| && w.batch.items[k].issue == issue;
        assert w'.batch.items[k].issue == issue;
      }
      if IssueOfBatch(w', issue) {
        var k :| 0 <= k < |w'.batch.items| && w'.batch.items[k].issue == issue;
        assert w.batch.items[k].issue == issue;
      }
    }
  }

  /** The search returns the newest run of the issue. */
  lemma {:induction false} FindIsNewest(runs: seq<Run>, issue: nat)
    ensures
      match FindByIssue(runs, issue)
      case None => forall i :: 0 <= i < |runs| ==> runs[i].issue != issue
      case Some(r) =>
        && r in runs && r.issue == issue
        && forall i :: 0 <= i < |runs| && runs[i].issue == issue ==> runs[i].startedAt <= r.startedAt
  {
    if runs != [] {
      FindIsNewest(runs[..|runs| - 1], issue);
    }
  }

  /** If a release-branch run of the issue is newest, the search finds it. */
  lemma NewestIsFound(w: World, issue: nat, j: nat)
    requires NewestOnBranch(w, issue) && j < |w.runs| && OnBranch(w, j, issue)
    ensures MatchingRun(w, issue) == Some(w.runs[j])
  {
    FindIsNewest(w.runs, issue);
    var r := FindByIssue(w.runs, issue).value;
    var i :| 0 <= i < |w.runs| && w.runs[i] == r;
  }

  lemma NoMatchMeansNoRun(w: World, issue: nat)
    requires NewestOnBranch(w, issue) && MatchingRun(w, issue).None?
    ensures forall j :: 0 <= j < |w.runs| ==> !OnBranch(w, j, issue)
  {
    forall j | 0 <= j < |w.runs| ensures !OnBranch(w, j, issue) {
      if OnBranch(w, j, issue) { NewestIsFound(w, issue, j); }
    }
  }

  lemma InsertKeepsNewest(w: World, r: Run, issue: nat)
    requires NewestOnBranch(w, issue) && Legal(w, InsertRun(r)) && Timely(w, InsertRun(r))
    ensures NewestOnBranch(Apply(w, InsertRun(r)), issue)
  {
    var w' := Apply(w, InsertRun(r));
    if r.issue == issue { NoMatchMeansNoRun(w, issue); }
    forall i, j | 0 <= i < |w'.runs| && 0 <= j < |w'.runs| && i != j && OnBranch(w', j, issue) && w'.runs[i].issue == issue
      ensures w'.runs[i].startedAt < w'.runs[j].startedAt
    {
      if j < |w.runs| { assert OnBranch(w, j, issue); }
    }
  }

  lemma AppendKeepsNewest(w: World, r: Run, issue: nat)
    requires NewestOnBranch(w, issue) && r.issue != issue
    ensures NewestOnBranch(w.(runs := w.runs + [r]), issue)
  {
    var w' := w.(runs := w.runs + [r]);
    forall i, j | 0 <= i < |w'.runs| && 0 <= j < |w'.runs| && i != j && OnBranch(w', j, issue) && w'.runs[i].issue == issue
      ensures w'.runs[i].startedAt < w'.runs[j].startedAt
    {
      if j < |w.runs| { assert OnBranch(w, j, issue); }
    }
  }

  /** Changing only statuses and start commits of runs keeps everything about which runs there are. */
  lemma PatchKeepsCore(w: World, w': World)
    requires Core(w) && w'.batch == w.batch && w'.jobs == w.jobs && |w'.runs| == |w.runs| && RunsGrow(w, w')
    ensures Core(w')
  {
    AttachedGrows(w, w');
  }

  lemma NewRunKeepsCore(w: World, e: Event)
    requires Core(w) && Legal(w, e) && (e.InsertRun? || e.OutsideRun?)
    ensures Core(Apply(w, e))
  {
    AttachedGrows(w, Apply(w, e));
    forall i | 0 <= i < |w.runs| ensures w.runs[i].uuid != e.run.uuid {}
  }

  lemma NewJobKeepsCore(w: World, e: Event)
    requires Core(w) && Legal(w, e) && (e.EnqueueJob? || e.OutsideJob?)
    ensures Core(Apply(w, e))
  {
    var w' := Apply(w, e);
    AttachedGrows(w, w');
    forall i, j | 0 <= i < j < |w'.jobs| && w'.jobs[i].live && w'.jobs[j].live
      ensures w'.jobs[i].runUuid != w'.jobs[j].runUuid
    {
      if j == |w.jobs| { assert w.jobs[i].live; }
    }
  }

  lemma OtherRunsKeepNewest(w: World, w': World, issue: nat)
    requires NewestOnBranch(w, issue) && |w'.runs| == |w.runs| && RunsGrow(w, w')
    ensures NewestOnBranch(w', issue)
  {
    forall i, j | 0 <= i < |w'.runs| && 0 <= j < |w'.runs| && i != j && OnBranch(w', j, issue) && w'.runs[i].issue == issue
      ensures w'.runs[i].startedAt < w'.runs[j].startedAt
    {
      assert OnBranch(w, j, issue);
    }
  }

  /** Every event keeps one release run for an issue of the batch, if an insertion for that issue is timely. */
  lemma EventKeepsNewest(w: World, e: Event, issue: nat)
    requires NewestOnBranch(w, issue) && IssueOfBatch(w, issue) && Legal(w, e)
    requires e.InsertRun? && e.run.issue == issue ==> Timely(w, e)
    ensures NewestOnBranch(Apply(w, e), issue) && IssueOfBatch(Apply(w, e), issue)
  {
    var w' := Apply(w, e);
    IssuesStay(w, e, issue);
    if e.InsertRun? {
      if e.run.issue == issue { InsertKeepsNewest(w, e.run, issue); } else { AppendKeepsNewest(w, e.run, issue); }
    } else if e.OutsideRun? {
      AppendKeepsNewest(w, e.run, issue);
    } else {
      if e.Save? { SaveKeepsIdentity(w.batch, e.t); }
      OtherRunsKeepNewest(w, w', issue);
    }
  }

  lemma IssuesStay(w: World, e: Event, issue: nat)
    requires IssueOfBatch(w, issue) && Legal(w, e)
    ensures IssueOfBatch(Apply(w, e), issue)
  {
    if e.Save? { SaveKeepsIdentity(w.batch, e.t); }
    var k :| 0 <= k < |w.batch.items| && w.batch.items[k].issue == issue;
    assert Apply(w, e).batch.items[k].issue == issue;
  }

  /** An issue that comes into the batch has no release run. */
  lemma NewIssueIsClear(w: World, e: Event, issue: nat)
    requires Legal(w, e) && !IssueOfBatch(w, issue) && IssueOfBatch(Apply(w, e), issue)
    ensures NoReleaseRun(Apply(w, e), issue)
  {
    var w' := Apply(w, e);
    if e.Save? { SaveKeepsIdentity(w.batch, e.t); }
    var k :| 0 <= k < |w'.batch.items| && w'.batch.items[k].issue == issue;
    assert forall i :: 0 <= i < |w.batch.items| ==> w.batch.items[i].issue != issue;
    forall i | 0 <= i < |w'.runs| ensures !OnBranch(w', i, issue) { assert !OnBranch(w, i, issue); }
  }

  lemma EventKeepsOne(w: World, e: Event)
    requires OneRunEach(w) && Legal(w, e) && Timely(w, e)
    ensures OneRunEach(Apply(w, e))
  {
    forall issue | IssueOfBatch(Apply(w, e), issue) ensures NewestOnBranch(Apply(w, e), issue) {
      if IssueOfBatch(w, issue) { EventKeepsNewest(w, e, issue); } else { NewIssueIsClear(w, e, issue); }
    }
  }

  /** Runs are never removed or moved to another issue or branch. */
  ghost predicate RunsGrow(w: World, w': World) {
    && |w.runs| <= |w'.runs| && w.batch.releaseBranch == w'.batch.releaseBranch
    && forall i :: 0 <= i < |w.runs| ==>
         && w'.runs[i].uuid == w.runs[i].uuid && w'.runs[i].issue == w.runs[i].issue
         && w'.runs[i].branch == w.runs[i].branch && w'.runs[i].startedAt == w.runs[i].startedAt
  }

  lemma RunForGrows(w: World, w': World, u: Uuid, issue: nat)
    requires RunFor(w, u, issue) && RunsGrow(w, w')
    ensures RunFor(w', u, issue)
  {
    var i :| 0 <= i < |w.runs| && w.runs[i].uuid == u && OnBranch(w, i, issue);
    assert OnBranch(w', i, issue);
  }

  lemma AttachedGrows(w: World, w': World)
    requires Attached(w) && RunsGrow(w, w') && |w'.batch.items| == |w.batch.items|
    requires forall k :: 0 <= k < |w.batch.items| ==>
               && w'.batch.items[k].issue == w.batch.items[k].issue
               && (w'.batch.items[k].runUuid == w.batch.items[k].runUuid
                   || (w'.batch.items[k].runUuid.Some? ==> RunFor(w, w'.batch.items[k].runUuid.value, w.batch.items[k].issue)))
    ensures Attached(w')
  {
    forall k | 0 <= k < |w'.batch.items| && w'.batch.items[k].runUuid.Some?
      ensures RunFor(w', w'.batch.items[k].runUuid.value, w'.batch.items[k].issue)
    {
      RunForGrows(w, w', w'.batch.items[k].runUuid.value, w.batch.items[k].issue);
    }
  }

  lemma SaveKeepsCore(w: World, t: Transition)
    requires Core(w) && Legal(w, Save(t))
    ensures Core(Apply(w, Save(t)))
  {
    var w' := Apply(w, Save(t));
    SaveKeepsSequence(w.batch, t);
    SaveKeepsBases(w.batch, t);
    SaveKeepsIdentity(w.batch, t);
    AttachedGrows(w, w');
  }

  lemma JobSettleKeepsCore(w: World, j: nat)
    requires Core(w) && j < |w.jobs|
    ensures Core(Apply(w, JobSettles(j)))
  {
    AttachedGrows(w, Apply(w, JobSettles(j)));
  }

  lemma AppendKeepsCore(w: World, issues: seq<nat>)
    requires Core(w) && Legal(w, AppendItems(issues))
    ensures Core(Apply(w, AppendItems(issues)))
  {
    var w' := Apply(w, AppendItems(issues));
    forall k | 0 <= k < |w'.batch.items| && w'.batch.items[k].runUuid.Some?
      ensures RunFor(w', w'.batch.items[k].runUuid.value, w'.batch.items[k].issue)
    {
      RunForGrows(w, w', w'.batch.items[k].runUuid.value, w'.batch.items[k].issue);
    }
    forall i, j | 0 <= i < j < |w'.batch.items| ensures w'.batch.items[i].issue != w'.batch.items[j].issue {
      if i < |w.batch.items| <= j { assert !IssueOfBatch(w, issues[j - |w.batch.items|]); }
    }
  }

  lemma EventKeepsCore(w: World, e: Event)
    requires Core(w) && Legal(w, e)
    ensures Core(Apply(w, e))
  {
    match e
    case InsertRun(_) => NewRunKeepsCore(w, e);
    case OutsideRun(_) => NewRunKeepsCore(w, e);
    case EnqueueJob(_) => NewJobKeepsCore(w, e);
    case OutsideJob(_) => NewJobKeepsCore(w, e);
    case SetStart(_, _) => PatchKeepsCore(w, Apply(w, e));
    case MarkPassed(_) => PatchKeepsCore(w, Apply(w, e));
    case RunMoves(_, _) => PatchKeepsCore(w, Apply(w, e));
    case Save(t) => SaveKeepsCore(w, t);
    case JobSettles(j) => JobSettleKeepsCore(w, j);
    case AppendItems(issues) => AppendKeepsCore(w, issues);
  }

  lemma SaveKeepsStarts(w: World, t: Transition)
    requires Inv(w) && Legal(w, Save(t))
    ensures PendingUntouched(Transit(w.batch, t)) && LaterRunsFresh(Apply(w, Save(t)))
  {
    var w' := Apply(w, Save(t));
    SaveKeepsIdentity(w.batch, t);
    forall i, k | 0 <= i < |w'.runs| && 0 < k < |w'.batch.items| && OnBranch(w', i, w'.batch.items[k].issue)
      ensures w'.runs[i].startSha != Some(w'.batch.sourceStartSha)
    {
      assert OnBranch(w, i, w.batch.items[k].issue);
    }
  }

  lemma RunsKeepFresh(w: World, e: Event)
    requires LaterRunsFresh(w) && Legal(w, e) && !e.Save? && !e.AppendItems?
    ensures LaterRunsFresh(Apply(w, e))
  {
    var w' := Apply(w, e);
    assert forall k :: 0 <= k < |w.batch.items| ==> IssueOfBatch(w, w.batch.items[k].issue);
    forall i, k | 0 <= i < |w'.runs| && 0 < k < |w'.batch.items| && OnBranch(w', i, w'.batch.items[k].issue)
      ensures w'.runs[i].startSha != Some(w'.batch.sourceStartSha)
    {
      if i < |w.runs| { assert OnBranch(w, i, w.batch.items[k].issue); }
    }
  }

  lemma AppendKeepsStarts(w: World, issues: seq<nat>)
    requires Inv(w) && Legal(w, AppendItems(issues))
    ensures PendingUntouched(Appended(w.batch, issues)) && LaterRunsFresh(Apply(w, AppendItems(issues)))
  {
    var w' := Apply(w, AppendItems(issues));
    forall i, j | 0 <= i < |w'.runs| && 0 <= j < |issues| ensures !OnBranch(w', i, issues[j]) { assert !OnBranch(w, i, issues[j]); }
    forall i, k | 0 <= i < |w'.runs| && 0 < k < |w'.batch.items| && OnBranch(w', i, w'.batch.items[k].issue)
      ensures w'.runs[i].startSha != Some(w'.batch.sourceStartSha)
    {
      if k < |w.batch.items| { assert OnBranch(w, i, w.batch.items[k].issue); }
    }
  }

  lemma EventKeepsInv(w: World, e: Event)
    requires Inv(w) && Legal(w, e)
    ensures Inv(Apply(w, e))
  {
    EventKeepsCore(w, e);
    if e.Save? { SaveKeepsStarts(w, e.t); }
    else if e.AppendItems? { AppendKeepsStarts(w, e.issues); }
    else { RunsKeepFresh(w, e); }
  }

  // ---------------------------------------------------------------- which commit a run starts on

  ghost predicate StartsOn(w: World, u: Uuid, sha: Sha) {
    exists i :: 0 <= i < |w.runs| && w.runs[i].uuid == u && w.runs[i].startSha == Some(sha)
  }

  /** Every item that is not pending has a run, and that run starts on the item's base. */
  ghost predicate Based(w: World) {
    && (forall k :: 0 <= k < |w.batch.items| && w.batch.items[k].status != Pending ==> w.batch.items[k].runUuid.Some?)
    && (forall k :: 0 <= k < |w.batch.items| && w.batch.items[k].runUuid.Some? ==>
          w.batch.items[k].baseSha.Some? && StartsOn(w, w.batch.items[k].runUuid.value, w.batch.items[k].baseSha.value))
  }

  /** The two writes that can break it: an admission on another commit than the run's, and a block of an item without run. */
  ghost predicate KeepsBased(w: World, e: Event)
    requires Legal(w, e)
  {
    e.Save? ==>
      && (e.t.Admit? ==>
            var base := OrElse(e.t.base, w.batch.items[e.t.k].baseSha);
            base.Some? && StartsOn(w, e.t.uuid, base.value))
      && (e.t.BlockItem? ==> w.batch.items[e.t.k].runUuid.Some?)
  }

  lemma StartStays(w: World, e: Event, u: Uuid, sha: Sha)
    requires Legal(w, e) && StartsOn(w, u, sha) && (e.SetStart? ==> e.uuid != u)
    ensures StartsOn(Apply(w, e), u, sha)
  {
    var i :| 0 <= i < |w.runs| && w.runs[i].uuid == u && w.runs[i].startSha == Some(sha);
    assert Apply(w, e).runs[i].uuid == u && Apply(w, e).runs[i].startSha == Some(sha);
  }

  lemma SaveKeepsBased(w: World, t: Transition)
    requires Based(w) && Legal(w, Save(t))
    ensures Based(Apply(w, Save(t))) <==> KeepsBased(w, Save(t))
  {
    var w' := Apply(w, Save(t));
    forall u, sha ensures StartsOn(w', u, sha) <==> StartsOn(w, u, sha) {}
    if t.Admit? {
      assert w'.batch.items[t.k].runUuid == Some(t.uuid) && w'.batch.items[t.k].baseSha == OrElse(t.base, w.batch.items[t.k].baseSha);
    }
    if t.BlockItem? { assert w'.batch.items[t.k].status == Blocked && w'.batch.items[t.k].runUuid == w.batch.items[t.k].runUuid; }
  }

  /** Runs of admitted items keep starting on their bases exactly under every write but those two. */
  lemma EventKeepsBased(w: World, e: Event)
    requires Based(w) && Legal(w, e)
    ensures Based(Apply(w, e)) <==> KeepsBased(w, e)
  {
    if e.Save? { SaveKeepsBased(w, e.t); }
    else {
      var w' := Apply(w, e);
      forall k | 0 <= k < |w'.batch.items| && w'.batch.items[k].runUuid.Some?
        ensures w'.batch.items[k].baseSha.Some? && StartsOn(w', w'.batch.items[k].runUuid.value, w'.batch.items[k].baseSha.value)
      {
        assert w'.batch.items[k] == w.batch.items[k];
        StartStays(w, e, w.batch.items[k].runUuid.value, w.batch.items[k].baseSha.value);
      }
    }
  }

  lemma {:induction false} RunKeepsInv(w: World, es: seq<Event>)
    requires Inv(w) && LegalRun(w, es)
    ensures Inv(Replay(w, es))
    decreases |es|
  {
    if es != [] {
      EventKeepsInv(w, es[0]);
      RunKeepsInv(Apply(w, es[0]), es[1..]);
    }
  }

  lemma {:induction false} RunKeepsOne(w: World, es: seq<Event>)
    requires OneRunEach(w) && LegalRun(w, es) && TimelyRun(w, es)
    ensures OneRunEach(Replay(w, es))
    decreases |es|
  {
    if es != [] {
      EventKeepsOne(w, es[0]);
      RunKeepsOne(Apply(w, es[0]), es[1..]);
    }
  }

  /**
   Whatever the coordinator and the workers do, in any order, at any clock and cut anywhere: an item
   points at a release-branch run of its issue, a run has at most one live job, merged items are a
   prefix followed by at most one item that is not pending, and only the first item may be built on
   the commit the batch started from.
   */
  lemma ReleaseSafety(w: World, es: seq<Event>)
    requires Init(w) && LegalRun(w, es)
    ensures
      var t := Replay(w, es);
      && (forall k :: 0 <= k < |t.batch.items| && t.batch.items[k].runUuid.Some? ==>
            RunFor(t, t.batch.items[k].runUuid.value, t.batch.items[k].issue))
      && OneLiveJob(t) && Sequential(t.batch) && FreshBases(t.batch) && LaterRunsFresh(t)
  {
    InitIsInv(w);
    RunKeepsInv(w, es);
  }

  /** The insertions for this issue are timely. */
  ghost predicate TimelyFor(w: World, es: seq<Event>, issue: nat)
    requires LegalRun(w, es)
    decreases |es|
  {
    es != [] ==>
      (es[0].InsertRun? && es[0].run.issue == issue ==> Timely(w, es[0])) && TimelyFor(Apply(w, es[0]), es[1..], issue)
  }

  lemma {:induction false} RunKeepsNewest(w: World, es: seq<Event>, issue: nat)
    requires LegalRun(w, es) && TimelyFor(w, es, issue) && (IssueOfBatch(w, issue) ==> NewestOnBranch(w, issue))
    ensures IssueOfBatch(Replay(w, es), issue) ==> NewestOnBranch(Replay(w, es), issue)
    decreases |es|
  {
    if es != [] {
      var w' := Apply(w, es[0]);
      if IssueOfBatch(w, issue) { EventKeepsNewest(w, es[0], issue); }
      else if IssueOfBatch(w', issue) { NewIssueIsClear(w, es[0], issue); }
      RunKeepsNewest(w', es[1..], issue);
    }
  }

  ghost predicate OneReleaseRun(w: World, issue: nat) {
    forall i, j :: 0 <= i < j < |w.runs| && OnBranch(w, i, issue) ==> !OnBranch(w, j, issue)
  }

  /** If its own insertions are timely, an item never gets a second run on the release branch and its run is found again. */
  lemma OneRunTheorem(w: World, es: seq<Event>, k: nat)
    requires Init(w) && LegalRun(w, es) && k < |Replay(w, es).batch.items|
    requires TimelyFor(w, es, Replay(w, es).batch.items[k].issue)
    ensures
      var t := Replay(w, es);
      var item := t.batch.items[k];
      && OneReleaseRun(t, item.issue)
      && (item.runUuid.Some? ==> MatchingRun(t, item.issue).Some? && MatchingRun(t, item.issue).value.uuid == item.runUuid.value)
  {
    var t := Replay(w, es);
    var issue := t.batch.items[k].issue;
    InitIsInv(w);
    RunKeepsInv(w, es);
    RunKeepsNewest(w, es, issue);
    assert IssueOfBatch(t, issue);
    if t.batch.items[k].runUuid.Some? { AttachedIsFound(t, k); }
  }

  lemma AttachedIsFound(t: World, k: nat)
    requires Inv(t) && k < |t.batch.items| && t.batch.items[k].runUuid.Some? && NewestOnBranch(t, t.batch.items[k].issue)
    ensures MatchingRun(t, t.batch.items[k].issue).Some?
    ensures MatchingRun(t, t.batch.items[k].issue).value.uuid == t.batch.items[k].runUuid.value
  {
    var issue := t.batch.items[k].issue;
    assert IssueOfBatch(t, issue);
    var i :| 0 <= i < |t.runs| && t.runs[i].uuid == t.batch.items[k].runUuid.value && OnBranch(t, i, issue);
    NewestIsFound(t, issue, i);
  }

  // ---------------------------------------------------------------- why the clock matters

  /** A stored run is found again exactly when it started later than every earlier run of its issue. */
  lemma FoundAgainIffLater(runs: seq<Run>, r: Run)
    requires r !in runs
    ensures FindByIssue(runs + [r], r.issue) == Some(r) <==> LaterThan(runs, r.issue, r.startedAt)
  {
    assert (runs + [r])[..|runs|] == runs;
    FindIsNewest(runs, r.issue);
    var best := FindByIssue(runs, r.issue);
    if best.Some? {
      var i :| 0 <= i < |runs| && runs[i] == best.value;
    }
  }

  /** The issue has its release run, and the search finds it. */
  ghost predicate Settled(w: World, issue: nat) {
    && IssueOfBatch(w, issue) && NewestOnBranch(w, issue)
    && exists j :: 0 <= j < |w.runs| && OnBranch(w, j, issue)
  }

  lemma EventKeepsSettled(w: World, e: Event, issue: nat)
    requires Settled(w, issue) && Legal(w, e)
    ensures Settled(Apply(w, e), issue)
  {
    var j :| 0 <= j < |w.runs| && OnBranch(w, j, issue);
    NewestIsFound(w, issue, j);
    EventKeepsNewest(w, e, issue);
    if e.Save? { SaveKeepsIdentity(w.batch, e.t); }
    assert OnBranch(Apply(w, e), j, issue);
  }

  lemma {:induction false} SettledForGood(w: World, es: seq<Event>, issue: nat)
    requires Settled(w, issue) && LegalRun(w, es)
    ensures OneReleaseRun(Replay(w, es), issue)
    decreases |es|
  {
    if es != [] {
      EventKeepsSettled(w, es[0], issue);
      SettledForGood(Apply(w, es[0]), es[1..], issue);
    }
  }

  /** No legal continuation gives the issue a second release run. */
  ghost predicate NeverSecond(w: World, issue: nat) {
    forall es :: LegalRun(w, es) ==> OneReleaseRun(Replay(w, es), issue)
  }

  lemma TimelySettles(w: World, r: Run)
    requires IssueOfBatch(w, r.issue) && NoReleaseRun(w, r.issue) && Legal(w, InsertRun(r)) && Timely(w, InsertRun(r))
    ensures Settled(Apply(w, InsertRun(r)), r.issue)
  {
    var w' := Apply(w, InsertRun(r));
    InsertKeepsNewest(w, r, r.issue);
    IssuesStay(w, InsertRun(r), r.issue);
    assert OnBranch(w', |w.runs|, r.issue);
  }

  lemma {:induction false} UnusedUuid(runs: seq<Run>) returns (u: Uuid)
    ensures forall i :: 0 <= i < |runs| ==> runs[i].uuid < u
  {
    u := 0;
    if runs != [] {
      u := UnusedUuid(runs[..|runs| - 1]);
      if runs[|runs| - 1].uuid >= u { u := runs[|runs| - 1].uuid + 1; }
    }
  }

  /** Once the untimely run has ended, the search does not find it and another insertion is legal. */
  lemma HiddenAllowsAnother(w: World, r: Run, ended: World, second: Run)
    requires NoReleaseRun(w, r.issue) && Legal(w, InsertRun(r)) && !Timely(w, InsertRun(r))
    requires ended == Apply(Apply(w, InsertRun(r)), RunMoves(r.uuid, RunRecords.Failed))
    requires second.issue == r.issue && second.branch == r.branch && second.startSha.None? && !HasRun(ended, second.uuid)
    ensures Legal(ended, InsertRun(second))
  {
    var gone := r.(status := RunRecords.Failed);
    assert ended.runs == w.runs + [gone] by {
      forall i | 0 <= i < |w.runs| ensures ended.runs[i] == w.runs[i] { assert w.runs[i].uuid != r.uuid; }
    }
    assert gone !in w.runs by {
      forall i | 0 <= i < |w.runs| ensures w.runs[i] != gone { assert !OnBranch(w, i, r.issue); }
    }
    FoundAgainIffLater(w.runs, gone);
    FindIsNewest(ended.runs, r.issue);
    var found := FindByIssue(ended.runs, r.issue).value;
    var i :| 0 <= i < |ended.runs| && ended.runs[i] == found;
    assert !OnBranch(w, i, r.issue);
  }

  lemma ReplayOne(w: World, e: Event)
    requires Legal(w, e)
    ensures LegalRun(w, [e]) && Replay(w, [e]) == Apply(w, e)
  {
    assert [e][1..] == [];
  }

  lemma ReplayTwo(w: World, e: Event, f: Event)
    requires Legal(w, e) && Legal(Apply(w, e), f)
    ensures LegalRun(w, [e, f]) && Replay(w, [e, f]) == Apply(Apply(w, e), f)
  {
    ReplayOne(Apply(w, e), f);
    assert [e, f][1..] == [f];
  }

  /** An untimely insertion, its end, and a second insertion: a legal continuation with two release runs. */
  lemma UntimelyMakesTwo(w: World, r: Run) returns (es: seq<Event>)
    requires NoReleaseRun(w, r.issue) && Legal(w, InsertRun(r)) && !Timely(w, InsertRun(r))
    ensures LegalRun(Apply(w, InsertRun(r)), es) && !OneReleaseRun(Replay(Apply(w, InsertRun(r)), es), r.issue)
  {
    var w1 := Apply(w, InsertRun(r));
    var end := RunMoves(r.uuid, RunRecords.Failed);
    var w2 := Apply(w1, end);
    var u := UnusedUuid(w2.runs);
    var second := r.(uuid := u);
    assert !HasRun(w2, u);
    HiddenAllowsAnother(w, r, w2, second);
    var w3 := Apply(w2, InsertRun(second));
    es := [end, InsertRun(second)];
    ReplayTwo(w1, end, InsertRun(second));
    assert OnBranch(w3, |w.runs|, r.issue) && OnBranch(w3, |w.runs| + 1, r.issue);
  }

  /** The first release run of an issue is the only one for good exactly when its start is later than all stored runs of the issue. */
  lemma SecondRunExactly(w: World, r: Run)
    requires IssueOfBatch(w, r.issue) && NoReleaseRun(w, r.issue) && Legal(w, InsertRun(r))
    ensures NeverSecond(Apply(w, InsertRun(r)), r.issue) <==> Timely(w, InsertRun(r))
  {
    var w' := Apply(w, InsertRun(r));
    if Timely(w, InsertRun(r)) {
      TimelySettles(w, r);
      forall es | LegalRun(w', es) ensures OneReleaseRun(Replay(w', es), r.issue) { SettledForGood(w', es, r.issue); }
    } else {
      var es := UntimelyMakesTwo(w, r);
    }
  }

  /** A new batch for issue 7, which had a run at the very time the release run starts. */
  function Tie(): World {
    World(Batch(Queued, "start", "release", 1, None, [NewItem(7)]), [Run(0, 7, "main", 5, RunRecords.Failed, None)], [])
  }

  function TiedRuns(): seq<Event> {
    [InsertRun(Run(1, 7, "release", 5, RunRecords.Running, None)), RunMoves(1, RunRecords.Failed),
     InsertRun(Run(2, 7, "release", 6, RunRecords.Running, None))]
  }

  /** From that new batch the code may give its item two release runs. */
  lemma ClockTieMakesTwo()
    ensures Init(Tie()) && LegalRun(Tie(), TiedRuns()) && !OneReleaseRun(Replay(Tie(), TiedRuns()), 7)
  {
    var w, es := Tie(), TiedRuns();
    var first := Run(1, 7, "release", 5, RunRecords.Running, None);
    assert w.runs[..0] == [] && FindByIssue([], 7) == None;
    assert FindByIssue(w.runs, 7) == Some(w.runs[0]);
    assert Legal(w, InsertRun(first));
    var w1 := Apply(w, es[0]);
    var w2 := Apply(w1, es[1]);
    assert w2.runs == [w.runs[0], first.(status := RunRecords.Failed)];
    HiddenAllowsAnother(w, first, w2, Run(2, 7, "release", 6, RunRecords.Running, None));
    var w3 := Apply(w2, es[2]);
    ReplayTwo(w1, es[1], es[2]);
    assert es[1..] == [es[1], es[2]];
    assert OnBranch(w3, 1, 7) && OnBranch(w3, 2, 7);
  }
}
