/**
 The release batch coordinator as it writes to the store. Every write goes through Write, which may
 find that the process has died; every await lets the rest of the system write. Answers of git,
 GitHub, maintenance and the PR lookup are arbitrary. The ghost trace records every event.
 */
module ReleaseCoordinator {
  import opened Prelude
  import opened ReleaseBatch
  import RunRecords

  /** Old runs of the batch's issues, on other branches, started before now. */
  ghost predicate ClockOk(w: World, now: int) {
    forall i :: 0 <= i < |w.runs| && IssueOfBatch(w, w.runs[i].issue) && w.runs[i].branch != w.batch.releaseBranch ==>
      w.runs[i].startedAt < now
  }

  function Unmerged(items: seq<Item>): nat {
    if items == [] then 0
    else Unmerged(items[..|items| - 1]) + (if items[|items| - 1].status == Merged then 0 else 1)
  }

  lemma {:induction false} MergeLowersCount(items: seq<Item>, k: nat, item: Item)
    requires k < |items| && items[k].status != Merged && item.status == Merged
    ensures Unmerged(items[k := item]) == Unmerged(items) - 1
  {
    var n := |items| - 1;
    if k == n {
      assert items[k := item][..n] == items[..n];
    } else {
      assert items[k := item][..n] == items[..n][k := item];
      MergeLowersCount(items[..n], k, item);
    }
  }

  ghost predicate SameMerged(a: seq<Item>, b: seq<Item>) {
    && |a| == |b|
    && (forall i :: 0 <= i < |a| ==> (a[i].status == Merged <==> b[i].status == Merged))
    && (forall i :: 0 <= i < |a| && a[i].status == Merged ==> b[i].mergedSha == a[i].mergedSha)
  }

  /** Merged items stay merged, each with its commit. */
  ghost predicate MergedKept(a: seq<Item>, b: seq<Item>) {
    |a| == |b| && forall i :: 0 <= i < |a| && a[i].status == Merged ==> b[i].status == Merged && b[i].mergedSha == a[i].mergedSha
  }

  lemma {:induction false} SameCount(a: seq<Item>, b: seq<Item>)
    requires SameMerged(a, b)
    ensures Unmerged(a) == Unmerged(b)
  {
    if a != [] { SameCount(a[..|a| - 1], b[..|b| - 1]); }
  }

  /** Only a merge changes which items are merged. */
  lemma SaveKeepsMerged(b: Batch, t: Transition)
    requires Allowed(b, t) && !t.Merge?
    ensures SameMerged(b.items, Transit(b, t).items)
  {
  }

  lemma ClockKept(w: World, w': World, now: int)
    requires ClockOk(w, now) && RunsGrow(w, w') && |w'.batch.items| == |w.batch.items|
    requires forall k :: 0 <= k < |w.batch.items| ==> w'.batch.items[k].issue == w.batch.items[k].issue
    requires forall i :: |w.runs| <= i < |w'.runs| && IssueOfBatch(w, w'.runs[i].issue) ==>
               w'.runs[i].branch == w'.batch.releaseBranch
    ensures ClockOk(w', now)
  {
    SameIssues(w, w');
  }

  lemma EventKeepsClock(w: World, e: Event, now: int)
    requires Legal(w, e) && ClockOk(w, now) && !e.AppendItems?
    ensures ClockOk(Apply(w, e), now)
  {
    if e.Save? { SaveKeepsIdentity(w.batch, e.t); }
    ClockKept(w, Apply(w, e), now);
  }

  lemma {:induction false} EnvironmentKeeps(w: World, es: seq<Event>, now: int)
    requires LegalRun(w, es) && ClockOk(w, now) && forall k :: 0 <= k < |es| ==> Environment(es[k])
    ensures ClockOk(Replay(w, es), now)
    decreases |es|
  {
    if es != [] {
      assert Environment(es[0]);
      EventKeepsClock(w, es[0], now);
      EnvironmentKeeps(Apply(w, es[0]), es[1..], now);
    }
  }

  lemma {:induction false} EnvironmentKeepsBased(w: World, es: seq<Event>)
    requires LegalRun(w, es) && Based(w) && forall k :: 0 <= k < |es| ==> Environment(es[k])
    ensures Based(Replay(w, es))
    decreases |es|
  {
    if es != [] {
      assert Environment(es[0]);
      EventKeepsBased(w, es[0]);
      EnvironmentKeepsBased(Apply(w, es[0]), es[1..]);
    }
  }

  lemma {:induction false} EnvironmentKeepsBatch(w: World, es: seq<Event>)
    requires LegalRun(w, es) && forall k :: 0 <= k < |es| ==> Environment(es[k])
    ensures Replay(w, es).batch == w.batch
    decreases |es|
  {
    if es != [] {
      assert Environment(es[0]);
      EnvironmentKeepsBatch(Apply(w, es[0]), es[1..]);
    }
  }

  /** The search only returns stored runs of the issue. */
  lemma MatchIsRunFor(w: World, issue: nat)
    requires MatchingRun(w, issue).Some?
    ensures RunFor(w, MatchingRun(w, issue).value.uuid, issue)
  {
    FindIsNewest(w.runs, issue);
    var r := MatchingRun(w, issue).value;
    var i :| 0 <= i < |w.runs| && w.runs[i] == r;
    assert OnBranch(w, i, issue);
  }

  /** Without a match every run of the issue is an old one, so the clock is later than all of them. */
  lemma NoMatchIsLater(w: World, k: nat, now: int)
    requires OneRunEach(w) && ClockOk(w, now) && k < |w.batch.items| && MatchingRun(w, w.batch.items[k].issue).None?
    ensures LaterThan(w.runs, w.batch.items[k].issue, now)
  {
    var issue := w.batch.items[k].issue;
    assert IssueOfBatch(w, issue);
    NoMatchMeansNoRun(w, issue);
    forall i | 0 <= i < |w.runs| && w.runs[i].issue == issue ensures w.runs[i].startedAt < now {
      assert !OnBranch(w, i, issue);
    }
  }

  function ResolveBase(b: Batch, k: nat): Option<Sha>
    requires k < |b.items|
  {
    if k == 0 then Some(b.sourceStartSha) else b.items[k - 1].mergedSha
  }

  function BaseFor(b: Batch, k: nat, explicitBase: Option<Sha>): Option<Sha>
    requires k < |b.items|
  {
    OrElse(OrElse(explicitBase, b.items[k].baseSha), ResolveBase(b, k))
  }

  /** An empty commit is as good as none. */
  function Known(sha: Option<Sha>): Option<Sha> { if sha == Some("") then None else sha }

  predicate UsableBase(b: Batch, k: nat, base: Option<Sha>) {
    k > 0 ==> base.Some? && base.value != b.sourceStartSha
  }

  /** Why a run in this status blocks its item. */
  function RunProblem(s: RunStatus): Option<BlockReason> {
    match s
    case Failed => Some(RunFailed)
    case Blocked => Some(RunBlocked)
    case NeedsHumanReview => Some(BlockReason.NeedsHumanReview)
    case Cancelled => Some(RunCancelled)
    case _ => None
  }

  /** The item was blocked for the state of its run, and a run in this status lifts it. */
  predicate RunBlocker(r: Option<BlockReason>, s: RunStatus) {
    && r.Some?
    && (|| r.value.RunFailed? || r.value.RunBlocked? || r.value.RunCancelled? || r.value.NeedsHumanReview?
        || (s == RunRecords.Passed && r.value.OtherReason? && "run_" <= r.value.text))
  }

  /** How the run state shows in the item afterwards. */
  ghost predicate RunStateShows(was: Item, s: RunStatus, a: Answers, now: Item) {
    var lifts := RunBlocker(was.blockedReason, s);
    var status := if lifts && was.status == Blocked then Active else was.status;
    var pr := OrElse(was.prNumber, if a.pr > 0 then Some(a.pr) else None);
    if RunProblem(s).Some? then BlockedBy(now, RunProblem(s).value)
    else if s == RunRecords.Waiting && status == Active && pr.Some? && pr.value > 0 then now.status == WaitingMerge && now.prNumber == pr
    else
      && now.status == status && now.prNumber == pr
      && now.blockedReason == if lifts && was.status == Blocked then None else was.blockedReason
  }

  predicate BlockedBy(item: Item, reason: BlockReason) { item.status == Blocked && item.blockedReason == Some(reason) }

  predicate MergedWith(item: Item, sha: Sha) { item.status == Merged && item.mergedSha == Some(sha) }

  lemma SameFirst(a: seq<Item>, b: seq<Item>)
    requires SameMerged(a, b)
    ensures FirstUnmerged(a) == FirstUnmerged(b) && Unmerged(a) == Unmerged(b)
  {
    SameCount(a, b);
    assert !(FirstUnmerged(a) < FirstUnmerged(b)) && !(FirstUnmerged(b) < FirstUnmerged(a));
  }

  /** What GitHub says about a pull request, as far as the coordinator looks. */
  datatype Readiness = Readiness(baseMatches: bool, closed: bool, open: bool, merged: bool,
                                 autoMergeOff: bool, ciFailed: bool, mergeSha: Option<Sha>)

  datatype Ports = Ports(git: bool, github: bool, maintenance: bool)

  /**
   What the outside answers during one call: to the retry of a blocked batch, to maintenance before an
   admission, to the fetch of the release branch, to the search for a pull request and to the question
   about it. The first field of each group says whether the repository was found.
   */
  datatype Answers = Answers(retryRepo: bool, retryHealthy: bool, retryRemote: Option<Sha>,
                             healthRepo: bool, healthy: bool, illness: Option<BlockReason>,
                             gitRepo: bool, remote: Option<Sha>,
                             pr: int, answered: bool, readiness: Readiness, mergeRemote: Option<Sha>)

  /** Why a pull request in this state blocks its item. */
  function PrProblem(r: Readiness): Option<BlockReason> {
    if !r.baseMatches then Some(PrBaseMismatch)
    else if r.closed && !r.merged then Some(PrClosedUnmerged)
    else if r.autoMergeOff && !r.merged then Some(AutoMergeUnavailable)
    else if r.ciFailed && !r.merged then Some(CiFailed)
    else None
  }

  predicate PrBlocker(item: Item) {
    item.status == Blocked && item.blockedReason in {Some(CiFailed), Some(AutoMergeUnavailable), Some(PrBaseMismatch)}
  }

  /** How the answer about the pull request shows in the item afterwards. */
  ghost predicate PrShows(ports: Ports, was: Item, pr: int, a: Answers, now: Item) {
    if !a.answered then now == was
    else if PrProblem(a.readiness).Some? then BlockedBy(now, PrProblem(a.readiness).value)
    else GoodPrShows(ports, was, pr, a, now)
  }

  ghost predicate GoodPrShows(ports: Ports, was: Item, pr: int, a: Answers, now: Item) {
    var status := if PrBlocker(was) then Active else was.status;
    if a.readiness.merged then ReleaseBatch.Current(status) && MergeSha(ports, a) != "" ==> MergedWith(now, MergeSha(ports, a))
    else if a.readiness.open && pr > 0 && status == Active then now.status == WaitingMerge && now.prNumber == Some(pr)
    else now.status == status
  }

  /** The commit a merge is certified with: the fetched one before the reported one. */
  function MergeSha(ports: Ports, a: Answers): Sha {
    if ports.git && Known(a.mergeRemote).Some? then a.mergeRemote.value
    else if a.readiness.mergeSha.Some? then a.readiness.mergeSha.value
    else "unknown-merge-sha"
  }

  // ---------------------------------------------------------------- when an admission goes through

  /** The blocker of the batch has cleared. */
  predicate Clears(ports: Ports, b: Batch, k: nat, a: Answers)
    requires k < |b.items|
  {
    && k > 0
    && if b.blockedReason == Some(EnvironmentUnhealthy) && ports.maintenance then a.retryRepo && a.retryHealthy
       else
         && b.blockedReason == Some(BaseShaUnresolvable)
         && var sha := if ports.git && a.retryRepo then Known(a.retryRemote) else Known(ResolveBase(b, k));
            sha.Some? && sha.value != b.sourceStartSha
  }

  predicate AsksHealth(ports: Ports, k: nat, a: Answers) { k > 0 && ports.maintenance && a.healthRepo }

  predicate AsksGit(ports: Ports, a: Answers) { ports.git && a.gitRepo }

  /** The base an admission ends up with; a failed fetch leaves only the first item its stored one. */
  function AdmissionBase(ports: Ports, b: Batch, k: nat, a: Answers): Option<Sha>
    requires k < |b.items|
  {
    if AsksGit(ports, a) && Known(a.remote).Some? then a.remote
    else if AsksGit(ports, a) && k > 0 then None
    else Known(BaseFor(b, k, None))
  }

  /** Whatever runs and jobs do meanwhile, a run of the issue stays at hand or none exists. */
  ghost predicate Steady(w: World, issue: nat) {
    MatchingRun(w, issue).Some? || forall i :: 0 <= i < |w.runs| ==> w.runs[i].issue != issue
  }

  /** Once the batch is not blocked: the answers and the store let item k be admitted. */
  ghost predicate ReadyToAdmit(ports: Ports, w: World, k: nat, a: Answers) {
    && !Terminal(w.batch) && k == FirstUnmerged(w.batch.items) < |w.batch.items| && w.batch.items[k].status == Pending
    && (AsksHealth(ports, k, a) ==> a.healthy)
    && AdmissionBase(ports, w.batch, k, a).Some? && UsableBase(w.batch, k, AdmissionBase(ports, w.batch, k, a))
    && (|| Steady(w, w.batch.items[k].issue)
        || (!AsksHealth(ports, k, a) && !AsksGit(ports, a) && Startable(w, w.batch.items[k].issue)))
  }

  /** Nothing stands against admitting item k in this call. */
  ghost predicate WillAdmit(ports: Ports, w: World, k: nat, a: Answers) {
    && ReadyToAdmit(ports, w, k, a)
    && (w.batch.status == BatchBlocked ==> Clears(ports, w.batch, k, a) && Steady(w, w.batch.items[k].issue))
  }

  /** A run of the issue is at hand, or none is active and one may be started. */
  ghost predicate Startable(w: World, issue: nat) {
    MatchingRun(w, issue).Some? || NoneActive(w, issue)
  }

  /** Nothing in the store stands against admitting item k on the base. */
  ghost predicate Admissible(w: World, k: nat, base: Option<Sha>) {
    && !Terminal(w.batch) && k == FirstUnmerged(w.batch.items) < |w.batch.items|
    && Startable(w, w.batch.items[k].issue) && base.Some? && UsableBase(w.batch, k, base)
  }

  /** The item is active, with a run, a base and a live job. */
  ghost predicate Admitted(w: World, k: nat) {
    && k < |w.batch.items| && w.batch.items[k].status == Active && w.batch.items[k].runUuid.Some?
    && w.batch.items[k].baseSha.Some? && HasLiveJob(w, w.batch.items[k].runUuid.value)
  }

  /** The item and the run it points at have the same base. */
  ghost predicate AdmittedOn(w: World, k: nat, base: Sha) {
    Admitted(w, k) && w.batch.items[k].baseSha == Some(base) && StartsOn(w, w.batch.items[k].runUuid.value, base)
  }

  /** The head of the release branch when git answers with one; otherwise the stored base, the prior item's commit or the start. */
  ghost predicate IsCallBase(ports: Ports, b: Batch, k: nat, a: Answers, base: Sha) {
    && k < |b.items|
    && if ports.git && a.gitRepo && a.remote.Some? && a.remote.value != "" then a.remote == Some(base)
       else if b.items[k].baseSha.Some? then b.items[k].baseSha == Some(base)
       else if k == 0 then b.sourceStartSha == base
       else b.items[k - 1].mergedSha == Some(base)
  }

  /** The item is still pending, or it was admitted on the base of the call. */
  ghost predicate AdmittedOrPending(ports: Ports, was: World, k: nat, a: Answers, now: World) {
    && k < |now.batch.items|
    && (|| now.batch.items[k].status == Pending
        || (now.batch.items[k].baseSha.Some? && AdmittedOn(now, k, now.batch.items[k].baseSha.value)
            && IsCallBase(ports, was.batch, k, a, now.batch.items[k].baseSha.value)))
  }

  /** A usable commit for item k: there is one, and a later item's is not the start of the batch. */
  ghost predicate Usable(b: Batch, k: nat, sha: Sha) { sha != "" && (k > 0 ==> sha != b.sourceStartSha) }

  /** The base of an admission is the base of the call; a later item whose fetch failed has none. */
  lemma AdmissionBaseExactly(ports: Ports, b: Batch, k: nat, a: Answers, base: Sha)
    requires k < |b.items|
    ensures
      var fetched := ports.git && a.gitRepo && a.remote.Some? && a.remote.value != "";
      && (AdmissionBase(ports, b, k, a) == Some(base) <==>
            base != "" && IsCallBase(ports, b, k, a, base) && (ports.git && a.gitRepo && k > 0 ==> fetched))
      && (UsableBase(b, k, Some(base)) <==> k == 0 || base != b.sourceStartSha)
      && !(k > 0 && UsableBase(b, k, None))
  {
  }

  /** A blocked batch clears once maintenance is healthy again, or a commit other than its start is known. */
  lemma ClearsExactly(ports: Ports, b: Batch, k: nat, a: Answers)
    requires k < |b.items|
    ensures Clears(ports, b, k, a) <==>
              && k > 0
              && (|| (b.blockedReason == Some(EnvironmentUnhealthy) && ports.maintenance && a.retryRepo && a.retryHealthy)
                  || (b.blockedReason == Some(BaseShaUnresolvable)
                      && exists sha: Sha :: Usable(b, k, sha) && (if ports.git && a.retryRepo then a.retryRemote else b.items[k - 1].mergedSha) == Some(sha)))
  {
    if k > 0 {
      var known := if ports.git && a.retryRepo then a.retryRemote else b.items[k - 1].mergedSha;
      if known.Some? { assert Usable(b, k, known.value) <==> known.value != "" && known.value != b.sourceStartSha; }
    }
  }

  /** What the item shows for each status of its run. */
  lemma RunStateTable(was: Item, s: RunStatus, a: Answers, now: Item)
    requires RunStateShows(was, s, a, now)
    ensures s == RunRecords.Failed ==> now.status == Blocked && now.blockedReason == Some(RunFailed)
    ensures s == RunRecords.Blocked ==> now.status == Blocked && now.blockedReason == Some(RunBlocked)
    ensures s == RunRecords.NeedsHumanReview ==> now.status == Blocked && now.blockedReason == Some(BlockReason.NeedsHumanReview)
    ensures s == RunRecords.Cancelled ==> now.status == Blocked && now.blockedReason == Some(RunCancelled)
    ensures s in {RunRecords.Queued, RunRecords.Running, RunRecords.Passed} && was.status != Blocked ==> now.status == was.status
    ensures s == RunRecords.Waiting && was.status == Active && (if was.prNumber.Some? then was.prNumber.value > 0 else a.pr > 0) ==>
              now.status == WaitingMerge && now.prNumber == if was.prNumber.Some? then was.prNumber else Some(a.pr)
    ensures s == RunRecords.Waiting && was.status == Active && a.pr <= 0 && was.prNumber.None? ==> now.status == Active && now.prNumber.None?
    ensures
      var reasons := {Some(RunFailed), Some(RunBlocked), Some(RunCancelled), Some(BlockReason.NeedsHumanReview)};
      s in {RunRecords.Queued, RunRecords.Running, RunRecords.Passed} && was.status == Blocked && was.blockedReason in reasons ==>
        now.status == Active && now.blockedReason.None?
    ensures s in {RunRecords.Queued, RunRecords.Running} && was.status == Blocked
            && was.blockedReason in {Some(EnvironmentUnhealthy), Some(BaseShaUnresolvable), Some(CiFailed), Some(PrClosedUnmerged), Some(PrBaseMismatch)} ==>
              now.status == Blocked && now.blockedReason == was.blockedReason
    ensures s in {RunRecords.Queued, RunRecords.Running, RunRecords.Passed} && was.status == Blocked && was.blockedReason.Some? && was.blockedReason.value.OtherReason? ==>
              (now.status == Active <==> s == RunRecords.Passed && "run_" <= was.blockedReason.value.text)
  {
  }

  /** What the item shows for each answer about its pull request, in this order. */
  lemma PrTable(ports: Ports, was: Item, pr: int, a: Answers, now: Item)
    requires a.answered && PrShows(ports, was, pr, a, now) && was.status in {Active, WaitingMerge}
    ensures
      var r := a.readiness;
      && (!r.baseMatches ==> now.status == Blocked && now.blockedReason == Some(PrBaseMismatch))
      && (r.baseMatches && !r.merged && r.closed ==> now.status == Blocked && now.blockedReason == Some(PrClosedUnmerged))
      && (r.baseMatches && !r.merged && !r.closed && r.autoMergeOff ==> now.status == Blocked && now.blockedReason == Some(AutoMergeUnavailable))
      && (r.baseMatches && !r.merged && !r.closed && !r.autoMergeOff && r.ciFailed ==> now.status == Blocked && now.blockedReason == Some(CiFailed))
      && (r.baseMatches && !r.merged && !r.closed && !r.autoMergeOff && !r.ciFailed ==>
            now.status == if r.open && pr > 0 then WaitingMerge else was.status)
    ensures
      var fetched := ports.git && a.mergeRemote.Some? && a.mergeRemote.value != "";
      a.readiness.baseMatches && a.readiness.merged && (fetched || a.readiness.mergeSha.None? || a.readiness.mergeSha.value != "") ==>
        now.status == Merged
        && now.mergedSha == if fetched then a.mergeRemote else if a.readiness.mergeSha.Some? then a.readiness.mergeSha else Some("unknown-merge-sha")
  {
  }

  /** A pull request without problems lifts a block for failed checks, missing auto-merge or a wrong base, and no other. */
  lemma PrLifts(ports: Ports, was: Item, pr: int, a: Answers, now: Item)
    requires a.answered && PrShows(ports, was, pr, a, now) && was.status == Blocked && was.blockedReason.Some?
    requires
      var r := a.readiness;
      r.baseMatches && !r.merged && !r.closed && !r.autoMergeOff && !r.ciFailed
    ensures
      var lifts := was.blockedReason.value in {CiFailed, AutoMergeUnavailable, PrBaseMismatch};
      now.status == if !lifts then Blocked else if a.readiness.open && pr > 0 then WaitingMerge else Active
  {
  }

  /** The domain accepts the admission of the first unmerged item with a release run of its issue. */
  lemma AdmissionIsAllowed(w: World, k: nat, u: Uuid, base: Option<Sha>)
    requires Inv(w) && OneRunEach(w) && !Terminal(w.batch) && k == FirstUnmerged(w.batch.items) < |w.batch.items|
    requires RunFor(w, u, w.batch.items[k].issue)
    ensures Allowed(w.batch, Admit(k, u, base))
  {
    var items := w.batch.items;
    var n :| 0 <= n < |w.runs| && w.runs[n].uuid == u && OnBranch(w, n, items[k].issue);
    forall i | 0 <= i < |items| && items[i].runUuid.Some?
      ensures i == k <==> items[i].runUuid.value == u
    {
      var m :| 0 <= m < |w.runs| && w.runs[m].uuid == items[i].runUuid.value && OnBranch(w, m, items[i].issue);
      if i == k {
        assert IssueOfBatch(w, items[k].issue);
        OnlyRun(w, items[k].issue, m, n);
      } else {
        assert items[i].issue != items[k].issue;
      }
    }
  }

  /** The run of an item without one may get its start: nobody points at it, and a later item's base is not the start of the batch. */
  lemma StartIsLegal(w: World, k: nat, u: Uuid, base: Sha)
    requires Inv(w) && k < |w.batch.items| && w.batch.items[k].runUuid.None? && RunFor(w, u, w.batch.items[k].issue)
    requires UsableBase(w.batch, k, Some(base))
    ensures Legal(w, SetStart(u, base))
  {
    var items := w.batch.items;
    var n :| 0 <= n < |w.runs| && w.runs[n].uuid == u && OnBranch(w, n, items[k].issue);
    forall j | 0 <= j < |items| && items[j].runUuid.Some? ensures items[j].runUuid.value != u {
      var m :| 0 <= m < |w.runs| && w.runs[m].uuid == items[j].runUuid.value && OnBranch(w, m, items[j].issue);
      assert items[j].issue != items[k].issue;
    }
    if k == 0 {
      forall i, j | 0 <= i < |w.runs| && 0 < j < |items| && w.runs[i].uuid == u ensures !OnBranch(w, i, items[j].issue) {
        assert items[j].issue != items[0].issue;
      }
    }
  }

  lemma StartIsSet(w: World, u: Uuid, base: Sha)
    requires Legal(w, SetStart(u, base))
    ensures StartsOn(Apply(w, SetStart(u, base)), u, base)
  {
    var i :| 0 <= i < |w.runs| && w.runs[i].uuid == u;
    var w' := Apply(w, SetStart(u, base));
    assert w'.runs[i].uuid == u && w'.runs[i].startSha == Some(base);
  }

  lemma OnlyRun(w: World, issue: nat, m: nat, n: nat)
    requires NewestOnBranch(w, issue) && m < |w.runs| && n < |w.runs| && OnBranch(w, m, issue) && OnBranch(w, n, issue)
    ensures m == n
  {
  }

  /** Statuses may have become passed; nothing else about the runs differs. */
  ghost predicate Healed(a: seq<Run>, b: seq<Run>) {
    |a| == |b| && forall i :: 0 <= i < |a| ==> b[i] == a[i] || b[i] == a[i].(status := RunRecords.Passed)
  }

  lemma {:induction false} HealedIsFound(a: seq<Run>, b: seq<Run>, issue: nat)
    requires Healed(a, b)
    ensures FindByIssue(a, issue).Some? == FindByIssue(b, issue).Some?
    ensures FindByIssue(a, issue).Some? ==>
      var x, y := FindByIssue(a, issue).value, FindByIssue(b, issue).value;
      y == x || y == x.(status := RunRecords.Passed)
  {
    if a != [] { HealedIsFound(a[..|a| - 1], b[..|b| - 1], issue); }
  }

  /** Whatever is stored of the run says that it passed. */
  ghost predicate RunPassed(w: World, u: Uuid) {
    forall i :: 0 <= i < |w.runs| && w.runs[i].uuid == u ==> w.runs[i].status == RunRecords.Passed
  }

  /** The runs of the merged items among the first n have passed. */
  ghost predicate RunsPassed(w: World, n: nat) {
    n <= |w.batch.items| &&
    forall k :: 0 <= k < n && w.batch.items[k].status == Merged && w.batch.items[k].runUuid.Some? ==> RunPassed(w, w.batch.items[k].runUuid.value)
  }

  lemma PassedStays(w: World, w': World, n: nat)
    requires RunsPassed(w, n) && w'.batch == w.batch && Healed(w.runs, w'.runs)
    ensures RunsPassed(w', n)
  {
    forall k | 0 <= k < n && w.batch.items[k].status == Merged && w.batch.items[k].runUuid.Some?
      ensures RunPassed(w', w.batch.items[k].runUuid.value)
    {
      assert RunPassed(w, w.batch.items[k].runUuid.value);
    }
  }

  /** The item's run failed or was cancelled. */
  ghost predicate RunGivenUp(w: World, k: nat) {
    && k < |w.batch.items| && w.batch.items[k].runUuid.Some?
    && exists i :: 0 <= i < |w.runs| && w.runs[i].uuid == w.batch.items[k].runUuid.value && w.runs[i].status in {RunRecords.Failed, RunRecords.Cancelled}
  }

  /** The batch is blocked for this reason. */
  predicate BatchStopped(b: Batch, reason: BlockReason) { b.status == BatchBlocked && b.blockedReason == Some(reason) }

  /** A later item cannot be admitted: the environment is ill, or no commit but the start of the batch is known. */
  ghost predicate MustStop(ports: Ports, b: Batch, k: nat, a: Answers, reason: BlockReason) {
    && 0 < k < |b.items|
    && var ill := ports.maintenance && a.healthRepo && !a.healthy;
    && (ill ==> reason == if a.illness.Some? then a.illness.value else EnvironmentUnhealthy)
    && (!ill ==> reason == BaseShaUnresolvable && !UsableBase(b, k, AdmissionBase(ports, b, k, a)))
  }

  /** Item k has a run that goes on and a pull request that GitHub reports as merged. */
  ghost predicate WillCertify(ports: Ports, w: World, k: nat, a: Answers) {
    && !Terminal(w.batch) && k == FirstUnmerged(w.batch.items) < |w.batch.items| && ports.github
    && var item := w.batch.items[k];
    && item.runUuid.Some? && HasRun(w, item.runUuid.value)
    && (forall i :: 0 <= i < |w.runs| && w.runs[i].uuid == item.runUuid.value ==> GoesOn(item, w.runs[i].status))
    && item.prNumber.Some? && item.prNumber.value > 0
    && a.answered && a.readiness.merged && PrProblem(a.readiness).None? && MergeSha(ports, a) != ""
  }

  /** The item waits for its run or pull request, or is blocked for something that is over. */
  predicate GoesOn(item: Item, s: RunStatus) {
    && RunProblem(s).None?
    && (ReleaseBatch.Current(item.status) || PrBlocker(item) || (item.status == Blocked && RunBlocker(item.blockedReason, RunRecords.Running)))
  }

  lemma GoesOnShows(was: Item, s: RunStatus, a: Answers, now: Item)
    requires GoesOn(was, s) && was.prNumber.Some? && RunStateShows(was, s, a, now)
    ensures now.prNumber == was.prNumber && (ReleaseBatch.Current(now.status) || PrBlocker(now))
  {
  }

  lemma HealedGoesOn(ports: Ports, w: World, w': World, k: nat, a: Answers)
    requires WillCertify(ports, w, k, a) && w'.batch == w.batch && Healed(w.runs, w'.runs)
    ensures WillCertify(ports, w', k, a)
  {
    var u := w.batch.items[k].runUuid.value;
    var i :| 0 <= i < |w.runs| && w.runs[i].uuid == u;
    assert w'.runs[i].uuid == u;
    forall j | 0 <= j < |w'.runs| && w'.runs[j].uuid == u ensures GoesOn(w.batch.items[k], w'.runs[j].status) {
      assert w.runs[j].uuid == u;
    }
  }

  lemma HealedIsReady(ports: Ports, w: World, w': World, k: nat, a: Answers)
    requires WillAdmit(ports, w, k, a) && w'.batch == w.batch && Healed(w.runs, w'.runs)
    ensures WillAdmit(ports, w', k, a)
  {
    HealedIsFound(w.runs, w'.runs, w.batch.items[k].issue);
  }

  // ---------------------------------------------------------------- what stays through an await

  lemma {:induction false} PatchIsFound(runs: seq<Run>, u: Uuid, status: Option<RunStatus>, sha: Option<Sha>, issue: nat)
    ensures
      var a, b := FindByIssue(runs, issue), FindByIssue(PatchRun(runs, u, status, sha), issue);
      && a.Some? == b.Some?
      && (a.Some? ==> b.value.uuid == a.value.uuid && b.value.branch == a.value.branch && b.value.startedAt == a.value.startedAt)
  {
    if runs != [] {
      var n := |runs| - 1;
      PatchIsFound(runs[..n], u, status, sha, issue);
      assert PatchRun(runs, u, status, sha)[..n] == PatchRun(runs[..n], u, status, sha);
    }
  }

  lemma EnvironmentIsSteady(w: World, e: Event, issue: nat)
    requires Legal(w, e) && Environment(e) && IssueOfBatch(w, issue) && Steady(w, issue)
    ensures Steady(Apply(w, e), issue)
  {
    if e.RunMoves? { PatchIsFound(w.runs, e.uuid, Some(e.status), None, issue); }
    if e.OutsideRun? { assert (w.runs + [e.run])[..|w.runs|] == w.runs; }
  }

  lemma {:induction false} StaysSteady(w: World, es: seq<Event>, issue: nat)
    requires LegalRun(w, es) && IssueOfBatch(w, issue) && Steady(w, issue) && forall k :: 0 <= k < |es| ==> Environment(es[k])
    ensures Steady(Replay(w, es), issue)
    decreases |es|
  {
    if es != [] {
      assert Environment(es[0]);
      EnvironmentIsSteady(w, es[0], issue);
      IssuesStay(w, es[0], issue);
      StaysSteady(Apply(w, es[0]), es[1..], issue);
    }
  }

  class Coordinator {
    const ports: Ports
    var world: World
    var writesLeft: nat
    ghost const start: World
    ghost var trace: seq<Event>

    ghost predicate Valid()
      reads this
    {
      Init(start) && LegalRun(start, trace) && world == Replay(start, trace)
    }

    /** Every insertion so far was timely, and so will be one at this time. */
    ghost predicate Punctual(now: int)
      requires Valid()
      reads this
    {
      TimelyRun(start, trace) && ClockOk(world, now)
    }

    /** From any store that legal writes have produced, such as the one a batch start leaves. */
    constructor (w: World, ghost origin: World, ghost writes: seq<Event>, ports: Ports)
      requires Init(origin) && LegalRun(origin, writes) && w == Replay(origin, writes)
      ensures Valid() && world == w && start == origin && trace == writes && this.ports == ports
    {
      this.ports := ports;
      world, writesLeft, start, trace := w, 0, origin, writes;
    }

    lemma Safe()
      requires Valid()
      ensures Inv(world)
      ensures TimelyRun(start, trace) ==> OneRunEach(world)
    {
      InitIsInv(start);
      RunKeepsInv(start, trace);
      if TimelyRun(start, trace) { RunKeepsOne(start, trace); }
    }

    lemma UuidsAreUnique()
      requires Valid()
      ensures UniqueUuids(world)
    {
      Safe();
    }

    /** Remediation items, appended between two calls after a failed manual test. */
    method AppendRemediation(issues: seq<nat>)
      requires Valid() && Legal(world, AppendItems(issues))
      modifies this`world, this`trace
      ensures Valid() && Inv(world) && world == Apply(old(world), AppendItems(issues))
      ensures TimelyRun(start, trace) == old(TimelyRun(start, trace)) && (old(Based(world)) ==> Based(world))
    {
      var e := AppendItems(issues);
      if Based(world) { EventKeepsBased(world, e); }
      ReplayAppend(start, trace, [e]);
      assert Replay(world, [e]) == Apply(world, e) by { assert [e][1..] == []; }
      trace := trace + [e];
      world := Apply(world, e);
      Safe();
    }

    /** One write; a dead process writes nothing. */
    method Write(e: Event, ghost now: int) returns (alive: bool)
      requires Valid() && Legal(world, e) && !e.AppendItems?
      modifies this`world, this`writesLeft, this`trace
      ensures Valid() && (old(Punctual(now)) && Timely(old(world), e) ==> Punctual(now))
      ensures old(Based(world)) && KeepsBased(old(world), e) ==> Based(world)
      ensures world == if alive then Apply(old(world), e) else old(world)
      ensures alive <==> old(writesLeft) > 0
      ensures writesLeft == if alive then old(writesLeft) - 1 else 0
    {
      if ClockOk(world, now) { EventKeepsClock(world, e, now); }
      if Based(world) { EventKeepsBased(world, e); }
      if writesLeft == 0 { return false; }
      writesLeft := writesLeft - 1;
      ReplayAppend(start, trace, [e]);
      assert Replay(world, [e]) == Apply(world, e) by {
        assert [e][1..] == [];
      }
      trace := trace + [e];
      world := Apply(world, e);
      alive := true;
    }

    /** Whatever the rest of the system writes meanwhile; callers learn only that it was legal. */
    method Elsewhere() returns (ghost es: seq<Event>)
      requires Valid()
      modifies this`world, this`trace
      ensures Valid() && LegalRun(old(world), es) && world == Replay(old(world), es)
      ensures TimelyRun(start, trace) == old(TimelyRun(start, trace))
      ensures forall k :: 0 <= k < |es| ==> Environment(es[k])
    {
      es := [];
    }

    method Await(ghost now: int)
      requires Valid()
      modifies this`world, this`trace
      ensures Valid() && (old(Punctual(now)) ==> Punctual(now)) && (old(Based(world)) ==> Based(world)) && world.batch == old(world.batch)
      ensures forall k :: 0 <= k < |world.batch.items| && Steady(old(world), world.batch.items[k].issue) ==>
                Steady(world, world.batch.items[k].issue)
    {
      ghost var before := world;
      ghost var es := Elsewhere();
      EnvironmentKeepsBatch(before, es);
      if Based(before) { EnvironmentKeepsBased(before, es); }
      if ClockOk(before, now) { EnvironmentKeeps(before, es, now); }
      forall k | 0 <= k < |world.batch.items| && Steady(before, world.batch.items[k].issue)
        ensures Steady(world, world.batch.items[k].issue)
      {
        assert IssueOfBatch(before, world.batch.items[k].issue);
        StaysSteady(before, es, world.batch.items[k].issue);
      }
    }

    /** A batch update other than a merge. */
    method SaveTransition(t: Transition, ghost now: int) returns (alive: bool)
      requires Valid() && Legal(world, Save(t)) && !t.Merge?
      modifies this`world, this`writesLeft, this`trace
      ensures Valid() && (old(Punctual(now)) ==> Punctual(now))
      ensures old(Based(world)) && KeepsBased(old(world), Save(t)) ==> Based(world)
      ensures world == if alive then old(world).(batch := Transit(old(world.batch), t)) else old(world)
      ensures alive <==> old(writesLeft) > 0
      ensures writesLeft == if alive then old(writesLeft) - 1 else 0
      ensures SameMerged(old(world.batch.items), world.batch.items)
    {
      SaveKeepsMerged(world.batch, t);
      SaveKeepsIdentity(world.batch, t);
      alive := Write(Save(t), now);
    }

    method EnsureJobEnqueued(u: Uuid, ghost now: int) returns (alive: bool)
      requires Valid() && HasRun(world, u)
      modifies this`world, this`writesLeft, this`trace
      ensures Valid() && (old(Punctual(now)) ==> Punctual(now)) && (old(Based(world)) ==> Based(world))
      ensures world.batch == old(world.batch) && world.runs == old(world.runs)
      ensures alive ==> HasLiveJob(world, u)
      ensures old(writesLeft) > 0 ==> alive && writesLeft >= old(writesLeft) - 1
    {
      for j := 0 to |world.jobs|
        invariant forall i :: 0 <= i < j ==> !(world.jobs[i].runUuid == u && world.jobs[i].live)
      {
        if world.jobs[j].runUuid == u && world.jobs[j].live { return true; }
      }
      ghost var n := |world.jobs|;
      alive := Write(EnqueueJob(u), now);
      assert alive ==> world.jobs[n].runUuid == u && world.jobs[n].live;
    }

    method FreshUuid() returns (u: Uuid)
      ensures !HasRun(world, u)
    {
      u := 0;
      for i := 0 to |world.runs|
        invariant forall j :: 0 <= j < i ==> world.runs[j].uuid < u
      {
        if world.runs[i].uuid >= u { u := world.runs[i].uuid + 1; }
      }
    }

    /** The run to admit the item with: the stored one, or a new one if no run of the issue is active. */
    method ClaimRun(k: nat, now: int) returns (u: Option<Uuid>)
      requires Valid() && k < |world.batch.items|
      modifies this`world, this`writesLeft, this`trace
      ensures Valid() && (old(Punctual(now)) ==> Punctual(now)) && (old(Based(world)) ==> Based(world)) && world.batch == old(world.batch)
      ensures u.Some? ==> RunFor(world, u.value, world.batch.items[k].issue)
      ensures MatchingRun(old(world), world.batch.items[k].issue).Some? ==>
                u == Some(MatchingRun(old(world), world.batch.items[k].issue).value.uuid) && world == old(world)
      ensures old(writesLeft) > 0 && Startable(old(world), world.batch.items[k].issue) ==>
                u.Some? && writesLeft >= old(writesLeft) - 1
    {
      var issue := world.batch.items[k].issue;
      var existing := MatchingRun(world, issue);
      if existing.Some? {
        MatchIsRunFor(world, issue);
        return Some(existing.value.uuid);
      }
      for i := 0 to |world.runs|
        invariant forall j :: 0 <= j < i && world.runs[j].issue == issue ==> !RunRecords.RunActive(world.runs[j].status)
      {
        if world.runs[i].issue == issue && RunRecords.RunActive(world.runs[i].status) { return None; }
      }
      Safe();
      if Punctual(now) { NoMatchIsLater(world, k, now); }
      var newId := FreshUuid();
      var run := Run(newId, issue, world.batch.releaseBranch, now, RunRecords.Running, None);
      ghost var n := |world.runs|;
      var alive := Write(InsertRun(run), now);
      if !alive { return None; }
      assert world.runs[n] == run && OnBranch(world, n, issue);
      u := Some(newId);
    }

    /** admitSuccessor: run, job, start commit, item; it may stop after any of them, and with four writes left it does not. */
    method AdmitSuccessor(k: nat, explicitBase: Option<Sha>, now: int) returns (done: bool)
      requires Valid() && k < |world.batch.items| && world.batch.items[k].runUuid.None?
      modifies this`world, this`writesLeft, this`trace
      ensures Valid() && (old(Punctual(now)) ==> Punctual(now)) && (old(Based(world)) ==> Based(world))
      ensures SameMerged(old(world.batch.items), world.batch.items)
      ensures
        var base := BaseFor(old(world.batch), k, explicitBase);
        if done then base.Some? && base.value != "" && AdmittedOn(world, k, base.value) else world.batch == old(world.batch)
      ensures done && MatchingRun(old(world), old(world.batch.items[k].issue)).Some? ==>
                world.batch.items[k].runUuid == Some(MatchingRun(old(world), old(world.batch.items[k].issue)).value.uuid)
      ensures old(Punctual(now)) && old(writesLeft) >= 4 && Admissible(old(world), k, Known(BaseFor(old(world.batch), k, explicitBase))) ==> done
    {
      var claimed := ClaimRun(k, now);
      if claimed.None? { return false; }
      var u := claimed.value;
      var alive := EnsureJobEnqueued(u, now);
      if !alive { return false; }
      var base := Known(BaseFor(world.batch, k, explicitBase));
      if base.None? || !UsableBase(world.batch, k, base) { return false; }
      done := StartAndAdmit(k, u, base.value, now);
    }

    /** The last two writes of an admission. */
    method StartAndAdmit(k: nat, u: Uuid, base: Sha, now: int) returns (done: bool)
      requires Valid() && k < |world.batch.items| && RunFor(world, u, world.batch.items[k].issue) && HasLiveJob(world, u)
      requires world.batch.items[k].runUuid.None? && UsableBase(world.batch, k, Some(base))
      modifies this`world, this`writesLeft, this`trace
      ensures Valid() && (old(Punctual(now)) ==> Punctual(now)) && (old(Based(world)) ==> Based(world))
      ensures SameMerged(old(world.batch.items), world.batch.items)
      ensures if done then AdmittedOn(world, k, base) && world.batch.items[k].runUuid == Some(u) else world.batch == old(world.batch)
      ensures old(Punctual(now)) && old(writesLeft) >= 2 && !Terminal(old(world.batch)) && k == FirstUnmerged(old(world.batch.items)) ==> done
    {
      var alive := StartRun(k, u, base, now);
      if !alive { return false; }
      done := AdmitStarted(k, u, base, now);
    }

    method StartRun(k: nat, u: Uuid, base: Sha, ghost now: int) returns (alive: bool)
      requires Valid() && k < |world.batch.items| && RunFor(world, u, world.batch.items[k].issue) && HasLiveJob(world, u)
      requires world.batch.items[k].runUuid.None? && UsableBase(world.batch, k, Some(base))
      modifies this`world, this`writesLeft, this`trace
      ensures Valid() && (old(Punctual(now)) ==> Punctual(now)) && (old(Based(world)) ==> Based(world)) && world.batch == old(world.batch)
      ensures alive <==> old(writesLeft) > 0
      ensures alive ==> writesLeft == old(writesLeft) - 1
      ensures alive ==> StartsOn(world, u, base) && RunFor(world, u, world.batch.items[k].issue) && HasLiveJob(world, u)
    {
      ghost var before := world;
      Safe();
      StartIsLegal(world, k, u, base);
      alive := Write(SetStart(u, base), now);
      if alive {
        StartIsSet(before, u, base);
        RunForGrows(before, world, u, before.batch.items[k].issue);
        assert world.jobs == before.jobs;
      }
    }

    method AdmitStarted(k: nat, u: Uuid, base: Sha, now: int) returns (done: bool)
      requires Valid() && k < |world.batch.items| && RunFor(world, u, world.batch.items[k].issue) && HasLiveJob(world, u)
      requires StartsOn(world, u, base) && UsableBase(world.batch, k, Some(base))
      modifies this`world, this`writesLeft, this`trace
      ensures Valid() && (old(Punctual(now)) ==> Punctual(now)) && (old(Based(world)) ==> Based(world))
      ensures SameMerged(old(world.batch.items), world.batch.items)
      ensures if done then AdmittedOn(world, k, base) && world.batch.items[k].runUuid == Some(u) else world.batch == old(world.batch)
      ensures old(Punctual(now)) && old(writesLeft) >= 1 && !Terminal(old(world.batch)) && k == FirstUnmerged(old(world.batch.items)) ==> done
    {
      ghost var before := world;
      Safe();
      if Punctual(now) && !Terminal(world.batch) && k == FirstUnmerged(world.batch.items) { AdmissionIsAllowed(world, k, u, Some(base)); }
      var t := Admit(k, u, Some(base));
      if !Allowed(world.batch, t) { return false; }
      done := SaveTransition(t, now);
      if done {
        StartStays(before, Save(t), u, base);
        assert world.jobs == before.jobs;
      }
    }

    /** Runs of merged items are marked passed. */
    method HealMergedRuns(ghost now: int) returns (alive: bool)
      requires Valid()
      modifies this`world, this`writesLeft, this`trace
      ensures Valid() && (old(Punctual(now)) ==> Punctual(now)) && (old(Based(world)) ==> Based(world)) && world.batch == old(world.batch)
      ensures Healed(old(world.runs), world.runs)
      ensures old(writesLeft) >= |world.batch.items| ==> alive && writesLeft >= old(writesLeft) - |world.batch.items|
      ensures alive ==> RunsPassed(world, |world.batch.items|)
    {
      for k := 0 to |world.batch.items|
        invariant RunsPassed(world, k)
        invariant Valid() && (old(Punctual(now)) ==> Punctual(now)) && (old(Based(world)) ==> Based(world)) && world.batch == old(world.batch)
        invariant Healed(old(world.runs), world.runs)
        invariant old(writesLeft) >= |world.batch.items| ==> writesLeft >= old(writesLeft) - k
      {
        var item := world.batch.items[k];
        if item.status == Merged {
          ghost var before := world;
          var ok := MarkRunPassed(item.runUuid, now);
          if !ok { return false; }
          PassedStays(before, world, k);
        }
      }
      alive := true;
    }

    method FindRun(u: Uuid) returns (run: Option<Run>)
      ensures run.Some? ==> run.value in world.runs && run.value.uuid == u && HasRun(world, u)
      ensures run.None? ==> !HasRun(world, u)
    {
      for i := 0 to |world.runs|
        invariant forall j :: 0 <= j < i ==> world.runs[j].uuid != u
      {
        if world.runs[i].uuid == u { return Some(world.runs[i]); }
      }
      run := None;
    }

    /** A blocked batch goes on exactly when its environment or base-commit blocker has cleared. */
    method TryUnblockBatch(k: nat, a: Answers, ghost now: int) returns (goOn: bool)
      requires Valid() && k < |world.batch.items| && world.batch.status == BatchBlocked
      modifies this`world, this`writesLeft, this`trace
      ensures Valid() && (old(Punctual(now)) ==> Punctual(now)) && (old(Based(world)) ==> Based(world))
      ensures goOn <==> Clears(ports, old(world.batch), k, a) && old(writesLeft) > 0
      ensures goOn ==> writesLeft == old(writesLeft) - 1
      ensures world.batch == if goOn then old(world.batch).(status := Building, blockedReason := None) else old(world.batch)
      ensures Steady(old(world), world.batch.items[k].issue) ==> Steady(world, world.batch.items[k].issue)
    {
      var clear := false;
      if world.batch.blockedReason == Some(EnvironmentUnhealthy) && ports.maintenance && k > 0 {
        if a.retryRepo {
          Await(now);
          clear := a.retryHealthy;
        }
      } else if world.batch.blockedReason == Some(BaseShaUnresolvable) && k > 0 {
        var sha := Known(ResolveBase(world.batch, k));
        if ports.git && a.retryRepo {
          Await(now);
          sha := Known(a.retryRemote);
        }
        clear := sha.Some? && sha.value != world.batch.sourceStartSha;
      }
      if !clear { return false; }
      goOn := SaveTransition(SetStatus(Building), now);
    }

    /** Case 1: the current item waits for admission. */
    method ReconcilePending(k: nat, a: Answers, now: int)
      requires Valid() && k < |world.batch.items| && !Terminal(world.batch) && world.batch.items[k].status == Pending
      modifies this`world, this`writesLeft, this`trace
      ensures Valid() && (old(Punctual(now)) ==> Punctual(now)) && (old(Based(world)) ==> Based(world)) && SameMerged(old(world.batch.items), world.batch.items)
      ensures AdmittedOrPending(ports, old(world), k, a, world)
      ensures old(Punctual(now)) && old(writesLeft) >= 5 && WillAdmit(ports, old(world), k, a) ==> Admitted(world, k)
      ensures
        var asked := k == FirstUnmerged(old(world.batch.items)) && old(writesLeft) > 0 && old(world.batch.status) != BatchBlocked;
        forall reason :: asked && MustStop(ports, old(world.batch), k, a, reason) ==> BatchStopped(world.batch, reason)
    {
      if world.batch.status == BatchBlocked {
        var goOn := TryUnblockBatch(k, a, now);
        if !goOn { return; }
      }
      AdmitPending(k, a, now);
    }

    /** Maintenance, a fresh base, and the admission. */
    method AdmitPending(k: nat, a: Answers, now: int)
      requires Valid() && k < |world.batch.items| && !Terminal(world.batch) && world.batch.items[k].status == Pending
      modifies this`world, this`writesLeft, this`trace
      ensures Valid() && (old(Punctual(now)) ==> Punctual(now)) && (old(Based(world)) ==> Based(world)) && SameMerged(old(world.batch.items), world.batch.items)
      ensures AdmittedOrPending(ports, old(world), k, a, world)
      ensures old(Punctual(now)) && old(writesLeft) >= 4 && ReadyToAdmit(ports, old(world), k, a) ==> Admitted(world, k)
      ensures
        var asked := k == FirstUnmerged(old(world.batch.items)) && old(writesLeft) > 0;
        forall reason :: asked && MustStop(ports, old(world.batch), k, a, reason) ==> BatchStopped(world.batch, reason)
    {
      Safe();
      var other := AnotherIsCurrent(k);
      if other { return; }
      var healthy := CheckHealth(k, a, now);
      if !healthy { return; }
      AdmitOnFreshBase(k, a, now);
    }

    method AnotherIsCurrent(k: nat) returns (yes: bool)
      ensures yes <==> exists i :: 0 <= i < |world.batch.items| && i != k && ReleaseBatch.Current(world.batch.items[i].status)
    {
      for i := 0 to |world.batch.items|
        invariant forall j :: 0 <= j < i && j != k ==> !ReleaseBatch.Current(world.batch.items[j].status)
      {
        if i != k && ReleaseBatch.Current(world.batch.items[i].status) { return true; }
      }
      yes := false;
    }

    /** Before a later item, maintenance is asked; an ill environment blocks the batch. */
    method CheckHealth(k: nat, a: Answers, ghost now: int) returns (healthy: bool)
      requires Valid() && k < |world.batch.items|
      modifies this`world, this`writesLeft, this`trace
      ensures Valid() && (old(Punctual(now)) ==> Punctual(now)) && (old(Based(world)) ==> Based(world)) && world.batch.items == old(world.batch.items)
      ensures healthy <==> (AsksHealth(ports, k, a) ==> a.healthy)
      ensures healthy ==> world.batch == old(world.batch) && writesLeft == old(writesLeft)
      ensures healthy && Steady(old(world), world.batch.items[k].issue) ==> Steady(world, world.batch.items[k].issue)
      ensures !AsksHealth(ports, k, a) ==> world == old(world)
      ensures !healthy && !Terminal(old(world.batch)) && old(writesLeft) > 0 ==>
                world.batch.status == BatchBlocked && world.batch.blockedReason == Some(if a.illness.Some? then a.illness.value else EnvironmentUnhealthy)
    {
      if !AsksHealth(ports, k, a) { return true; }
      Await(now);
      if !a.healthy {
        var _ := BlockWholeBatch(if a.illness.Some? then a.illness.value else EnvironmentUnhealthy, now);
      }
      healthy := a.healthy;
    }

    /** The fetched head goes before what is stored; after a failed fetch a later item has none. */
    method FetchBase(k: nat, a: Answers, ghost now: int) returns (base: Option<Sha>)
      requires Valid() && k < |world.batch.items|
      modifies this`world, this`trace
      ensures Valid() && (old(Punctual(now)) ==> Punctual(now)) && (old(Based(world)) ==> Based(world)) && world.batch == old(world.batch)
      ensures Steady(old(world), world.batch.items[k].issue) ==> Steady(world, world.batch.items[k].issue)
      ensures !AsksGit(ports, a) ==> world == old(world)
      ensures base == AdmissionBase(ports, world.batch, k, a)
      ensures base.Some? ==> base.value != "" && IsCallBase(ports, world.batch, k, a, base.value)
    {
      base := Known(BaseFor(world.batch, k, None));
      if AsksGit(ports, a) {
        Await(now);
        if Known(a.remote).Some? { base := a.remote; } else if k > 0 { base := None; }
      }
    }

    method AdmitOnFreshBase(k: nat, a: Answers, now: int)
      requires Valid() && k < |world.batch.items| && !Terminal(world.batch) && world.batch.items[k].status == Pending
      requires world.batch.items[k].runUuid.None?
      modifies this`world, this`writesLeft, this`trace
      ensures Valid() && (old(Punctual(now)) ==> Punctual(now)) && (old(Based(world)) ==> Based(world)) && SameMerged(old(world.batch.items), world.batch.items)
      ensures AdmittedOrPending(ports, old(world), k, a, world)
      ensures old(Punctual(now)) && old(writesLeft) >= 4 && ReadyToAdmit(ports, old(world), k, a) ==> Admitted(world, k)
      ensures k > 0 && old(writesLeft) > 0 && !UsableBase(old(world.batch), k, AdmissionBase(ports, old(world.batch), k, a)) ==>
                BatchStopped(world.batch, BaseShaUnresolvable)
    {
      var base := FetchBase(k, a, now);
      if k > 0 && !UsableBase(world.batch, k, base) {
        var _ := BlockWholeBatch(BaseShaUnresolvable, now);
        return;
      }
      var _ := AdmitSuccessor(k, base, now);
    }

    method BlockWholeBatch(reason: BlockReason, ghost now: int) returns (alive: bool)
      requires Valid()
      modifies this`world, this`writesLeft, this`trace
      ensures Valid() && (old(Punctual(now)) ==> Punctual(now)) && (old(Based(world)) ==> Based(world)) && SameMerged(old(world.batch.items), world.batch.items)
      ensures world.batch.items == old(world.batch.items)
      ensures !Terminal(old(world.batch)) && old(writesLeft) > 0 ==> world.batch.status == BatchBlocked && world.batch.blockedReason == Some(reason)
    {
      if Terminal(world.batch) { return false; }
      alive := SaveTransition(BlockBatch(reason), now);
    }

    /** Case 2: the item is admitted but no run is recorded on it. The stored run is adopted, or the admission repeated. */
    method ReconcileUnassigned(k: nat, a: Answers, now: int)
      requires Valid() && k == FirstUnmerged(world.batch.items) < |world.batch.items| && !Terminal(world.batch)
      requires world.batch.items[k].status != Pending && world.batch.items[k].runUuid.None?
      modifies this`world, this`writesLeft, this`trace
      ensures Valid() && (old(Punctual(now)) ==> Punctual(now)) && (old(Based(world)) ==> Based(world)) && SameMerged(old(world.batch.items), world.batch.items)
      ensures
        var found := MatchingRun(old(world), old(world.batch.items[k].issue));
        var base := Known(BaseFor(old(world.batch), k, None));
        old(Punctual(now)) && old(writesLeft) > 0 && found.Some? && UsableBase(old(world.batch), k, base) ==>
          && world.batch.items[k].status == Active && world.batch.items[k].runUuid == Some(found.value.uuid)
          && (base.Some? ==> world.batch.items[k].baseSha == base)
      ensures
        var remote := if AsksGit(ports, a) then Known(a.remote) else None;
        var base := OrElse(remote, Known(BaseFor(old(world.batch), k, None)));
        old(Punctual(now)) && old(writesLeft) >= 4 && base.Some? && UsableBase(old(world.batch), k, base)
        && MatchingRun(old(world), old(world.batch.items[k].issue)).None? && Steady(old(world), old(world.batch.items[k].issue)) ==>
          AdmittedOn(world, k, base.value) && IsCallBase(ports, old(world.batch), k, a, base.value)
      ensures
        var stored := Known(BaseFor(old(world.batch), k, None));
        var remote := if AsksGit(ports, a) && MatchingRun(old(world), old(world.batch.items[k].issue)).None? then Known(a.remote) else None;
        old(writesLeft) > 0 && !UsableBase(old(world.batch), k, OrElse(remote, stored)) ==> BatchStopped(world.batch, BaseShaUnresolvable)
    {
      var item := world.batch.items[k];
      var base := Known(BaseFor(world.batch, k, None));
      var existing := MatchingRun(world, item.issue);
      if existing.Some? {
        Adopt(k, existing.value.uuid, base, now);
        return;
      }
      if AsksGit(ports, a) {
        Await(now);
        if Known(a.remote).Some? { base := a.remote; }
      }
      if !UsableBase(world.batch, k, base) {
        var _ := BlockWholeBatch(BaseShaUnresolvable, now);
        return;
      }
      var _ := AdmitSuccessor(k, base, now);
    }

    method Adopt(k: nat, u: Uuid, base: Option<Sha>, now: int)
      requires Valid() && k == FirstUnmerged(world.batch.items) < |world.batch.items| && !Terminal(world.batch)
      requires world.batch.items[k].status != Pending && world.batch.items[k].runUuid.None?
      requires MatchingRun(world, world.batch.items[k].issue).Some? && u == MatchingRun(world, world.batch.items[k].issue).value.uuid
      modifies this`world, this`writesLeft, this`trace
      ensures Valid() && (old(Punctual(now)) ==> Punctual(now)) && (old(Based(world)) ==> Based(world)) && SameMerged(old(world.batch.items), world.batch.items)
      ensures old(Punctual(now)) && old(writesLeft) > 0 && UsableBase(old(world.batch), k, base) ==>
                && world.batch.items[k].status == Active && world.batch.items[k].runUuid == Some(u)
                && (base.Some? ==> world.batch.items[k].baseSha == base)
      ensures old(writesLeft) > 0 && !UsableBase(old(world.batch), k, base) ==> BatchStopped(world.batch, BaseShaUnresolvable)
    {
      if !UsableBase(world.batch, k, base) {
        var _ := BlockWholeBatch(BaseShaUnresolvable, now);
        return;
      }
      Safe();
      MatchIsRunFor(world, world.batch.items[k].issue);
      if Punctual(now) { AdmissionIsAllowed(world, k, u, base); }
      var t := Admit(k, u, base);
      if Allowed(world.batch, t) { var _ := SaveTransition(t, now); }
    }

    /** Look up the pull request of a run and record it, unless one is recorded. */
    method TryAttachPr(k: nat, recorded: Option<int>, found: int, ghost now: int) returns (alive: bool)
      requires Valid() && k < |world.batch.items|
      modifies this`world, this`writesLeft, this`trace
      ensures Valid() && (old(Punctual(now)) ==> Punctual(now)) && (old(Based(world)) ==> Based(world)) && SameMerged(old(world.batch.items), world.batch.items)
      ensures old(writesLeft) > 0 ==> alive && writesLeft >= old(writesLeft) - 1
      ensures recorded.Some? ==> alive && world == old(world)
      ensures
        var attaches := recorded.None? && found > 0 && !Terminal(old(world.batch)) && old(writesLeft) > 0;
        world.batch == if attaches then Transit(old(world.batch), AttachPr(k, found)) else old(world.batch)
    {
      if recorded.Some? { return true; }
      Await(now);
      if found <= 0 || Terminal(world.batch) { return true; }
      alive := SaveTransition(AttachPr(k, found), now);
    }

    method Unblock(k: nat, ghost now: int) returns (alive: bool)
      requires Valid() && k < |world.batch.items|
      modifies this`world, this`writesLeft, this`trace
      ensures Valid() && (old(Punctual(now)) ==> Punctual(now)) && (old(Based(world)) ==> Based(world)) && SameMerged(old(world.batch.items), world.batch.items)
      ensures alive <==> !Terminal(old(world.batch)) && old(writesLeft) > 0
      ensures alive ==> writesLeft == old(writesLeft) - 1
      ensures world == if alive then old(world).(batch := Transit(old(world.batch), UnblockItem(k))) else old(world)
    {
      if Terminal(world.batch) { return false; }
      alive := SaveTransition(UnblockItem(k), now);
    }

    method Block(k: nat, reason: BlockReason, ghost now: int) returns (alive: bool)
      requires Valid() && k == FirstUnmerged(world.batch.items) < |world.batch.items| && world.batch.items[k].runUuid.Some?
      modifies this`world, this`writesLeft, this`trace
      ensures Valid() && (old(Punctual(now)) ==> Punctual(now)) && (old(Based(world)) ==> Based(world)) && SameMerged(old(world.batch.items), world.batch.items)
      ensures !Terminal(old(world.batch)) && old(writesLeft) > 0 ==> BlockedBy(world.batch.items[k], reason)
      ensures world.batch.items[k].runUuid == old(world.batch.items[k].runUuid)
    {
      var item := world.batch.items[k];
      if item.status == Blocked && item.blockedReason == Some(reason) { return true; }
      if Terminal(world.batch) { return false; }
      alive := SaveTransition(BlockItem(k, reason), now);
    }

    /**
     The run-state table for the current item: a stopped run blocks it, a run that goes on lifts a block
     for its state, a queued or running run has a job, and a waiting run with a pull request makes the
     item wait for the merge.
     */
    method ReconcileRunState(k: nat, run: Run, a: Answers, ghost now: int) returns (alive: bool)
      requires Valid() && k == FirstUnmerged(world.batch.items) < |world.batch.items| && HasRun(world, run.uuid)
      requires world.batch.items[k].runUuid.Some?
      modifies this`world, this`writesLeft, this`trace
      ensures Valid() && (old(Punctual(now)) ==> Punctual(now)) && (old(Based(world)) ==> Based(world)) && SameMerged(old(world.batch.items), world.batch.items)
      ensures !Terminal(old(world.batch)) && old(writesLeft) >= 3 ==> RunStateShows(old(world.batch.items[k]), run.status, a, world.batch.items[k])
      ensures run.status in {RunRecords.Queued, RunRecords.Running} && alive && old(world.batch.items[k].prNumber).Some? ==>
                HasLiveJob(world, run.uuid)
      ensures RunProblem(run.status).None? && !Terminal(old(world.batch)) && old(writesLeft) >= 3 ==>
                !Terminal(world.batch) && alive && writesLeft >= old(writesLeft) - 3
      ensures world.batch.items[k].runUuid == old(world.batch.items[k].runUuid)
    {
      var problem := RunProblem(run.status);
      if problem.Some? {
        alive := Block(k, problem.value, now);
        return;
      }
      if run.status == RunRecords.Queued || run.status == RunRecords.Running {
        alive := EnsureJobEnqueued(run.uuid, now);
        if !alive { return; }
      }
      alive := LiftAndAttach(k, run, a.pr, now);
      if alive && run.status == RunRecords.Waiting { alive := AwaitKnownPr(k, now); }
    }

    /** A waiting run's item with a known pull request waits for its merge. */
    method AwaitKnownPr(k: nat, ghost now: int) returns (alive: bool)
      requires Valid() && k < |world.batch.items|
      modifies this`world, this`writesLeft, this`trace
      ensures Valid() && (old(Punctual(now)) ==> Punctual(now)) && (old(Based(world)) ==> Based(world)) && SameMerged(old(world.batch.items), world.batch.items)
      ensures
        var item := old(world.batch.items[k]);
        var moves := item.prNumber.Some? && item.prNumber.value > 0 && item.status == Active && !Terminal(old(world.batch)) && old(writesLeft) > 0;
        world.batch.items[k] == if moves then item.(status := WaitingMerge) else item
      ensures old(writesLeft) > 0 ==> alive && writesLeft >= old(writesLeft) - 1
      ensures Terminal(world.batch) == Terminal(old(world.batch))
      ensures world.batch.items[k].runUuid == old(world.batch.items[k].runUuid)
    {
      var item := world.batch.items[k];
      alive := true;
      if item.prNumber.Some? && item.prNumber.value > 0 && item.status == Active && !Terminal(world.batch) {
        alive := SaveTransition(AwaitMerge(k, item.prNumber.value), now);
      }
    }

    /** A run that goes on lifts the block for its state; then its pull request is looked up. */
    method LiftAndAttach(k: nat, run: Run, found: int, ghost now: int) returns (alive: bool)
      requires Valid() && k < |world.batch.items|
      modifies this`world, this`writesLeft, this`trace
      ensures Valid() && (old(Punctual(now)) ==> Punctual(now)) && (old(Based(world)) ==> Based(world)) && SameMerged(old(world.batch.items), world.batch.items)
      ensures old(world.batch.items[k].prNumber).Some? ==> world.jobs == old(world.jobs) && world.batch.items[k].prNumber == old(world.batch.items[k].prNumber)
      ensures
        var item := old(world.batch.items[k]);
        var lifts := RunBlocker(item.blockedReason, run.status);
        !Terminal(old(world.batch)) && old(writesLeft) > (if lifts then 1 else 0) ==>
          && alive && !Terminal(world.batch) && writesLeft >= old(writesLeft) - 2
          && world.batch.items[k].status == (if lifts && item.status == Blocked then Active else item.status)
          && world.batch.items[k].prNumber == OrElse(item.prNumber, if found > 0 then Some(found) else None)
          && world.batch.items[k].blockedReason == (if lifts && item.status == Blocked then None else item.blockedReason)
      ensures world.batch.items[k].runUuid == old(world.batch.items[k].runUuid)
    {
      var recorded := world.batch.items[k].prNumber;
      alive := LiftRunBlock(k, run.status, now);
      if alive { alive := TryAttachPr(k, recorded, found, now); }
    }

    method LiftRunBlock(k: nat, status: RunStatus, ghost now: int) returns (alive: bool)
      requires Valid() && k < |world.batch.items|
      modifies this`world, this`writesLeft, this`trace
      ensures Valid() && (old(Punctual(now)) ==> Punctual(now)) && (old(Based(world)) ==> Based(world)) && SameMerged(old(world.batch.items), world.batch.items)
      ensures
        var item := old(world.batch.items[k]);
        var lifts := RunBlocker(item.blockedReason, status);
        && world.jobs == old(world.jobs) && Terminal(world.batch) == Terminal(old(world.batch))
        && (alive <==> !lifts || (!Terminal(old(world.batch)) && old(writesLeft) > 0))
        && (alive ==> writesLeft == old(writesLeft) - if lifts then 1 else 0)
        && world.batch.items[k] == if alive && lifts && item.status == Blocked then item.(status := Active, blockedReason := None) else item
    {
      alive := true;
      if RunBlocker(world.batch.items[k].blockedReason, status) { alive := Unblock(k, now); }
    }

    /**
     By what GitHub says about the item's pull request: nothing without an answer, a block for a problem,
     a certified merge, or waiting for the merge of an open one.
     */
    method CheckPrMerge(k: nat, pr: int, a: Answers, now: int)
      requires Valid() && k == FirstUnmerged(world.batch.items) < |world.batch.items| && world.batch.items[k].runUuid.Some?
      modifies this`world, this`writesLeft, this`trace
      ensures Valid() && (old(Punctual(now)) ==> Punctual(now)) && (old(Based(world)) ==> Based(world)) && Unmerged(world.batch.items) <= Unmerged(old(world.batch.items))
      ensures MergedKept(old(world.batch.items), world.batch.items)
      ensures !Terminal(old(world.batch)) && old(writesLeft) >= 2 ==> PrShows(ports, old(world.batch.items[k]), pr, a, world.batch.items[k])
      decreases Unmerged(world.batch.items), 3
    {
      Await(now);
      if !a.answered { return; }
      var problem := PrProblem(a.readiness);
      if problem.Some? {
        var _ := Block(k, problem.value, now);
        SameCount(old(world.batch.items), world.batch.items);
      } else {
        ResolvePr(k, pr, a, now);
      }
    }

    /** A problem that is gone lifts its block. */
    method ResolvePr(k: nat, pr: int, a: Answers, now: int)
      requires Valid() && k == FirstUnmerged(world.batch.items) < |world.batch.items|
      modifies this`world, this`writesLeft, this`trace
      ensures Valid() && (old(Punctual(now)) ==> Punctual(now)) && (old(Based(world)) ==> Based(world)) && Unmerged(world.batch.items) <= Unmerged(old(world.batch.items))
      ensures MergedKept(old(world.batch.items), world.batch.items)
      ensures !Terminal(old(world.batch)) && old(writesLeft) >= 2 ==> GoodPrShows(ports, old(world.batch.items[k]), pr, a, world.batch.items[k])
      decreases Unmerged(world.batch.items), 2
    {
      var alive := LiftPrBlock(k, now);
      if alive { MergeOrWait(k, pr, a, now); }
    }

    method LiftPrBlock(k: nat, ghost now: int) returns (alive: bool)
      requires Valid() && k == FirstUnmerged(world.batch.items) < |world.batch.items|
      modifies this`world, this`writesLeft, this`trace
      ensures Valid() && (old(Punctual(now)) ==> Punctual(now)) && (old(Based(world)) ==> Based(world)) && SameMerged(old(world.batch.items), world.batch.items)
      ensures k == FirstUnmerged(world.batch.items) && Unmerged(world.batch.items) == Unmerged(old(world.batch.items))
      ensures !Terminal(old(world.batch)) && old(writesLeft) >= 2 ==>
                && alive && writesLeft >= 1 && !Terminal(world.batch)
                && world.batch.items[k].status == (if PrBlocker(old(world.batch.items[k])) then Active else old(world.batch.items[k].status))
      ensures world.batch.items[k].runUuid == old(world.batch.items[k].runUuid)
    {
      alive := true;
      if PrBlocker(world.batch.items[k]) { alive := Unblock(k, now); }
      SameFirst(old(world.batch.items), world.batch.items);
    }

    /** A pull request without problems: certify its merge, or wait for it. */
    method MergeOrWait(k: nat, pr: int, a: Answers, now: int)
      requires Valid() && k == FirstUnmerged(world.batch.items) < |world.batch.items|
      modifies this`world, this`writesLeft, this`trace
      ensures Valid() && (old(Punctual(now)) ==> Punctual(now)) && (old(Based(world)) ==> Based(world)) && Unmerged(world.batch.items) <= Unmerged(old(world.batch.items))
      ensures MergedKept(old(world.batch.items), world.batch.items)
      ensures a.readiness.merged && old(writesLeft) > 0 && Allowed(old(world.batch), Merge(k, MergeSha(ports, a))) ==>
                MergedWith(world.batch.items[k], MergeSha(ports, a))
      ensures
        var waits := a.readiness.open && pr > 0 && !Terminal(old(world.batch)) && old(world.batch.items[k].status) == Active && old(writesLeft) > 0;
        !a.readiness.merged ==>
          world.batch.items[k] == if waits then old(world.batch.items[k]).(status := WaitingMerge, prNumber := Some(pr)) else old(world.batch.items[k])
      decreases Unmerged(world.batch.items), 1
    {
      if a.readiness.merged {
        if ports.git { Await(now); }
        CertifyItemMerged(k, MergeSha(ports, a), now);
      } else if a.readiness.open && world.batch.items[k].status == Active && pr > 0 && !Terminal(world.batch) {
        var _ := SaveTransition(AwaitMerge(k, pr), now);
        SameCount(old(world.batch.items), world.batch.items);
      }
    }

    /** Record a merge, mark the run passed, and reconcile again with one unmerged item fewer. */
    method CertifyItemMerged(k: nat, sha: Sha, now: int)
      requires Valid()
      modifies this`world, this`writesLeft, this`trace
      ensures Valid() && (old(Punctual(now)) ==> Punctual(now)) && (old(Based(world)) ==> Based(world)) && Unmerged(world.batch.items) <= Unmerged(old(world.batch.items))
      ensures MergedKept(old(world.batch.items), world.batch.items)
      ensures old(writesLeft) > 0 && Allowed(old(world.batch), Merge(k, sha)) ==> MergedWith(world.batch.items[k], sha)
      decreases Unmerged(world.batch.items), if k < |world.batch.items| && world.batch.items[k].status == Merged then 6 else 0
    {
      if k >= |world.batch.items| { return; }
      var item := world.batch.items[k];
      if item.status == Merged {
        if item.mergedSha != Some(sha) { return; }
      } else {
        if !Allowed(world.batch, Merge(k, sha)) { return; }
        var recorded := RecordMerge(k, sha, now);
        if !recorded { return; }
      }
      var alive := MarkRunPassed(item.runUuid, now);
      if !alive { return; }
      var next: Answers := *;
      Reconcile(next, now);
    }

    method RecordMerge(k: nat, sha: Sha, ghost now: int) returns (alive: bool)
      requires Valid() && Allowed(world.batch, Merge(k, sha))
      modifies this`world, this`writesLeft, this`trace
      ensures Valid() && (old(Punctual(now)) ==> Punctual(now)) && (old(Based(world)) ==> Based(world)) && MergedKept(old(world.batch.items), world.batch.items)
      ensures alive <==> old(writesLeft) > 0
      ensures if alive then MergedWith(world.batch.items[k], sha) && Unmerged(world.batch.items) == Unmerged(old(world.batch.items)) - 1
              else world == old(world)
    {
      MergeLowersCount(world.batch.items, k, world.batch.items[k].(status := Merged, mergedSha := Some(sha)));
      alive := Write(Save(Merge(k, sha)), now);
    }

    method MarkRunPassed(u: Option<Uuid>, ghost now: int) returns (alive: bool)
      requires Valid()
      modifies this`world, this`writesLeft, this`trace
      ensures Valid() && (old(Punctual(now)) ==> Punctual(now)) && (old(Based(world)) ==> Based(world)) && world.batch == old(world.batch)
      ensures Healed(old(world.runs), world.runs)
      ensures old(writesLeft) > 0 ==> alive && writesLeft >= old(writesLeft) - 1
      ensures alive && u.Some? ==> RunPassed(world, u.value)
    {
      alive := true;
      if u.Some? {
        UuidsAreUnique();
        var run := FindRun(u.value);
        if run.Some? && run.value.status != RunRecords.Passed { alive := Write(MarkPassed(u.value), now); }
      }
    }

    /** Once every item is merged only the batch itself still moves. */
    method ReconcileAllMerged(ghost now: int)
      requires Valid() && !Terminal(world.batch)
      modifies this`world, this`writesLeft, this`trace
      ensures Valid() && (old(Punctual(now)) ==> Punctual(now)) && (old(Based(world)) ==> Based(world)) && SameMerged(old(world.batch.items), world.batch.items)
    {
      Await(now);
      var moves: bool := *;
      if moves {
        var status: BatchStatus := *;
        var _ := SaveTransition(SetStatus(status), now);
      }
    }

    method Reconcile(a: Answers, now: int)
      requires Valid()
      modifies this`world, this`writesLeft, this`trace
      ensures Valid() && (old(Punctual(now)) ==> Punctual(now)) && (old(Based(world)) ==> Based(world)) && Unmerged(world.batch.items) <= Unmerged(old(world.batch.items))
      ensures MergedKept(old(world.batch.items), world.batch.items)
      ensures
        var k := FirstUnmerged(old(world.batch.items));
        old(Punctual(now)) && old(writesLeft) >= |old(world.batch.items)| + 5 && WillAdmit(ports, old(world), k, a) ==> Admitted(world, k)
      ensures
        var k := FirstUnmerged(old(world.batch.items));
        old(writesLeft) >= |old(world.batch.items)| + 5 && WillCertify(ports, old(world), k, a) ==> MergedWith(world.batch.items[k], MergeSha(ports, a))
      ensures
        var k := FirstUnmerged(old(world.batch.items));
        k < |old(world.batch.items)| && old(world.batch.items)[k].status == Pending ==> AdmittedOrPending(ports, old(world), k, a, world)
      decreases Unmerged(world.batch.items), 5
    {
      if Terminal(world.batch) { return; }
      var k := FirstUnmerged(world.batch.items);
      if k == |world.batch.items| && world.batch.status in {Queued, BatchBlocked, TestFailed} {
        var recovering: bool := *;
        if !recovering { return; }
      }
      var alive := HealMergedRuns(now);
      if !alive { return; }
      if WillAdmit(ports, old(world), k, a) { HealedIsReady(ports, old(world), world, k, a); }
      if WillCertify(ports, old(world), k, a) { HealedGoesOn(ports, old(world), world, k, a); }
      if k == |world.batch.items| {
        ReconcileAllMerged(now);
        SameCount(old(world.batch.items), world.batch.items);
      } else {
        ReconcileOpen(k, a, now);
      }
    }

    /** The current item, then its pull request. */
    method ReconcileOpen(k: nat, a: Answers, now: int)
      requires Valid() && !Terminal(world.batch) && k == FirstUnmerged(world.batch.items) < |world.batch.items|
      modifies this`world, this`writesLeft, this`trace
      ensures Valid() && (old(Punctual(now)) ==> Punctual(now)) && (old(Based(world)) ==> Based(world)) && Unmerged(world.batch.items) <= Unmerged(old(world.batch.items))
      ensures MergedKept(old(world.batch.items), world.batch.items)
      ensures old(Punctual(now)) && old(writesLeft) >= 5 && WillAdmit(ports, old(world), k, a) ==> Admitted(world, k)
      ensures old(writesLeft) >= 5 && WillCertify(ports, old(world), k, a) ==> MergedWith(world.batch.items[k], MergeSha(ports, a))
      ensures old(world.batch.items)[k].status == Pending ==> AdmittedOrPending(ports, old(world), k, a, world)
      ensures RunGivenUp(old(world), k) ==> world.batch.items[k].status != Merged
      decreases Unmerged(world.batch.items), 4
    {
      var checkPr := ReconcileCurrent(k, a, now);
      SameFirst(old(world.batch.items), world.batch.items);
      if !checkPr { return; }
      var pr := world.batch.items[k].prNumber;
      if ports.github && pr.Some? {
        CheckPrMerge(k, pr.value, a, now);
      }
    }

    /** Everything about the current item up to its pull request; false ends the call. */
    method ReconcileCurrent(k: nat, a: Answers, now: int) returns (checkPr: bool)
      requires Valid() && !Terminal(world.batch) && k == FirstUnmerged(world.batch.items) < |world.batch.items|
      modifies this`world, this`writesLeft, this`trace
      ensures Valid() && (old(Punctual(now)) ==> Punctual(now)) && (old(Based(world)) ==> Based(world)) && SameMerged(old(world.batch.items), world.batch.items)
      ensures old(world.batch.items[k].status) == Pending ==> !checkPr
      ensures old(world.batch.items[k].status) == Pending ==> AdmittedOrPending(ports, old(world), k, a, world)
      ensures old(Punctual(now)) && old(writesLeft) >= 5 && WillAdmit(ports, old(world), k, a) ==> Admitted(world, k)
      ensures old(writesLeft) >= 5 && WillCertify(ports, old(world), k, a) ==>
                && checkPr && writesLeft >= 2 && !Terminal(world.batch) && world.batch.items[k].prNumber.Some?
                && (ReleaseBatch.Current(world.batch.items[k].status) || PrBlocker(world.batch.items[k]))
      ensures checkPr ==> world.batch.items[k].runUuid.Some?
      ensures RunGivenUp(old(world), k) ==> !checkPr
    {
      var item := world.batch.items[k];
      if item.status == Pending { ReconcilePending(k, a, now); return false; }
      if item.runUuid.None? { ReconcileUnassigned(k, a, now); return false; }
      checkPr := ReconcileAssigned(k, item.runUuid.value, a, now);
    }

    /** The item has its run: reconcile by the state of that run. */
    method ReconcileAssigned(k: nat, u: Uuid, a: Answers, now: int) returns (checkPr: bool)
      requires Valid() && !Terminal(world.batch) && k == FirstUnmerged(world.batch.items) < |world.batch.items|
      requires world.batch.items[k].runUuid == Some(u)
      modifies this`world, this`writesLeft, this`trace
      ensures Valid() && (old(Punctual(now)) ==> Punctual(now)) && (old(Based(world)) ==> Based(world)) && SameMerged(old(world.batch.items), world.batch.items)
      ensures old(writesLeft) >= 5 && WillCertify(ports, old(world), k, a) ==>
                && checkPr && writesLeft >= 2 && !Terminal(world.batch) && world.batch.items[k].prNumber.Some?
                && (ReleaseBatch.Current(world.batch.items[k].status) || PrBlocker(world.batch.items[k]))
      ensures world.batch.items[k].runUuid == old(world.batch.items[k].runUuid)
      ensures RunGivenUp(old(world), k) ==> !checkPr
    {
      UuidsAreUnique();
      var run := FindRun(u);
      if run.None? { return false; }
      ghost var item := world.batch.items[k];
      var alive := ReconcileRunState(k, run.value, a, now);
      checkPr := alive && run.value.status != RunRecords.Failed && run.value.status != RunRecords.Cancelled;
      if GoesOn(item, run.value.status) && item.prNumber.Some? && RunStateShows(item, run.value.status, a, world.batch.items[k]) {
        GoesOnShows(item, run.value.status, a, world.batch.items[k]);
      }
    }

    /**
     One call of the process, which dies after the given number of writes. The store is sound after it
     at any clock and has one release run per item at a timely one; and whatever earlier calls left
     undone, an uncut timely call finishes the admission of a pending item that nothing stands against.
     */
    method ReconcileUntilCut(a: Answers, now: int, writes: nat)
      requires Valid()
      modifies this`world, this`writesLeft, this`trace
      ensures Valid() && Inv(world) && Unmerged(world.batch.items) <= Unmerged(old(world.batch.items))
      ensures MergedKept(old(world.batch.items), world.batch.items)
      ensures old(Punctual(now)) ==> Punctual(now) && OneRunEach(world)
      ensures
        var k := FirstUnmerged(old(world.batch.items));
        old(Punctual(now)) && writes >= |old(world.batch.items)| + 5 && WillAdmit(ports, old(world), k, a) ==> Admitted(world, k)
      ensures
        var k := FirstUnmerged(old(world.batch.items));
        writes >= |old(world.batch.items)| + 5 && WillCertify(ports, old(world), k, a) ==> MergedWith(world.batch.items[k], MergeSha(ports, a))
      ensures
        var k := FirstUnmerged(old(world.batch.items));
        k < |old(world.batch.items)| && old(world.batch.items)[k].status == Pending ==> AdmittedOrPending(ports, old(world), k, a, world)
      ensures old(Based(world)) ==> Based(world)
    {
      writesLeft := writes;
      Reconcile(a, now);
      Safe();
    }
  }
}
