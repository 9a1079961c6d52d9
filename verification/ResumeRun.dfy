/**
 Resuming a run: reactivate it by compare-and-set, reset the steps of a phase, insert the phase row
 and enqueue a job, or put everything back. Git, clocks and the failures of the individual writes
 are arbitrary answers; the writes of a rollback succeed and nobody else writes.
 */
module ResumeRun {
  import opened Prelude
  import opened Sequences
  import opened RunRecords

  type Uuid = string
  type RepoId = string

  datatype Run = Run(repo: RepoId, status: RunStatus, currentPhase: Option<string>, completedPhases: seq<string>,
                     skippedPhases: seq<string>, completedAt: Option<int>, failureReason: Option<string>,
                     pinnedRuntime: Option<string>)

  datatype StepKey = StepKey(run: Uuid, phase: string, index: int)

  datatype Step = Step(id: string, title: string, status: string, startedAt: Option<int>, completedAt: Option<int>,
                       initialPreStepHead: Option<string>, revertCounts: map<string, nat>)

  datatype Phase = Phase(run: Uuid, name: string, status: string, attempt: int, startedAt: Option<int>, completedAt: Option<int>)

  datatype Disposition = PreserveWorkingTree | ResetToBaseline

  datatype JobId = ResumeJob(run: Uuid, time: int) | OtherJob(number: nat)

  datatype Job = Job(runId: Uuid, repo: RepoId, status: string, priority: int, disposition: Disposition)

  datatype Repo = Repo(id: RepoId, enabled: bool)

  datatype Input = Input(runId: Uuid, fromPhase: Option<string>, worker: string, attempt: Option<int>,
                         disposition: Option<Disposition>, pinnedRuntime: Option<string>)

  /** What the outside answers during one call; `dirty` is None when the worktree cannot be inspected. */
  datatype Answers = Answers(dirty: Option<seq<string>>, acquireAt: int, acquireFails: bool, token: nat, jobAt: int,
                             stepFails: nat -> bool, phaseFails: bool, enqueueFails: bool)

  datatype Error =
    | NoRun | NotResumable | NoRepo | RepoMismatch | RepoDisabled | DispositionRequired | InspectionFailed | LeaseBroken
    | InvalidPin | StepFailed | PhaseFailed | EnqueueFailed

  datatype Outcome = Resumed(job: JobId) | Refused(why: Error)

  const RESUME_JOB_PRIORITY := 10
  const PINNED_RUNTIMES := {"claude-code", "antigravity", "codex", "opencode"}

  // ---------------------------------------------------------------- rows and upserts

  /** The steps table keeps a recorded head and keeps recorded counts against an empty map. */
  function UpsertStep(steps: map<StepKey, Step>, k: StepKey, step: Step): map<StepKey, Step> {
    if k !in steps then steps[k := step]
    else
      var row := steps[k];
      steps[k := step.(
        initialPreStepHead := if row.initialPreStepHead.Some? then row.initialPreStepHead else step.initialPreStepHead,
        revertCounts := if step.revertCounts != map[] then step.revertCounts else row.revertCounts)]
  }

  /** What an upsert leaves: the new row, but a recorded head and recorded counts are not lost to it. */
  lemma UpsertKeepsHistory(steps: map<StepKey, Step>, k: StepKey, step: Step)
    ensures
      var row := UpsertStep(steps, k, step)[k];
      && row == step.(initialPreStepHead := row.initialPreStepHead, revertCounts := row.revertCounts)
      && (k !in steps ==> row == step)
      && (k in steps && steps[k].initialPreStepHead.Some? ==> row.initialPreStepHead == steps[k].initialPreStepHead)
      && (k in steps && steps[k].initialPreStepHead.None? ==> row.initialPreStepHead == step.initialPreStepHead)
      && (step.revertCounts != map[] ==> row.revertCounts == step.revertCounts)
      && (k in steps && step.revertCounts == map[] ==> row.revertCounts == steps[k].revertCounts)
  {
  }

  /** The phases table never changes the run or the name of an existing row. */
  function UpsertPhase(phases: map<string, Phase>, id: string, p: Phase): map<string, Phase> {
    if id !in phases then phases[id := p]
    else phases[id := phases[id].(status := p.status, attempt := p.attempt, startedAt := p.startedAt, completedAt := p.completedAt)]
  }

  function PendingStep(step: Step): Step { step.(status := "pending", startedAt := None, completedAt := None) }

  function ResetStep(step: Step): Step { if step.status == "success" then step else PendingStep(step) }

  /** Every row is as it was, or a reset row of the phase. */
  ghost predicate PartlyReset(was: map<StepKey, Step>, order: seq<StepKey>, now: map<StepKey, Step>) {
    && now.Keys == was.Keys
    && forall k :: k in was ==> now[k] == was[k] || (k in order && now[k] == ResetStep(was[k]))
  }

  ghost function AllReset(was: map<StepKey, Step>, order: seq<StepKey>): map<StepKey, Step> {
    map k | k in was :: if k in order then ResetStep(was[k]) else was[k]
  }

  /** Writing a saved row back undoes its reset, whatever the table merges. */
  lemma UpsertRestores(was: map<StepKey, Step>, order: seq<StepKey>, now: map<StepKey, Step>, k: StepKey)
    requires PartlyReset(was, order, now) && k in was
    ensures UpsertStep(now, k, was[k]) == now[k := was[k]]
  {
  }

  /** Resetting a row that was not reset before writes the pending row and nothing else. */
  lemma UpsertResets(was: map<StepKey, Step>, k: StepKey)
    requires k in was
    ensures UpsertStep(was, k, PendingStep(was[k])) == was[k := PendingStep(was[k])]
  {
  }

  function PhaseId(run: Uuid, name: string): string { run + "-" + name }

  function FreshPhase(input: Input, name: string): Phase {
    Phase(input.runId, name, "pending", if input.attempt.Some? then input.attempt.value else 1, None, None)
  }

  /** The first listed row of that name. */
  function FindPhase(phases: map<string, Phase>, order: seq<string>, name: string): (r: Option<string>)
    ensures r.Some? ==> r.value in order && r.value in phases && phases[r.value].name == name
    ensures r.None? ==> forall id :: id in order && id in phases ==> phases[id].name != name
  {
    if order == [] then None
    else if order[0] in phases && phases[order[0]].name == name then Some(order[0])
    else FindPhase(phases, order[1..], name)
  }

  function WithInserted(phases: map<string, Phase>, input: Input): map<string, Phase> {
    if HasPhase(input) then UpsertPhase(phases, PhaseId(input.runId, input.fromPhase.value), FreshPhase(input, input.fromPhase.value))
    else phases
  }

  function PhaseWrittenBack(phases: map<string, Phase>, was: map<string, Phase>, saved: Option<string>): map<string, Phase> {
    if saved.Some? && saved.value in was then UpsertPhase(phases, saved.value, was[saved.value]) else phases
  }

  /** An empty phase name is treated like none. */
  predicate HasPhase(input: Input) { input.fromPhase.Some? && input.fromPhase.value != "" }

  function SavedPhase(phases: map<string, Phase>, order: seq<string>, input: Input): Option<string> {
    if HasPhase(input) then FindPhase(phases, order, input.fromPhase.value) else None
  }

  /**
   After a failed enqueue the phase table is what it was exactly when the call inserted into the saved
   row, or its insert changed nothing.
   */
  lemma PhaseRestoredIff(phases: map<string, Phase>, order: seq<string>, input: Input)
    ensures
      var saved := SavedPhase(phases, order, input);
      PhaseWrittenBack(WithInserted(phases, input), phases, saved) == phases
      <==> WithInserted(phases, input) == phases || saved == Some(PhaseId(input.runId, input.fromPhase.value))
  {
    var saved := SavedPhase(phases, order, input);
    var inserted := WithInserted(phases, input);
    if HasPhase(input) && saved.Some? {
      var id := PhaseId(input.runId, input.fromPhase.value);
      if saved.value == id {
        assert PhaseWrittenBack(inserted, phases, saved) == phases;
      } else {
        assert inserted[saved.value] == phases[saved.value];
        assert PhaseWrittenBack(inserted, phases, saved) == inserted;
      }
    }
  }

  /** A phase that has no row yet keeps its new pending row although the resume failed. */
  lemma NewPhaseRowStays(input: Input)
    requires HasPhase(input)
    ensures PhaseWrittenBack(WithInserted(map[], input), map[], SavedPhase(map[], [], input)) != map[]
  {
    assert PhaseId(input.runId, input.fromPhase.value) in WithInserted(map[], input);
  }

  // ---------------------------------------------------------------- the run row

  function Reactivated(run: Run, pin: Option<string>): Run {
    run.(status := Running, currentPhase := None, completedAt := None, failureReason := None,
         pinnedRuntime := if pin.Some? then pin else run.pinnedRuntime)
  }

  /** The run as a rollback writes it: the saved fields over whatever the row is now. */
  function RolledBack(now: Run, was: Run): Run {
    now.(status := was.status, completedAt := was.completedAt, failureReason := was.failureReason,
         currentPhase := if was.currentPhase == Some("") then None else was.currentPhase,
         completedPhases := was.completedPhases, skippedPhases := was.skippedPhases, pinnedRuntime := was.pinnedRuntime)
  }

  /** A rollback gives the whole row back, unless its current phase was the empty string. */
  lemma RollbackRestoresIff(run: Run, pin: Option<string>)
    ensures RolledBack(Reactivated(run, pin), run) == run <==> run.currentPhase != Some("")
  {
  }

  function ResolveDisposition(status: RunStatus, dirty: seq<string>, requested: Option<Disposition>): Option<Disposition> {
    if requested.Some? then requested
    else if status == NeedsHumanReview then if |dirty| > 0 then None else Some(ResetToBaseline)
    else Some(ResetToBaseline)
  }

  // ---------------------------------------------------------------- the store before the call

  datatype Store = Store(runs: map<Uuid, Run>, steps: map<StepKey, Step>, phases: map<string, Phase>,
                         jobs: map<JobId, Job>, leases: map<RepoId, Lease>, repos: map<RepoId, Repo>)

  /** The rows of the phase to resume, in any order. */
  ghost predicate ListsSteps(s: Store, input: Input, order: seq<StepKey>) {
    && Distinct(order)
    && (forall k :: k in order <==> k in s.steps && HasPhase(input) && k.run == input.runId && k.phase == input.fromPhase.value)
  }

  /** What keeps a call from getting to its lease. */
  function Precheck(s: Store, input: Input, a: Answers): Option<Error> {
    if input.runId !in s.runs then Some(NoRun)
    else
      var run := s.runs[input.runId];
      if !CanResume(run.status) then Some(NotResumable)
      else if run.repo !in s.repos then Some(NoRepo)
      else if s.repos[run.repo].id != run.repo then Some(RepoMismatch)
      else if !s.repos[run.repo].enabled then Some(RepoDisabled)
      else if input.disposition.None? && a.dirty.None? then Some(InspectionFailed)
      else if input.disposition.None? && ResolveDisposition(run.status, a.dirty.value, None).None? then Some(DispositionRequired)
      else if a.acquireFails then Some(LeaseBroken)
      else None
  }

  predicate StepsReset(s: Store, order: seq<StepKey>, fails: nat -> bool) {
    forall i :: 0 <= i < |order| && order[i] in s.steps && s.steps[order[i]].status != "success" ==> !fails(i)
  }

  predicate PinOk(input: Input) { input.pinnedRuntime.Some? ==> input.pinnedRuntime.value in PINNED_RUNTIMES }

  /** The call succeeds exactly in this situation. */
  predicate Succeeds(s: Store, input: Input, a: Answers, order: seq<StepKey>) {
    && Precheck(s, input, a).None? && PinOk(input) && StepsReset(s, order, a.stepFails)
    && (HasPhase(input) ==> !a.phaseFails)
    && !a.enqueueFails && ResumeJob(input.runId, a.jobAt) !in s.jobs
  }

  // ---------------------------------------------------------------- why a call is refused

  /** The run exists and has stopped in a way it can be resumed from. */
  ghost predicate Stopped(s: Store, input: Input) {
    input.runId in s.runs && s.runs[input.runId].status in {Failed, Blocked, NeedsHumanReview, Cancelled}
  }

  /** Its repository is stored under its own id and enabled. */
  ghost predicate RepoReady(s: Store, input: Input) {
    && Stopped(s, input) && s.runs[input.runId].repo in s.repos
    && s.repos[s.runs[input.runId].repo].id == s.runs[input.runId].repo && s.repos[s.runs[input.runId].repo].enabled
  }

  /** What to do with the working tree is requested, or it can be inspected and holds nothing a human has to decide on. */
  ghost predicate DispositionKnown(s: Store, input: Input, a: Answers) {
    && RepoReady(s, input)
    && (input.disposition.Some? || (a.dirty.Some? && (s.runs[input.runId].status == NeedsHumanReview ==> a.dirty.value == [])))
  }

  ghost predicate PinKnown(input: Input) {
    input.pinnedRuntime.Some? ==> input.pinnedRuntime.value in {"claude-code", "antigravity", "codex", "opencode"}
  }

  /** No write of a step that has to be reset fails. */
  ghost predicate StepsWritten(s: Store, a: Answers, order: seq<StepKey>) {
    forall i :: 0 <= i < |order| && order[i] in s.steps && s.steps[order[i]].status != "success" ==> !a.stepFails(i)
  }

  /** The reason of a refusal, in the order of the checks: each needs everything before it to hold. */
  ghost predicate FailsWith(s: Store, input: Input, a: Answers, order: seq<StepKey>, why: Error) {
    var wantsPhase := input.fromPhase.Some? && input.fromPhase.value != "";
    match why
    case NoRun => input.runId !in s.runs
    case NotResumable => input.runId in s.runs && s.runs[input.runId].status in {Queued, Running, Waiting, Passed}
    case NoRepo => Stopped(s, input) && s.runs[input.runId].repo !in s.repos
    case RepoMismatch =>
      && Stopped(s, input) && s.runs[input.runId].repo in s.repos && s.repos[s.runs[input.runId].repo].id != s.runs[input.runId].repo
    case RepoDisabled =>
      && Stopped(s, input) && s.runs[input.runId].repo in s.repos
      && s.repos[s.runs[input.runId].repo].id == s.runs[input.runId].repo && !s.repos[s.runs[input.runId].repo].enabled
    case InspectionFailed => RepoReady(s, input) && input.disposition.None? && a.dirty.None?
    case DispositionRequired =>
      && RepoReady(s, input) && input.disposition.None? && a.dirty.Some?
      && s.runs[input.runId].status == NeedsHumanReview && a.dirty.value != []
    case LeaseBroken => DispositionKnown(s, input, a) && a.acquireFails
    case InvalidPin => DispositionKnown(s, input, a) && !a.acquireFails && !PinKnown(input)
    case StepFailed => DispositionKnown(s, input, a) && !a.acquireFails && PinKnown(input) && !StepsWritten(s, a, order)
    case PhaseFailed =>
      && DispositionKnown(s, input, a) && !a.acquireFails && PinKnown(input) && StepsWritten(s, a, order) && wantsPhase && a.phaseFails
    case EnqueueFailed =>
      && DispositionKnown(s, input, a) && !a.acquireFails && PinKnown(input) && StepsWritten(s, a, order) && !(wantsPhase && a.phaseFails)
      && (a.enqueueFails || ResumeJob(input.runId, a.jobAt) in s.jobs)
  }

  /** The reason the call gives. */
  function Reason(s: Store, input: Input, a: Answers, order: seq<StepKey>): Option<Error> {
    if Precheck(s, input, a).Some? then Precheck(s, input, a) else WriteReason(s, input, a, order)
  }

  /** The reason once the checks have passed: the pin, or the first write that fails. */
  function WriteReason(s: Store, input: Input, a: Answers, order: seq<StepKey>): Option<Error> {
    if !PinOk(input) then Some(InvalidPin)
    else if !StepsReset(s, order, a.stepFails) then Some(StepFailed)
    else if HasPhase(input) && a.phaseFails then Some(PhaseFailed)
    else if a.enqueueFails || ResumeJob(input.runId, a.jobAt) in s.jobs then Some(EnqueueFailed)
    else None
  }

  /** The checks before the lease refuse with exactly their reason. */
  lemma PrecheckExactly(s: Store, input: Input, a: Answers, order: seq<StepKey>)
    ensures Precheck(s, input, a).Some? ==> FailsWith(s, input, a, order, Precheck(s, input, a).value)
    ensures Precheck(s, input, a).None? <==> DispositionKnown(s, input, a) && !a.acquireFails
    ensures PinOk(input) <==> PinKnown(input)
  {
  }

  lemma OneReason(s: Store, input: Input, a: Answers, order: seq<StepKey>)
    ensures forall v, w :: FailsWith(s, input, a, order, v) && FailsWith(s, input, a, order, w) ==> v == w
  {
  }

  lemma ReasonHolds(s: Store, input: Input, a: Answers, order: seq<StepKey>)
    requires Reason(s, input, a, order).Some?
    ensures FailsWith(s, input, a, order, Reason(s, input, a, order).value)
  {
    PrecheckExactly(s, input, a, order);
  }

  lemma NoReasonHolds(s: Store, input: Input, a: Answers, order: seq<StepKey>)
    requires Reason(s, input, a, order).None?
    ensures forall why :: !FailsWith(s, input, a, order, why)
  {
    PrecheckExactly(s, input, a, order);
  }

  /** A call gives the one reason there is, and succeeds exactly when there is none. */
  lemma ReasonExactly(s: Store, input: Input, a: Answers, order: seq<StepKey>)
    ensures forall why :: Reason(s, input, a, order) == Some(why) <==> FailsWith(s, input, a, order, why)
    ensures Succeeds(s, input, a, order) <==> forall why :: !FailsWith(s, input, a, order, why)
  {
    PrecheckExactly(s, input, a, order);
    OneReason(s, input, a, order);
    var reason := Reason(s, input, a, order);
    assert Succeeds(s, input, a, order) <==> reason.None?;
    if reason.Some? { ReasonHolds(s, input, a, order); } else { NoReasonHolds(s, input, a, order); }
  }

  function Granted(s: Store, input: Input, a: Answers): Disposition
    requires Precheck(s, input, a).None?
  {
    var run := s.runs[input.runId];
    if input.disposition.Some? then input.disposition.value else ResolveDisposition(run.status, a.dirty.value, None).value
  }

  /** The leases when the call is over: one it could acquire is gone, one it could not is untouched. */
  function LeasesAfter(s: Store, input: Input, a: Answers): map<RepoId, Lease>
    requires Precheck(s, input, a).None?
  {
    var r := s.runs[input.runId].repo;
    if Acquirable(s.leases, r, input.worker, input.runId, a.acquireAt) then s.leases - {r} else s.leases
  }

  ghost function NewJob(s: Store, input: Input, a: Answers): Job
    requires Precheck(s, input, a).None?
  {
    Job(input.runId, s.runs[input.runId].repo, "queued", RESUME_JOB_PRIORITY, Granted(s, input, a))
  }

  /** The store after success. */
  ghost function AfterSuccess(s: Store, input: Input, a: Answers, order: seq<StepKey>): Store
    requires Precheck(s, input, a).None?
  {
    Store(s.runs[input.runId := Reactivated(s.runs[input.runId], input.pinnedRuntime)], AllReset(s.steps, order),
          WithInserted(s.phases, input), s.jobs[ResumeJob(input.runId, a.jobAt) := NewJob(s, input, a)],
          LeasesAfter(s, input, a), s.repos)
  }

  /** The store after a failure: only the phase row of a failed enqueue may differ. */
  ghost function AfterFailure(s: Store, input: Input, a: Answers, phaseOrder: seq<string>, why: Error): Store {
    if Precheck(s, input, a).Some? then s
    else
      var run := s.runs[input.runId];
      s.(runs := if why in {StepFailed, PhaseFailed, EnqueueFailed} then s.runs[input.runId := RolledBack(Reactivated(run, input.pinnedRuntime), run)] else s.runs,
         phases := if why == EnqueueFailed then PhaseWrittenBack(WithInserted(s.phases, input), s.phases, SavedPhase(s.phases, phaseOrder, input)) else s.phases,
         leases := LeasesAfter(s, input, a))
  }

  ghost predicate NoLeaseAdded(s: Store, t: Store) {
    forall r :: r in t.leases ==> r in s.leases && t.leases[r] == s.leases[r]
  }

  /**
   A failed call leaves no job, no reset step and no lease behind, and gives the run row back exactly
   when it never touched it or the row's current phase was not the empty string.
   */
  lemma FailureRestores(s: Store, input: Input, a: Answers, phaseOrder: seq<string>, why: Error)
    ensures
      var t := AfterFailure(s, input, a, phaseOrder, why);
      var touched := Precheck(s, input, a).None? && why in {StepFailed, PhaseFailed, EnqueueFailed};
      && t.jobs == s.jobs && t.steps == s.steps && t.repos == s.repos && NoLeaseAdded(s, t)
      && (t.runs == s.runs <==> !(touched && s.runs[input.runId].currentPhase == Some("")))
      && (t.runs != s.runs ==> t.runs == s.runs[input.runId := s.runs[input.runId].(currentPhase := None)])
      && (why != EnqueueFailed ==> t.phases == s.phases)
  {
    if Precheck(s, input, a).None? {
      var run := s.runs[input.runId];
      var back := RolledBack(Reactivated(run, input.pinnedRuntime), run);
      RollbackRestoresIff(run, input.pinnedRuntime);
      assert s.runs[input.runId := back][input.runId] == back;
    }
  }

  /**
   A successful call leaves the run running with its outcome cleared and the requested pin or the old one,
   and exactly one new job, which carries the requested disposition or else resets the working tree.
   */
  lemma SuccessResumes(s: Store, input: Input, a: Answers, order: seq<StepKey>)
    requires Succeeds(s, input, a, order)
    ensures
      var t, run := AfterSuccess(s, input, a, order), s.runs[input.runId];
      && t.runs.Keys == s.runs.Keys && (forall u :: u in s.runs && u != input.runId ==> t.runs[u] == s.runs[u])
      && t.runs[input.runId] == Run(run.repo, Running, None, run.completedPhases, run.skippedPhases, None, None,
                                    if input.pinnedRuntime.Some? then input.pinnedRuntime else run.pinnedRuntime)
    ensures
      var t, id := AfterSuccess(s, input, a, order), ResumeJob(input.runId, a.jobAt);
      && OnlyNewJob(s.jobs, t.jobs, input.runId) && id in t.jobs && id !in s.jobs
      && t.jobs[id] == Job(input.runId, s.runs[input.runId].repo, "queued", 10,
                           if input.disposition.Some? then input.disposition.value else ResetToBaseline)
  {
    OneNewJob(s.jobs, ResumeJob(input.runId, a.jobAt), NewJob(s, input, a));
  }

  /** Whether it succeeds or fails, a call that could take its repository's lease leaves that row gone and every other as it was. */
  lemma LeaseIsGivenBack(s: Store, input: Input, a: Answers)
    requires Precheck(s, input, a).None?
    ensures
      var r := s.runs[input.runId].repo;
      var taken := r in s.leases && s.leases[r].expiresAt > a.acquireAt && !(s.leases[r].worker == input.worker && s.leases[r].run == input.runId);
      && (forall k :: k in LeasesAfter(s, input, a) <==> k in s.leases && (k == r ==> taken))
      && (forall k :: k in LeasesAfter(s, input, a) ==> LeasesAfter(s, input, a)[k] == s.leases[k])
  {
  }

  /** The phase to resume has a pending row with the attempt, as a new row or over the old one; other rows stay. */
  lemma SuccessInsertsPhase(s: Store, input: Input, a: Answers, order: seq<StepKey>)
    requires Succeeds(s, input, a, order)
    ensures
      var t := AfterSuccess(s, input, a, order);
      if input.fromPhase == None || input.fromPhase == Some("") then t.phases == s.phases
      else
        var id := input.runId + "-" + input.fromPhase.value;
        && t.phases.Keys == s.phases.Keys + {id} && (forall k :: k in s.phases && k != id ==> t.phases[k] == s.phases[k])
        && t.phases[id].status == "pending" && t.phases[id].startedAt == t.phases[id].completedAt == None
        && t.phases[id].attempt == (if input.attempt.Some? then input.attempt.value else 1)
        && t.phases[id].run == (if id in s.phases then s.phases[id].run else input.runId)
        && t.phases[id].name == (if id in s.phases then s.phases[id].name else input.fromPhase.value)
  {
  }

  /** One job is new, and it is queued for the run. */
  ghost predicate OnlyNewJob(was: map<JobId, Job>, now: map<JobId, Job>, run: Uuid) {
    && was.Keys <= now.Keys && |now.Keys - was.Keys| == 1
    && (forall j :: j in was ==> now[j] == was[j])
    && (forall j :: j in now && j !in was ==> now[j].runId == run && now[j].status == "queued")
  }

  lemma OneNewJob(jobs: map<JobId, Job>, id: JobId, job: Job)
    requires id !in jobs && job.status == "queued"
    ensures OnlyNewJob(jobs, jobs[id := job], job.runId)
  {
    assert jobs[id := job].Keys - jobs.Keys == {id};
  }

  /** A queued job discards the work of a run under human review only on request or when there is none. */
  lemma NothingDiscardedUnasked(s: Store, input: Input, a: Answers, order: seq<StepKey>)
    requires Succeeds(s, input, a, order) && s.runs[input.runId].status == NeedsHumanReview
    requires AfterSuccess(s, input, a, order).jobs[ResumeJob(input.runId, a.jobAt)].disposition == ResetToBaseline
    ensures input.disposition == Some(ResetToBaseline) || a.dirty == Some([])
  {
    assert AfterSuccess(s, input, a, order).jobs[ResumeJob(input.runId, a.jobAt)].disposition == Granted(s, input, a);
  }

  /** It leaves only successful and pending steps in the phase, and no other step changes. */
  lemma SuccessResetsSteps(s: Store, input: Input, a: Answers, order: seq<StepKey>)
    requires Succeeds(s, input, a, order) && ListsSteps(s, input, order)
    ensures
      var t := AfterSuccess(s, input, a, order);
      && t.steps.Keys == s.steps.Keys
      && (forall k :: k in s.steps && k !in order ==> t.steps[k] == s.steps[k])
      && (forall k :: k in order ==> k in s.steps)
      && (forall k :: k in order && s.steps[k].status == "success" ==> t.steps[k] == s.steps[k])
      && (forall k :: k in order && s.steps[k].status != "success" ==>
            t.steps[k] == s.steps[k].(status := "pending", startedAt := None, completedAt := None))
  {
  }

  // ---------------------------------------------------------------- the use case

  class ResumeRunUseCase {
    var runs: map<Uuid, Run>
    var steps: map<StepKey, Step>
    var phases: map<string, Phase>
    var jobs: map<JobId, Job>
    var leases: map<RepoId, Lease>
    const repos: map<RepoId, Repo>

    ghost function View(): (s: Store)
      reads this
    {
      Store(runs, steps, phases, jobs, leases, repos)
    }

    /** Compare-and-set of a whole row; callers pass the row with their patch applied. */
    method AtomicUpdateByUuid(u: Uuid, row: Run, expected: RunStatus) returns (updated: bool)
      modifies this`runs
      ensures updated <==> u in old(runs) && old(runs)[u].status == expected
      ensures runs == if updated then old(runs)[u := row] else old(runs)
    {
      updated := u in runs && runs[u].status == expected;
      if updated { runs := runs[u := row]; }
    }

    /** The reset loop; it stops at the first write that fails. */
    method ResetSteps(order: seq<StepKey>, fails: nat -> bool) returns (ok: bool)
      requires forall k :: k in order ==> k in steps
      requires Distinct(order)
      modifies this`steps
      ensures PartlyReset(old(steps), order, steps)
      ensures ok <==> StepsReset(old(View()), order, fails)
      ensures ok ==> steps == AllReset(old(steps), order)
    {
      ghost var was := steps;
      var i := 0;
      while i < |order|
        invariant 0 <= i <= |order|
        invariant steps == AllReset(was, order[..i])
        invariant StepsReset(old(View()), order[..i], fails)
      {
        var k := order[i];
        assert k !in order[..i] && steps[k] == was[k];
        assert order[..i + 1] == order[..i] + [k];
        if steps[k].status != "success" {
          if fails(i) {
            return false;
          }
          UpsertResets(steps, k);
          steps := UpsertStep(steps, k, PendingStep(steps[k]));
        }
        i := i + 1;
      }
      assert order[..i] == order;
      ok := true;
    }

    /** The write-back loop of a rollback, over a phase that was reset in part or in full. */
    method RestoreSteps(order: seq<StepKey>, saved: map<StepKey, Step>)
      requires PartlyReset(saved, order, steps) && forall k :: k in order ==> k in saved
      modifies this`steps
      ensures steps == saved
    {
      for i := 0 to |order|
        invariant PartlyReset(saved, order, steps)
        invariant forall k :: k in order[..i] ==> steps[k] == saved[k]
      {
        var k := order[i];
        UpsertRestores(saved, order, steps, k);
        steps := UpsertStep(steps, k, saved[k]);
        assert order[..i + 1] == order[..i] + [k];
      }
      assert order[..|order|] == order;
    }

    /** The catch blocks: run row, steps, then the saved phase row. */
    method RollBack(u: Uuid, was: Run, order: seq<StepKey>, savedSteps: map<StepKey, Step>,
                    savedPhase: Option<string>, savedPhases: map<string, Phase>)
      requires u in runs && runs[u].status == Running
      requires PartlyReset(savedSteps, order, steps) && forall k :: k in order ==> k in savedSteps
      modifies this`runs, this`steps, this`phases
      ensures runs == old(runs)[u := RolledBack(old(runs)[u], was)] && steps == savedSteps
      ensures phases == PhaseWrittenBack(old(phases), savedPhases, savedPhase)
    {
      var _ := AtomicUpdateByUuid(u, RolledBack(runs[u], was), Running);
      RestoreSteps(order, savedSteps);
      if savedPhase.Some? && savedPhase.value in savedPhases {
        phases := UpsertPhase(phases, savedPhase.value, savedPhases[savedPhase.value]);
      }
    }

    /** Writing a phase row back over itself changes nothing. */
    lemma OwnRow(was: map<string, Phase>, saved: Option<string>)
      ensures PhaseWrittenBack(was, was, saved) == was
    {
    }

    /** The guarded part of the transition: reset the steps, then insert the phase row. */
    method ResetPhase(input: Input, a: Answers, order: seq<StepKey>) returns (why: Option<Error>)
      requires forall k :: k in order ==> k in steps
      requires Distinct(order)
      modifies this`steps, this`phases
      ensures PartlyReset(old(steps), order, steps)
      ensures why.None? <==> StepsReset(old(View()), order, a.stepFails) && (HasPhase(input) ==> !a.phaseFails)
      ensures why.None? ==> steps == AllReset(old(steps), order) && phases == WithInserted(old(phases), input)
      ensures why.Some? ==> phases == old(phases)
      ensures why.Some? ==> why.value == if !StepsReset(old(View()), order, a.stepFails) then StepFailed else PhaseFailed
    {
      var ok := ResetSteps(order, a.stepFails);
      if !ok { return Some(StepFailed); }
      if HasPhase(input) {
        if a.phaseFails { return Some(PhaseFailed); }
        phases := UpsertPhase(phases, PhaseId(input.runId, input.fromPhase.value), FreshPhase(input, input.fromPhase.value));
      }
      why := None;
    }

    /** ResumeRun.transition for a run that passed the checks. */
    method Transition(input: Input, a: Answers, order: seq<StepKey>, phaseOrder: seq<string>) returns (why: Option<Error>)
      requires input.runId in runs && CanResume(runs[input.runId].status) && ListsSteps(View(), input, order)
      modifies this`runs, this`steps, this`phases
      ensures why.None? <==> PinOk(input) && StepsReset(old(View()), order, a.stepFails) && (HasPhase(input) ==> !a.phaseFails)
      ensures why.None? ==>
        && runs == old(runs)[input.runId := Reactivated(old(runs)[input.runId], input.pinnedRuntime)]
        && steps == AllReset(old(steps), order) && phases == WithInserted(old(phases), input)
      ensures why.Some? ==> steps == old(steps) && phases == old(phases)
      ensures
        var first := if !PinOk(input) then InvalidPin else if !StepsReset(old(View()), order, a.stepFails) then StepFailed else PhaseFailed;
        why.Some? ==> why.value == first
      ensures why.Some? ==> runs == if why.value == InvalidPin then old(runs)
        else old(runs)[input.runId := RolledBack(Reactivated(old(runs)[input.runId], input.pinnedRuntime), old(runs)[input.runId])]
    {
      var u, run, savedSteps, savedPhases := input.runId, runs[input.runId], steps, phases;
      if !PinOk(input) { return Some(InvalidPin); }
      var savedPhase := SavedPhase(phases, phaseOrder, input);
      OwnRow(phases, savedPhase);
      var _ := AtomicUpdateByUuid(u, Reactivated(run, input.pinnedRuntime), run.status);
      why := ResetPhase(input, a, order);
      if why.Some? { RollBack(u, run, order, savedSteps, savedPhase, savedPhases); }
    }

    /** From the reactivation to the queued job, or back. */
    method TransitionAndEnqueue(input: Input, a: Answers, order: seq<StepKey>, phaseOrder: seq<string>, disposition: Disposition)
      returns (out: Outcome)
      requires Precheck(View(), input, a).None? && ListsSteps(View(), input, order) && disposition == Granted(View(), input, a)
      modifies this`runs, this`steps, this`phases, this`jobs
      ensures out.Resumed? <==> Succeeds(old(View()), input, a, order)
      ensures out.Resumed? ==> out.job == ResumeJob(input.runId, a.jobAt)
      ensures out.Resumed? ==> View() == AfterSuccess(old(View()), input, a, order).(leases := leases)
      ensures out.Refused? ==> WriteReason(old(View()), input, a, order) == Some(out.why)
      ensures out.Refused? ==> View() == AfterFailure(old(View()), input, a, phaseOrder, out.why).(leases := leases)
    {
      var u, run, savedSteps, savedPhases := input.runId, runs[input.runId], steps, phases;
      var savedPhase := SavedPhase(phases, phaseOrder, input);
      var why := Transition(input, a, order, phaseOrder);
      if why.Some? { return Refused(why.value); }
      var job := Job(u, run.repo, "queued", RESUME_JOB_PRIORITY, disposition);
      var ok := EnqueueOrRollBack(ResumeJob(u, a.jobAt), job, a.enqueueFails, run, order, savedSteps, savedPhase, savedPhases);
      out := if ok then Resumed(ResumeJob(u, a.jobAt)) else Refused(EnqueueFailed);
    }

    method EnqueueOrRollBack(id: JobId, job: Job, fails: bool, was: Run, order: seq<StepKey>, savedSteps: map<StepKey, Step>,
                             savedPhase: Option<string>, savedPhases: map<string, Phase>)
      returns (ok: bool)
      requires job.runId in runs && runs[job.runId].status == Running
      requires PartlyReset(savedSteps, order, steps) && forall k :: k in order ==> k in savedSteps
      modifies this`runs, this`steps, this`phases, this`jobs
      ensures ok <==> !fails && id !in old(jobs)
      ensures ok ==> runs == old(runs) && steps == old(steps) && phases == old(phases) && jobs == old(jobs)[id := job]
      ensures !ok ==> runs == old(runs)[job.runId := RolledBack(old(runs)[job.runId], was)] && steps == savedSteps
      ensures !ok ==> phases == PhaseWrittenBack(old(phases), savedPhases, savedPhase) && jobs == old(jobs)
    {
      ok := !fails && id !in jobs;
      if ok { jobs := jobs[id := job]; }
      else { RollBack(job.runId, was, order, savedSteps, savedPhase, savedPhases); }
    }

    /** The checks before the lease, in the order of the source. */
    method Check(input: Input, a: Answers) returns (why: Option<Error>, disposition: Disposition)
      ensures why == Precheck(View(), input, a)
      ensures why.None? ==> disposition == Granted(View(), input, a)
    {
      disposition := ResetToBaseline;
      if input.runId !in runs { return Some(NoRun), disposition; }
      var run := runs[input.runId];
      if !CanResume(run.status) { return Some(NotResumable), disposition; }
      if run.repo !in repos { return Some(NoRepo), disposition; }
      if repos[run.repo].id != run.repo { return Some(RepoMismatch), disposition; }
      if !repos[run.repo].enabled { return Some(RepoDisabled), disposition; }
      if input.disposition.Some? { disposition := input.disposition.value; }
      else {
        if a.dirty.None? { return Some(InspectionFailed), disposition; }
        var d := ResolveDisposition(run.status, a.dirty.value, None);
        if d.None? { return Some(DispositionRequired), disposition; }
        disposition := d.value;
      }
      why := if a.acquireFails then Some(LeaseBroken) else None;
    }

    /** ResumeRun.execute: the store afterwards, and exactly the reason of a refusal. */
    method Execute(input: Input, a: Answers, order: seq<StepKey>, phaseOrder: seq<string>) returns (out: Outcome)
      requires ListsSteps(View(), input, order)
      modifies this
      ensures out.Resumed? ==> Succeeds(old(View()), input, a, order)
      ensures out.Resumed? ==> out.job == ResumeJob(input.runId, a.jobAt) && View() == AfterSuccess(old(View()), input, a, order)
      ensures out.Refused? ==> View() == AfterFailure(old(View()), input, a, phaseOrder, out.why)
      ensures out.Refused? ==> FailsWith(old(View()), input, a, order, out.why)
      ensures out.Resumed? <==> forall why :: !FailsWith(old(View()), input, a, order, why)
    {
      ghost var was := View();
      out := CheckAndResume(input, a, order, phaseOrder);
      ReasonExactly(was, input, a, order);
    }

    method CheckAndResume(input: Input, a: Answers, order: seq<StepKey>, phaseOrder: seq<string>) returns (out: Outcome)
      requires ListsSteps(View(), input, order)
      modifies this
      ensures out.Resumed? <==> Succeeds(old(View()), input, a, order)
      ensures out.Resumed? ==> out.job == ResumeJob(input.runId, a.jobAt) && View() == AfterSuccess(old(View()), input, a, order)
      ensures out.Refused? ==> View() == AfterFailure(old(View()), input, a, phaseOrder, out.why)
      ensures out.Refused? ==> Reason(old(View()), input, a, order) == Some(out.why)
    {
      var why, disposition := Check(input, a);
      if why.Some? { return Refused(why.value); }
      var r := runs[input.runId].repo;
      var acquired := Acquirable(leases, r, input.worker, input.runId, a.acquireAt);
      if acquired {
        leases := leases[r := Lease(input.worker, input.runId, a.acquireAt + LEASE_TTL_MS, a.token)];
      }
      out := TransitionAndEnqueue(input, a, order, phaseOrder, disposition);
      if acquired { leases := leases - {r}; }
    }
  }
}
