/**
 The admission protocol of the fair repository scheduler.

 Several scheduleOnce calls interleave at their one await. The state below holds the four
 fields they share, one record per call (its loop variables and where it is suspended) and the
 dispatches that have not settled. An event is one uninterrupted piece of code. The point between
 two loop iterations is an interleaving point here although the code has no await there, so the
 runs of this model include every run of the code.
 */
module FairScheduler {
  import opened Prelude
  import opened Sequences

  // Repository ids are only compared, so integers stand for any totally ordered ids.
  type RepoId = int
  type WorkerId = string

  datatype Repository = Repository(id: RepoId, maxConcurrentRuns: int)

  datatype Inspection = Unavailable | Available(queueDepth: int, activeCount: int)

  datatype Reservation = Reservation(repoId: RepoId, seqNo: nat, dispatch: nat, aborted: bool)

  datatype Phase = AtTop | Inspecting | Finished

  datatype Call = Call(sorted: seq<Repository>, startIndex: nat, i: nat, committed: nat, phase: Phase)

  datatype State = State(
    inFlight: map<WorkerId, Reservation>,
    claimedSlots: int,
    cursorId: Option<RepoId>,
    stopped: bool,
    calls: seq<Call>,
    pending: map<nat, WorkerId>,
    nextDispatch: nat)

  /** globalConcurrency, a bound on each repository's limit over all listings, and the worker id factory. */
  datatype Config = Config(globalConcurrency: int, maxRuns: RepoId -> int, workerId: (RepoId, nat) -> WorkerId)

  datatype Event =
    | StartCall(listed: Option<seq<Repository>>, aborted: bool)
    | ClaimSlot(c: nat, aborted: bool)
    | InspectionReturns(c: nat, inspection: Inspection)
    | DispatchSettles(d: nat)
    | StopAdmission

  // ---------------------------------------------------------------- sorting and the cursor

  function ById(a: Repository, b: Repository): bool { a.id < b.id }

  function SortById(s: seq<Repository>): seq<Repository> { Sort(s, ById) }

  lemma SortIsPermutation(s: seq<Repository>)
    ensures multiset(SortById(s)) == multiset(s) && |SortById(s)| == |s|
    ensures forall r :: r in SortById(s) <==> r in s
  {
    SortHas(s, ById);
    SameMembers(SortById(s), s);
    assert forall r :: r in SortById(s) <==> r in Elements(SortById(s));
  }

  function Ids(s: seq<Repository>): seq<RepoId> { seq(|s|, i requires 0 <= i < |s| => s[i].id) }

  function Below(a: RepoId, b: RepoId): bool { a < b }

  ghost predicate Rising(ids: seq<RepoId>) { Ascending(ids, Below) }

  lemma {:induction false} InsertIds(r: Repository, s: seq<Repository>)
    ensures multiset(Ids(Insert(r, s, ById))) == multiset(Ids(s)) + multiset{r.id}
  {
    if s == [] || !ById(s[0], r) {
      assert Ids([r] + s) == [r.id] + Ids(s);
    } else {
      InsertIds(r, s[1..]);
      assert Ids(s) == [s[0].id] + Ids(s[1..]);
      assert Ids([s[0]] + Insert(r, s[1..], ById)) == [s[0].id] + Ids(Insert(r, s[1..], ById));
    }
  }

  lemma {:induction false} SortIds(s: seq<Repository>)
    ensures multiset(Ids(SortById(s))) == multiset(Ids(s))
  {
    if s != [] {
      SortIds(s[1..]);
      InsertIds(s[0], SortById(s[1..]));
      assert Ids(s) == [s[0].id] + Ids(s[1..]);
    }
  }

  /** Distinct ids have one sorted order, whatever order they are listed in and whatever else is listed with them. */
  lemma SortIsCanonical(listed: seq<Repository>, ids: seq<RepoId>)
    requires Rising(ids) && multiset(Ids(listed)) == multiset(ids)
    ensures Ids(SortById(listed)) == ids
  {
    var sorted := SortById(listed);
    SortIds(listed);
    AscendingIsDistinct(ids, Below);
    PermutedIsDistinct(ids, Ids(sorted));
    SortArranges(listed, ById, (a, b) => true);
    forall i, j | 0 <= i < j < |sorted| ensures Below(Ids(sorted)[i], Ids(sorted)[j]) {
      assert !ById(sorted[j], sorted[i]);
      assert Ids(sorted)[i] != Ids(sorted)[j];
    }
    SameMembers(Ids(sorted), ids);
    AscendingIsUnique(Ids(sorted), ids, Below);
  }

  /** Index of the first such id, or the length. */
  function FindId(ids: seq<RepoId>, id: RepoId): (k: nat)
    ensures k <= |ids|
    ensures k < |ids| ==> ids[k] == id
    ensures forall j :: 0 <= j < k ==> ids[j] != id
  {
    if ids == [] || ids[0] == id then 0 else 1 + FindId(ids[1..], id)
  }

  function FindAbove(ids: seq<RepoId>, id: RepoId): (k: nat)
    ensures k <= |ids|
    ensures k < |ids| ==> ids[k] > id
    ensures forall j :: 0 <= j < k ==> ids[j] <= id
  {
    if ids == [] || ids[0] > id then 0 else 1 + FindAbove(ids[1..], id)
  }

  function StartIndex(ids: seq<RepoId>, cursor: Option<RepoId>): (k: nat)
    requires ids != []
    ensures k < |ids|
  {
    match cursor
    case None => 0
    case Some(id) =>
      var at := FindId(ids, id);
      if at == |ids| then
        var above := FindAbove(ids, id);
        if above == |ids| then 0 else above
      else (at + 1) % |ids|
  }

  /** The start: the first without a cursor, the cursor's successor, or for a cursor that is gone the first greater id, else the first. */
  ghost predicate StartsAt(ids: seq<RepoId>, cursor: Option<RepoId>, k: nat) {
    && k < |ids|
    && (cursor.None? ==> k == 0)
    && (cursor.Some? && cursor.value in ids ==>
          exists at :: 0 <= at < |ids| && ids[at] == cursor.value && (forall j :: 0 <= j < at ==> ids[j] != cursor.value)
            && k == if at + 1 < |ids| then at + 1 else 0)
    && (cursor.Some? && cursor.value !in ids ==>
          || (ids[k] > cursor.value && forall j :: 0 <= j < k ==> ids[j] < cursor.value)
          || (k == 0 && forall j :: 0 <= j < |ids| ==> ids[j] < cursor.value))
  }

  /** That start is a single index. */
  lemma StartExactly(ids: seq<RepoId>, cursor: Option<RepoId>, k: nat)
    requires ids != []
    ensures k == StartIndex(ids, cursor) <==> StartsAt(ids, cursor, k)
  {
    var start := StartIndex(ids, cursor);
    if cursor.Some? {
      var at := FindId(ids, cursor.value);
      if at < |ids| { WrapMod(|ids|, at + 1); }
      assert at < |ids| <==> cursor.value in ids;
      forall j | 0 <= j < |ids| && cursor.value !in ids ensures ids[j] != cursor.value {}
    }
    assert StartsAt(ids, cursor, start);
  }

  // ---------------------------------------------------------------- reservations

  ghost function ReservedFor(s: State, r: RepoId): set<WorkerId> {
    set w | w in s.inFlight && s.inFlight[w].repoId == r
  }

  ghost function UsedSeqs(s: State, r: RepoId): set<nat> {
    set w | w in s.inFlight && s.inFlight[w].repoId == r :: s.inFlight[w].seqNo
  }

  /** The least number from the given one on that is not used. */
  ghost function NextFree(used: set<nat>, from: nat): (k: nat)
    ensures k >= from && k !in used
    ensures forall j :: from <= j < k ==> j in used
    decreases |used|
  {
    if from !in used then from
    else
      var k := NextFree(used - {from}, from + 1);
      assert forall j :: from <= j < k ==> j in used by {
        forall j | from <= j < k ensures j in used {
          if j != from { assert j in used - {from}; }
        }
      }
      k
  }

  function Cap(cfg: Config, r: Repository): int {
    Min(r.maxConcurrentRuns, cfg.globalConcurrency)
  }

  ghost predicate Admissible(cfg: Config, s: State, repo: Repository, insp: Inspection) {
    && insp.Available?
    && Max(insp.activeCount, |ReservedFor(s, repo.id)|) < Cap(cfg, repo)
    && insp.queueDepth != 0
  }

  // ---------------------------------------------------------------- the transition system

  function Current(c: Call): Repository
    requires c.i < |c.sorted|
  {
    c.sorted[(c.startIndex + c.i) % |c.sorted|]
  }

  ghost predicate Enabled(s: State, e: Event) {
    match e
    case StartCall(_, _) => true
    case ClaimSlot(c, _) => c < |s.calls| && s.calls[c].phase == AtTop
    case InspectionReturns(c, _) =>
      c < |s.calls| && s.calls[c].phase == Inspecting && s.calls[c].i < |s.calls[c].sorted|
    case DispatchSettles(d) => d in s.pending
    case StopAdmission => true
  }

  ghost function StartStep(s: State, listed: Option<seq<Repository>>, aborted: bool): State {
    if aborted || s.stopped || listed.None? || listed.value == [] then
      s.(calls := s.calls + [Call([], 0, 0, 0, Finished)])
    else
      var sorted := SortById(listed.value);
      SortIsPermutation(listed.value);
      s.(calls := s.calls + [Call(sorted, StartIndex(Ids(sorted), s.cursorId), 0, 0, AtTop)])
  }

  ghost function ClaimStep(cfg: Config, s: State, c: nat, aborted: bool): State
    requires c < |s.calls|
  {
    var call := s.calls[c];
    if call.i >= |call.sorted| || aborted || |s.inFlight| + s.claimedSlots >= cfg.globalConcurrency then
      s.(claimedSlots := s.claimedSlots - call.committed, calls := s.calls[c := call.(phase := Finished)])
    else
      s.(claimedSlots := s.claimedSlots + 1, calls := s.calls[c := call.(phase := Inspecting)])
  }

  ghost function NextWorker(cfg: Config, s: State, r: RepoId): WorkerId {
    cfg.workerId(r, NextFree(UsedSeqs(s, r), 0))
  }

  ghost function CommitStep(cfg: Config, s: State, c: nat): State
    requires c < |s.calls| && s.calls[c].i < |s.calls[c].sorted|
  {
    var call := s.calls[c];
    var id := Current(call).id;
    var w := NextWorker(cfg, s, id);
    s.(inFlight := s.inFlight[w := Reservation(id, NextFree(UsedSeqs(s, id), 0), s.nextDispatch, false)],
       pending := s.pending[s.nextDispatch := w],
       nextDispatch := s.nextDispatch + 1,
       cursorId := Some(id),
       calls := s.calls[c := call.(i := call.i + 1, committed := call.committed + 1, phase := AtTop)])
  }

  ghost function InspectStep(cfg: Config, s: State, c: nat, insp: Inspection): State
    requires c < |s.calls| && s.calls[c].i < |s.calls[c].sorted|
  {
    var call := s.calls[c];
    if s.stopped then
      s.(claimedSlots := s.claimedSlots - 1 - call.committed, calls := s.calls[c := call.(phase := Finished)])
    else if Admissible(cfg, s, Current(call), insp) then
      CommitStep(cfg, s, c)
    else
      s.(claimedSlots := s.claimedSlots - 1, calls := s.calls[c := call.(i := call.i + 1, phase := AtTop)])
  }

  ghost function SettleStep(s: State, d: nat): State
    requires d in s.pending
  {
    s.(inFlight := s.inFlight - {s.pending[d]}, pending := s.pending - {d})
  }

  ghost function StopStep(s: State): State {
    if s.stopped then s
    else s.(stopped := true, inFlight := map w | w in s.inFlight :: s.inFlight[w].(aborted := true))
  }

  /** One uninterrupted piece of code; an event that is not enabled changes nothing. */
  ghost function Step(cfg: Config, s: State, e: Event): State {
    if !Enabled(s, e) then s else
    match e
    case StartCall(listed, aborted) => StartStep(s, listed, aborted)
    case ClaimSlot(c, aborted) => ClaimStep(cfg, s, c, aborted)
    case InspectionReturns(c, insp) => InspectStep(cfg, s, c, insp)
    case DispatchSettles(d) => SettleStep(s, d)
    case StopAdmission => StopStep(s)
  }

  ghost function Run(cfg: Config, s: State, es: seq<Event>): State
    decreases |es|
  {
    if es == [] then s else Run(cfg, Step(cfg, s, es[0]), es[1..])
  }

  const Initial := State(map[], 0, None, false, [], map[], 0)

  // ---------------------------------------------------------------- what every interleaving keeps

  /** Slots a call has counted in claimedSlots: its commits and the claim it holds while inspecting. */
  function Claims(c: Call): nat {
    match c.phase case Finished => 0 case Inspecting => c.committed + 1 case AtTop => c.committed
  }

  function Held(c: Call): nat { if c.phase == Inspecting then 1 else 0 }

  function LiveCommits(c: Call): nat { if c.phase == Finished then 0 else c.committed }

  function SumOf(f: Call -> nat, cs: seq<Call>): nat {
    if cs == [] then 0 else SumOf(f, cs[..|cs| - 1]) + f(cs[|cs| - 1])
  }

  lemma {:induction false} SumUpdate(f: Call -> nat, cs: seq<Call>, k: nat, c: Call)
    requires k < |cs|
    ensures SumOf(f, cs[k := c]) == SumOf(f, cs) - f(cs[k]) + f(c)
  {
    var n := |cs| - 1;
    if k == n {
      assert cs[k := c][..n] == cs[..n];
    } else {
      assert cs[k := c][..n] == cs[..n][k := c];
      SumUpdate(f, cs[..n], k, c);
    }
  }

  lemma SumAppend(f: Call -> nat, cs: seq<Call>, c: Call)
    ensures SumOf(f, cs + [c]) == SumOf(f, cs) + f(c)
  {
    assert (cs + [c])[..|cs|] == cs;
  }

  lemma {:induction false} ClaimsSplit(cs: seq<Call>)
    ensures SumOf(Claims, cs) == SumOf(LiveCommits, cs) + SumOf(Held, cs)
  {
    if cs != [] {
      ClaimsSplit(cs[..|cs| - 1]);
    }
  }

  ghost predicate Injective(f: (RepoId, nat) -> WorkerId) {
    forall r1, n1, r2, n2 {:trigger f(r1, n1), f(r2, n2)} :: f(r1, n1) == f(r2, n2) ==> r1 == r2 && n1 == n2
  }

  /** Limits may change from listing to listing; maxRuns bounds what a repository ever reports. */
  ghost predicate Listing(cfg: Config, e: Event) {
    e.StartCall? && e.listed.Some? ==> forall r :: r in e.listed.value ==> r.maxConcurrentRuns <= cfg.maxRuns(r.id)
  }

  ghost predicate Listings(cfg: Config, es: seq<Event>) {
    forall k :: 0 <= k < |es| ==> Listing(cfg, es[k])
  }

  ghost predicate CapacityInv(cfg: Config, s: State) {
    && s.claimedSlots == SumOf(Claims, s.calls)
    && s.claimedSlots <= Max(0, cfg.globalConcurrency)
    && |s.inFlight| + SumOf(Held, s.calls) <= Max(0, cfg.globalConcurrency)
  }

  /** A reservation sits under the worker id of its repository and number. */
  ghost predicate Keyed(cfg: Config, s: State) {
    forall w :: w in s.inFlight ==> w == cfg.workerId(s.inFlight[w].repoId, s.inFlight[w].seqNo)
  }

  /** Numbers in use are below the cap, and calls know no limit above the bound. */
  ghost predicate Capped(cfg: Config, s: State) {
    && (forall w :: w in s.inFlight ==>
          s.inFlight[w].seqNo < Min(cfg.maxRuns(s.inFlight[w].repoId), cfg.globalConcurrency))
    && (forall c :: 0 <= c < |s.calls| ==> Bounded(cfg, s.calls[c].sorted))
  }

  ghost predicate Bounded(cfg: Config, repos: seq<Repository>) {
    forall r :: r in repos ==> r.maxConcurrentRuns <= cfg.maxRuns(r.id)
  }

  /** Reservations and unsettled dispatches are in one-to-one correspondence. */
  ghost predicate Paired(s: State) {
    && (forall w :: w in s.inFlight ==> s.inFlight[w].dispatch in s.pending && s.pending[s.inFlight[w].dispatch] == w)
    && (forall d :: d in s.pending ==>
          d < s.nextDispatch && s.pending[d] in s.inFlight && s.inFlight[s.pending[d]].dispatch == d)
  }

  /** After a stop everything in flight is aborted. */
  ghost predicate Halted(s: State) {
    s.stopped ==> forall w :: w in s.inFlight ==> s.inFlight[w].aborted
  }

  // -- pigeonhole on the lowest free number

  lemma {:induction false} RangeCard(n: nat, used: set<nat>)
    requires forall j :: 0 <= j < n ==> j in used
    ensures n <= |used|
  {
    if n > 0 {
      RangeCard(n - 1, used - {n - 1});
    }
  }

  /** At most one used number per reservation. */
  lemma {:induction false} ImageCard(m: map<WorkerId, Reservation>, ws: set<WorkerId>)
    requires ws <= m.Keys
    ensures |set w | w in ws :: m[w].seqNo| <= |ws|
  {
    if ws != {} {
      var x :| x in ws;
      ImageCard(m, ws - {x});
      var rest := set w | w in ws - {x} :: m[w].seqNo;
      assert (set w | w in ws :: m[w].seqNo) == rest + {m[x].seqNo};
    }
  }

  lemma LowestFreeBelowCount(s: State, r: RepoId)
    ensures NextFree(UsedSeqs(s, r), 0) <= |ReservedFor(s, r)|
  {
    RangeCard(NextFree(UsedSeqs(s, r), 0), UsedSeqs(s, r));
    ImageCard(s.inFlight, ReservedFor(s, r));
    assert UsedSeqs(s, r) == set w | w in ReservedFor(s, r) :: s.inFlight[w].seqNo;
  }

  lemma {:induction false} BoundedCard(xs: set<nat>, n: nat)
    requires forall x :: x in xs ==> x < n
    ensures |xs| <= n
  {
    if n == 0 {
      assert xs == {};
    } else {
      BoundedCard(xs - {n - 1}, n - 1);
    }
  }

  /** Reservations of one repository inject into their numbers. */
  lemma {:induction false} InjectiveCard(cfg: Config, m: map<WorkerId, Reservation>, ws: set<WorkerId>, r: RepoId)
    requires ws <= m.Keys
    requires forall w :: w in ws ==> m[w].repoId == r && w == cfg.workerId(r, m[w].seqNo)
    ensures |set w | w in ws :: m[w].seqNo| == |ws|
  {
    if ws != {} {
      var x :| x in ws;
      InjectiveCard(cfg, m, ws - {x}, r);
      var rest := set w | w in ws - {x} :: m[w].seqNo;
      assert (set w | w in ws :: m[w].seqNo) == rest + {m[x].seqNo};
      assert m[x].seqNo !in rest;
    }
  }

  // -- inductive steps

  /** The chosen worker id belongs to no reservation, because its number is free. */
  lemma NextWorkerIsFresh(cfg: Config, s: State, r: RepoId)
    requires Keyed(cfg, s) && Injective(cfg.workerId)
    ensures NextWorker(cfg, s, r) !in s.inFlight
  {
    forall v | v in s.inFlight ensures v != NextWorker(cfg, s, r) {
      if s.inFlight[v].repoId == r {
        assert s.inFlight[v].seqNo in UsedSeqs(s, r);
      }
    }
  }

  /** How the sums move when one call record is replaced. */
  lemma CallUpdate(s: State, c: nat, call: Call)
    requires c < |s.calls|
    ensures SumOf(Claims, s.calls[c := call]) == SumOf(Claims, s.calls) - Claims(s.calls[c]) + Claims(call)
    ensures SumOf(Held, s.calls[c := call]) == SumOf(Held, s.calls) - Held(s.calls[c]) + Held(call)
    ensures SumOf(Held, s.calls) <= SumOf(Claims, s.calls)
  {
    ClaimsSplit(s.calls);
    SumUpdate(Claims, s.calls, c, call);
    SumUpdate(Held, s.calls, c, call);
  }

  lemma ClaimKeepsCapacity(cfg: Config, s: State, c: nat, aborted: bool)
    requires CapacityInv(cfg, s) && c < |s.calls| && s.calls[c].phase == AtTop
    ensures CapacityInv(cfg, ClaimStep(cfg, s, c, aborted))
  {
    CallUpdate(s, c, ClaimStep(cfg, s, c, aborted).calls[c]);
  }

  /** A commit turns a held claim into a reservation, or into none if its worker id was taken. */
  lemma CommitKeepsCapacity(cfg: Config, s: State, c: nat)
    requires CapacityInv(cfg, s) && c < |s.calls| && s.calls[c].i < |s.calls[c].sorted| && s.calls[c].phase == Inspecting
    ensures CapacityInv(cfg, CommitStep(cfg, s, c))
  {
    var s' := CommitStep(cfg, s, c);
    CallUpdate(s, c, s'.calls[c]);
    assert s'.inFlight.Keys == s.inFlight.Keys + {NextWorker(cfg, s, Current(s.calls[c]).id)};
  }

  lemma InspectKeepsCapacity(cfg: Config, s: State, c: nat, insp: Inspection)
    requires CapacityInv(cfg, s) && Enabled(s, InspectionReturns(c, insp))
    ensures CapacityInv(cfg, InspectStep(cfg, s, c, insp))
  {
    if !s.stopped && Admissible(cfg, s, Current(s.calls[c]), insp) { CommitKeepsCapacity(cfg, s, c); }
    else { CallUpdate(s, c, InspectStep(cfg, s, c, insp).calls[c]); }
  }

  /** A new call has claimed nothing. */
  lemma StartKeepsCapacity(cfg: Config, s: State, listed: Option<seq<Repository>>, aborted: bool)
    requires CapacityInv(cfg, s)
    ensures CapacityInv(cfg, StartStep(s, listed, aborted))
  {
    NewCallKeepsCapacity(cfg, s, Call([], 0, 0, 0, Finished));
    if listed.Some? && listed.value != [] {
      var sorted := SortById(listed.value);
      SortIsPermutation(listed.value);
      NewCallKeepsCapacity(cfg, s, Call(sorted, StartIndex(Ids(sorted), s.cursorId), 0, 0, AtTop));
    }
  }

  lemma NewCallKeepsCapacity(cfg: Config, s: State, call: Call)
    requires CapacityInv(cfg, s) && Claims(call) == Held(call) == 0
    ensures CapacityInv(cfg, s.(calls := s.calls + [call]))
  {
    QuietCall(s.calls, s.calls + [call], call);
  }

  lemma QuietCall(cs: seq<Call>, more: seq<Call>, call: Call)
    requires more == cs + [call] && Claims(call) == Held(call) == 0
    ensures SumOf(Claims, more) == SumOf(Claims, cs) && SumOf(Held, more) == SumOf(Held, cs)
  {
    SumAppend(Claims, cs, call);
    SumAppend(Held, cs, call);
  }

  lemma SettleKeepsCapacity(cfg: Config, s: State, d: nat)
    requires CapacityInv(cfg, s) && d in s.pending
    ensures CapacityInv(cfg, SettleStep(s, d))
  {
    SubsetCard(SettleStep(s, d).inFlight.Keys, s.inFlight.Keys);
  }

  lemma StopKeepsCapacity(cfg: Config, s: State)
    requires CapacityInv(cfg, s)
    ensures CapacityInv(cfg, StopStep(s))
  {
    assert StopStep(s).inFlight.Keys == s.inFlight.Keys;
  }

  lemma StepKeepsCapacity(cfg: Config, s: State, e: Event)
    requires CapacityInv(cfg, s)
    ensures CapacityInv(cfg, Step(cfg, s, e))
  {
    if Enabled(s, e) {
      match e
      case StartCall(listed, aborted) => StartKeepsCapacity(cfg, s, listed, aborted);
      case ClaimSlot(c, aborted) => ClaimKeepsCapacity(cfg, s, c, aborted);
      case InspectionReturns(c, insp) => InspectKeepsCapacity(cfg, s, c, insp);
      case DispatchSettles(d) => SettleKeepsCapacity(cfg, s, d);
      case StopAdmission => StopKeepsCapacity(cfg, s);
    }
  }

  lemma {:induction false} RunKeepsCapacity(cfg: Config, s: State, es: seq<Event>)
    requires CapacityInv(cfg, s)
    ensures CapacityInv(cfg, Run(cfg, s, es))
    decreases |es|
  {
    if es != [] {
      StepKeepsCapacity(cfg, s, es[0]);
      RunKeepsCapacity(cfg, Step(cfg, s, es[0]), es[1..]);
    }
  }

  lemma StepKeepsCaps(cfg: Config, s: State, e: Event)
    requires Keyed(cfg, s) && Capped(cfg, s) && Listing(cfg, e)
    ensures Keyed(cfg, Step(cfg, s, e)) && Capped(cfg, Step(cfg, s, e))
  {
    if Enabled(s, e) {
      match e
      case StartCall(listed, aborted) => if listed.Some? { SortIsPermutation(listed.value); }
      case ClaimSlot(c, aborted) => assert Bounded(cfg, s.calls[c].sorted);
      case InspectionReturns(c, insp) =>
        if Admitted(cfg, s, e).Some? { CommitKeepsCaps(cfg, s, c, insp); }
        else { assert Bounded(cfg, s.calls[c].sorted); }
      case DispatchSettles(d) =>
      case StopAdmission =>
    }
  }

  lemma CommitKeepsCaps(cfg: Config, s: State, c: nat, insp: Inspection)
    requires Keyed(cfg, s) && Capped(cfg, s) && c < |s.calls| && s.calls[c].i < |s.calls[c].sorted|
    requires Admissible(cfg, s, Current(s.calls[c]), insp)
    ensures Keyed(cfg, CommitStep(cfg, s, c)) && Capped(cfg, CommitStep(cfg, s, c))
  {
    assert Bounded(cfg, s.calls[c].sorted) && Current(s.calls[c]) in s.calls[c].sorted;
    LowestFreeBelowCount(s, Current(s.calls[c]).id);
  }

  lemma {:induction false} RunKeepsCaps(cfg: Config, s: State, es: seq<Event>)
    requires Keyed(cfg, s) && Capped(cfg, s) && Listings(cfg, es)
    ensures Keyed(cfg, Run(cfg, s, es)) && Capped(cfg, Run(cfg, s, es))
    decreases |es|
  {
    if es != [] {
      assert Listing(cfg, es[0]);
      StepKeepsCaps(cfg, s, es[0]);
      RunKeepsCaps(cfg, Step(cfg, s, es[0]), es[1..]);
    }
  }

  lemma StepKeepsPairs(cfg: Config, s: State, e: Event)
    requires Keyed(cfg, s) && Paired(s) && Injective(cfg.workerId)
    ensures Keyed(cfg, Step(cfg, s, e)) && Paired(Step(cfg, s, e))
  {
    if Enabled(s, e) {
      match e
      case InspectionReturns(c, insp) =>
        if Admitted(cfg, s, e).Some? { CommitKeepsPairs(cfg, s, c); }
        else { SamePairs(cfg, s, InspectStep(cfg, s, c, insp)); }
      case DispatchSettles(d) => SettleKeepsPairs(cfg, s, d);
      case StopAdmission => StopKeepsPairs(cfg, s);
      case _ => SamePairs(cfg, s, Step(cfg, s, e));
    }
  }

  lemma SamePairs(cfg: Config, s: State, t: State)
    requires Keyed(cfg, s) && Paired(s)
    requires t.inFlight == s.inFlight && t.pending == s.pending && t.nextDispatch == s.nextDispatch
    ensures Keyed(cfg, t) && Paired(t)
  {
  }

  lemma SettleKeepsPairs(cfg: Config, s: State, d: nat)
    requires Keyed(cfg, s) && Paired(s) && d in s.pending
    ensures Keyed(cfg, SettleStep(s, d)) && Paired(SettleStep(s, d))
  {
  }

  lemma StopKeepsPairs(cfg: Config, s: State)
    requires Keyed(cfg, s) && Paired(s)
    ensures Keyed(cfg, StopStep(s)) && Paired(StopStep(s))
  {
  }

  lemma CommitKeepsPairs(cfg: Config, s: State, c: nat)
    requires Keyed(cfg, s) && Paired(s) && Injective(cfg.workerId)
    requires c < |s.calls| && s.calls[c].i < |s.calls[c].sorted|
    ensures Keyed(cfg, CommitStep(cfg, s, c)) && Paired(CommitStep(cfg, s, c))
  {
    NextWorkerIsFresh(cfg, s, Current(s.calls[c]).id);
  }

  lemma {:induction false} RunKeepsPairs(cfg: Config, s: State, es: seq<Event>)
    requires Keyed(cfg, s) && Paired(s) && Injective(cfg.workerId)
    ensures Keyed(cfg, Run(cfg, s, es)) && Paired(Run(cfg, s, es))
    decreases |es|
  {
    if es != [] {
      StepKeepsPairs(cfg, s, es[0]);
      RunKeepsPairs(cfg, Step(cfg, s, es[0]), es[1..]);
    }
  }

  lemma {:induction false} RunKeepsHalted(cfg: Config, s: State, es: seq<Event>)
    requires Halted(s)
    ensures Halted(Run(cfg, s, es))
    decreases |es|
  {
    if es != [] {
      assert Halted(Step(cfg, s, es[0]));
      RunKeepsHalted(cfg, Step(cfg, s, es[0]), es[1..]);
    }
  }

  /**
   In every interleaving: the counter is the commits of the unfinished calls plus their held
   claims, reservations plus held claims fit the pool, and so do the commits of unfinished calls,
   however fast dispatches settle.
   */
  lemma CapacityTheorem(cfg: Config, es: seq<Event>)
    ensures
      var s := Run(cfg, Initial, es);
      && s.claimedSlots == SumOf(LiveCommits, s.calls) + SumOf(Held, s.calls)
      && |s.inFlight| + SumOf(Held, s.calls) <= Max(0, cfg.globalConcurrency)
      && SumOf(LiveCommits, s.calls) <= Max(0, cfg.globalConcurrency)
  {
    RunKeepsCapacity(cfg, Initial, es);
    ClaimsSplit(Run(cfg, Initial, es).calls);
  }

  /** The two counters together exceed the pool by at most the commits of unfinished calls. */
  lemma DoubleCountTheorem(cfg: Config, es: seq<Event>)
    ensures
      var s := Run(cfg, Initial, es);
      && |s.inFlight| + s.claimedSlots <= Max(0, cfg.globalConcurrency) + SumOf(LiveCommits, s.calls)
      && (SumOf(LiveCommits, s.calls) == 0 ==> |s.inFlight| + s.claimedSlots <= Max(0, cfg.globalConcurrency))
  {
    CapacityTheorem(cfg, es);
  }

  /** The sum the counter does not bound: one committed claim is counted twice until its call ends. */
  lemma CommittedClaimCountsTwice(cfg: Config, r: Repository)
    requires cfg.globalConcurrency == 1 && r.maxConcurrentRuns == 1
    ensures
      var es := [StartCall(Some([r]), false), ClaimSlot(0, false), InspectionReturns(0, Available(1, 0))];
      var s := Run(cfg, Initial, es);
      |s.inFlight| + s.claimedSlots == 2
  {
    var es := [StartCall(Some([r]), false), ClaimSlot(0, false), InspectionReturns(0, Available(1, 0))];
    assert [r][1..] == [];
    assert Sort([r][1..], ById) == [];
    assert SortById([r]) == Insert(r, [], ById) == [r];
    var s1 := Step(cfg, Initial, es[0]);
    assert s1.calls == [Call([r], 0, 0, 0, AtTop)];
    var s2 := Step(cfg, s1, es[1]);
    assert s2.calls == [Call([r], 0, 0, 0, Inspecting)];
    assert ReservedFor(s2, r.id) == {};
    var s3 := Step(cfg, s2, es[2]);
    assert es[1..][0] == es[1] && es[1..][1..] == [es[2]] && [es[2]][1..] == [];
    assert Run(cfg, Initial, es) == Run(cfg, s1, es[1..]) == Run(cfg, s2, [es[2]]) == Run(cfg, s3, []);
  }

  /** Per repository: the cap holds and the numbers in use are distinct and below it. */
  lemma PerRepositoryTheorem(cfg: Config, es: seq<Event>, r: RepoId)
    requires Listings(cfg, es)
    ensures
      var s := Run(cfg, Initial, es);
      var cap := Min(cfg.maxRuns(r), cfg.globalConcurrency);
      && |ReservedFor(s, r)| <= Max(0, cap)
      && (forall w :: w in ReservedFor(s, r) ==> s.inFlight[w].seqNo < cap)
      && (forall v, w :: v in ReservedFor(s, r) && w in ReservedFor(s, r) && v != w ==>
            s.inFlight[v].seqNo != s.inFlight[w].seqNo)
  {
    RunKeepsCaps(cfg, Initial, es);
    var s := Run(cfg, Initial, es);
    var ws := ReservedFor(s, r);
    InjectiveCard(cfg, s.inFlight, ws, r);
    BoundedCard(set w | w in ws :: s.inFlight[w].seqNo, Max(0, Min(cfg.maxRuns(r), cfg.globalConcurrency)));
  }

  ghost predicate SameReservation(a: Reservation, b: Reservation) {
    a.(aborted := false) == b.(aborted := false)
  }

  lemma StepKeepsReservation(cfg: Config, s: State, e: Event, w: WorkerId)
    requires Keyed(cfg, s) && Paired(s) && Injective(cfg.workerId) && w in s.inFlight
    ensures
      var s' := Step(cfg, s, e);
      if e == DispatchSettles(s.inFlight[w].dispatch) then w !in s'.inFlight
      else w in s'.inFlight && SameReservation(s.inFlight[w], s'.inFlight[w])
  {
    if Enabled(s, e) && e.InspectionReturns? { NextWorkerIsFresh(cfg, s, Current(s.calls[e.c]).id); }
  }

  /** A reservation leaves only when its own dispatch settles, and nothing overwrites it. */
  lemma OwnSettlementOnly(cfg: Config, es: seq<Event>, e: Event, w: WorkerId)
    requires Injective(cfg.workerId) && w in Run(cfg, Initial, es).inFlight
    ensures
      var s := Run(cfg, Initial, es);
      var s' := Step(cfg, s, e);
      if e == DispatchSettles(s.inFlight[w].dispatch) then w !in s'.inFlight
      else w in s'.inFlight && SameReservation(s.inFlight[w], s'.inFlight[w])
  {
    RunKeepsPairs(cfg, Initial, es);
    StepKeepsReservation(cfg, Run(cfg, Initial, es), e, w);
  }

  // ---------------------------------------------------------------- when a repository is admitted

  /** An inspection's answer reaches the call that waits for it; the repository is the one at its turn. */
  ghost predicate Answers(s: State, e: Event, repo: Repository) {
    && e.InspectionReturns? && e.c < |s.calls| && s.calls[e.c].phase == Inspecting
    && var call := s.calls[e.c];
    && call.i < |call.sorted| && repo == call.sorted[(call.startIndex + call.i) % |call.sorted|]
  }

  /**
   A reservation is added exactly by the answer to an unstopped call about a repository that has queued
   work, and whose active runs and own reservations are both below its limit and the pool.
   */
  lemma StepAddsExactly(cfg: Config, s: State, e: Event)
    requires Keyed(cfg, s) && Injective(cfg.workerId)
    ensures
      var s' := Step(cfg, s, e);
      (exists w :: w in s'.inFlight && w !in s.inFlight) <==>
        && !s.stopped
        && exists repo :: Answers(s, e, repo) && e.inspection.Available? && e.inspection.queueDepth != 0
             && e.inspection.activeCount < repo.maxConcurrentRuns && e.inspection.activeCount < cfg.globalConcurrency
             && var own := set w | w in s.inFlight && s.inFlight[w].repoId == repo.id;
                |own| < repo.maxConcurrentRuns && |own| < cfg.globalConcurrency
  {
    if Enabled(s, e) && e.InspectionReturns? {
      var repo := Current(s.calls[e.c]);
      assert Answers(s, e, repo);
      assert ReservedFor(s, repo.id) == set w | w in s.inFlight && s.inFlight[w].repoId == repo.id;
      NextWorkerIsFresh(cfg, s, repo.id);
      assert Admissible(cfg, s, repo, e.inspection) && !s.stopped ==> NextWorker(cfg, s, repo.id) in Step(cfg, s, e).inFlight;
    }
  }

  /** In every interleaving, and an event that adds none keeps all reservations but the one its settlement ends. */
  lemma AdmissionTheorem(cfg: Config, es: seq<Event>, e: Event)
    requires Injective(cfg.workerId)
    ensures
      var s := Run(cfg, Initial, es);
      var s' := Step(cfg, s, e);
      var added := exists w :: w in s'.inFlight && w !in s.inFlight;
      && (added <==>
            && !s.stopped
            && exists repo :: Answers(s, e, repo) && e.inspection.Available? && e.inspection.queueDepth != 0
                 && e.inspection.activeCount < repo.maxConcurrentRuns && e.inspection.activeCount < cfg.globalConcurrency
                 && var own := set w | w in s.inFlight && s.inFlight[w].repoId == repo.id;
                    |own| < repo.maxConcurrentRuns && |own| < cfg.globalConcurrency)
      && (!added ==> forall w :: w in s'.inFlight <==> w in s.inFlight && e != DispatchSettles(s.inFlight[w].dispatch))
  {
    var s := Run(cfg, Initial, es);
    RunKeepsPairs(cfg, Initial, es);
    StepAddsExactly(cfg, s, e);
    forall w | w in s.inFlight ensures w in Step(cfg, s, e).inFlight <==> e != DispatchSettles(s.inFlight[w].dispatch) {
      StepKeepsReservation(cfg, s, e, w);
    }
  }

  /** What an addition adds: an unaborted reservation with the least free number, a new dispatch, and the cursor on its repository. */
  lemma AddedReservation(cfg: Config, s: State, e: Event, w: WorkerId)
    requires w in Step(cfg, s, e).inFlight && w !in s.inFlight
    ensures
      var s' := Step(cfg, s, e);
      exists repo, n: nat ::
        && Answers(s, e, repo) && w == cfg.workerId(repo.id, n)
        && s'.inFlight == s.inFlight[w := Reservation(repo.id, n, s.nextDispatch, false)]
        && s'.pending == s.pending[s.nextDispatch := w] && s'.nextDispatch == s.nextDispatch + 1
        && s'.cursorId == Some(repo.id) && s'.claimedSlots == s.claimedSlots
        && s'.calls == s.calls[e.c := s.calls[e.c].(phase := AtTop, i := s.calls[e.c].i + 1, committed := s.calls[e.c].committed + 1)]
        && var used := set v | v in s.inFlight && s.inFlight[v].repoId == repo.id :: s.inFlight[v].seqNo;
           n !in used && forall j :: 0 <= j < n ==> j in used
  {
    var repo := Current(s.calls[e.c]);
    assert Answers(s, e, repo);
    var n := NextFree(UsedSeqs(s, repo.id), 0);
    assert w == cfg.workerId(repo.id, n);
    assert UsedSeqs(s, repo.id) == set v | v in s.inFlight && s.inFlight[v].repoId == repo.id :: s.inFlight[v].seqNo;
  }

  /** A call goes on to an inspection exactly when a repository is left and the pool has room; otherwise it ends and gives back its commits. */
  lemma ClaimsExactly(cfg: Config, s: State, c: nat, aborted: bool)
    requires c < |s.calls| && s.calls[c].phase == AtTop
    ensures
      var s' := Step(cfg, s, ClaimSlot(c, aborted));
      var claims := s.calls[c].i < |s.calls[c].sorted| && !aborted && |s.inFlight| + s.claimedSlots < cfg.globalConcurrency;
      && |s'.calls| == |s.calls| && (forall k :: 0 <= k < |s.calls| && k != c ==> s'.calls[k] == s.calls[k])
      && (s'.calls[c].phase == Inspecting <==> claims) && (s'.calls[c].phase == Finished <==> !claims)
      && s'.calls[c].(phase := AtTop) == s.calls[c]
      && s'.claimedSlots == (if claims then s.claimedSlots + 1 else s.claimedSlots - s.calls[c].committed)
      && s'.inFlight == s.inFlight && s'.pending == s.pending && s'.cursorId == s.cursorId && s'.stopped == s.stopped
  {
  }

  /** An answer that adds nothing gives the claim back: a stopped call ends, any other turns to the next repository. */
  lemma SkipsOrEnds(cfg: Config, s: State, e: Event, repo: Repository)
    requires Answers(s, e, repo) && Step(cfg, s, e).inFlight == s.inFlight && Keyed(cfg, s) && Injective(cfg.workerId)
    ensures
      var s' := Step(cfg, s, e);
      && |s'.calls| == |s.calls| && (forall k :: 0 <= k < |s.calls| && k != e.c ==> s'.calls[k] == s.calls[k])
      && s'.calls[e.c] == (if s.stopped then s.calls[e.c].(phase := Finished) else s.calls[e.c].(phase := AtTop, i := s.calls[e.c].i + 1))
      && s'.claimedSlots == s.claimedSlots - 1 - (if s.stopped then s.calls[e.c].committed else 0)
      && s'.pending == s.pending && s'.cursorId == s.cursorId && s'.stopped == s.stopped
  {
    NextWorkerIsFresh(cfg, s, Current(s.calls[e.c]).id);
  }

  /**
   A new call is over at once exactly when it is aborted, stopped or has nothing listed. Otherwise it visits
   the listed repositories in the order of their ids, starting where the cursor says.
   */
  lemma StartsExactly(cfg: Config, s: State, listed: Option<seq<Repository>>, aborted: bool)
    ensures
      var s' := Step(cfg, s, StartCall(listed, aborted));
      && s' == s.(calls := s'.calls) && |s'.calls| == |s.calls| + 1 && s'.calls[..|s.calls|] == s.calls
      && var call := s'.calls[|s.calls|];
      && call.i == call.committed == 0
      && (call.phase == Finished <==> aborted || s.stopped || listed.None? || listed.value == [])
      && (call.phase != Finished ==>
            && call.phase == AtTop && multiset(call.sorted) == multiset(listed.value) && call.sorted != []
            && (forall i, j :: 0 <= i < j < |call.sorted| ==> call.sorted[i].id <= call.sorted[j].id)
            && call.startIndex == StartIndex(Ids(call.sorted), s.cursorId))
  {
    if listed.Some? && listed.value != [] {
      var sorted := SortById(listed.value);
      SortIsPermutation(listed.value);
      SortArranges(listed.value, ById, (a, b) => true);
      forall i, j | 0 <= i < j < |sorted| ensures sorted[i].id <= sorted[j].id { assert !ById(sorted[j], sorted[i]); }
    }
  }

  // ---------------------------------------------------------------- stopping and draining

  /** After stopAdmission: nothing is added, everything left is aborted, and empty stays empty. */
  lemma {:induction false} StoppedRun(cfg: Config, s: State, es: seq<Event>)
    requires s.stopped
    ensures
      var t := Run(cfg, s, es);
      && t.stopped && t.inFlight.Keys <= s.inFlight.Keys
      && (forall w :: w in t.inFlight ==> t.inFlight[w] == s.inFlight[w])
    decreases |es|
  {
    if es != [] {
      StoppedRun(cfg, Step(cfg, s, es[0]), es[1..]);
    }
  }

  lemma StopTheorem(cfg: Config, before: seq<Event>, after: seq<Event>)
    ensures
      var s := Step(cfg, Run(cfg, Initial, before), StopAdmission);
      var t := Run(cfg, s, after);
      && t.inFlight.Keys <= s.inFlight.Keys
      && (forall w :: w in t.inFlight ==> t.inFlight[w].aborted)
  {
    var s0 := Run(cfg, Initial, before);
    RunKeepsHalted(cfg, Initial, before);
    var s := Step(cfg, s0, StopAdmission);
    assert s == StopStep(s0);
    StoppedRun(cfg, s, after);
  }

  datatype DrainAnswer = Drained | TimedOut(remaining: set<WorkerId>) | KeepWaiting

  /** The test at the top of drain's loop. */
  function DrainPoll(s: State, elapsed: int, timeoutMs: int): DrainAnswer {
    if |s.inFlight| == 0 then Drained
    else if elapsed >= timeoutMs then TimedOut(s.inFlight.Keys)
    else KeepWaiting
  }

  /** The answer of a drain: drained exactly on an empty pool, and late answers name exactly what is in flight. */
  lemma DrainAnswers(s: State, elapsed: int, timeoutMs: int)
    ensures DrainPoll(s, elapsed, timeoutMs) == Drained <==> forall w :: w !in s.inFlight
    ensures DrainPoll(s, elapsed, timeoutMs).TimedOut? <==> elapsed >= timeoutMs && exists w :: w in s.inFlight
    ensures DrainPoll(s, elapsed, timeoutMs).TimedOut? ==> forall w :: w in DrainPoll(s, elapsed, timeoutMs).remaining <==> w in s.inFlight
  {
    if |s.inFlight| == 0 { assert s.inFlight.Keys == {}; }
    assert |s.inFlight| > 0 ==> exists w :: w in s.inFlight.Keys by {
      if forall w :: w !in s.inFlight.Keys { assert s.inFlight.Keys == {}; }
    }
  }

  /** Once stopped, a drained answer is true of that state and of every later one. */
  lemma DrainedIsFinal(cfg: Config, s: State, elapsed: int, timeoutMs: int, after: seq<Event>)
    requires s.stopped && DrainPoll(s, elapsed, timeoutMs) == Drained
    ensures s.inFlight == map[] && Run(cfg, s, after).inFlight == map[]
    ensures DrainPoll(Run(cfg, s, after), elapsed, timeoutMs) == Drained
  {
    assert s.inFlight == map[];
    StoppedRun(cfg, s, after);
    var t := Run(cfg, s, after);
    assert t.inFlight.Keys == {};
    assert t.inFlight == map[];
  }

  // ---------------------------------------------------------------- bounded bypass

  /** Steps forward from index a to index b on a circle of n. */
  function Dist(n: nat, a: nat, b: nat): (d: nat)
    requires a < n && b < n
    ensures d < n
  {
    if b >= a then b - a else b - a + n
  }

  lemma WrapMod(n: nat, k: nat)
    requires 0 < n && k < 2 * n
    ensures k % n == if k < n then k else k - n
  {
    if k >= n {
      assert k == 1 * n + (k - n);
      assert k / n == 1;
    }
  }

  ghost function Admitted(cfg: Config, s: State, e: Event): Option<RepoId> {
    if Enabled(s, e) && e.InspectionReturns? && !s.stopped
       && Admissible(cfg, s, Current(s.calls[e.c]), e.inspection)
    then Some(Current(s.calls[e.c]).id) else None
  }

  ghost predicate AllFinished(s: State) {
    forall c :: 0 <= c < |s.calls| ==> s.calls[c].phase == Finished
  }

  /**
   One event of the sequential run loop over the fixed ids, seen by the repository at p: a call
   starts only when the previous one has finished, and an inspection of that repository finds it
   admissible. Limits and everything else a listing reports may change from call to call.
   */
  ghost predicate LoopEvent(cfg: Config, s: State, e: Event, ids: seq<RepoId>, p: nat)
    requires p < |ids|
  {
    && (e.StartCall? ==> AllFinished(s) && (e.listed.Some? ==> multiset(Ids(e.listed.value)) == multiset(ids)))
    && (e.InspectionReturns? && Enabled(s, e) && Current(s.calls[e.c]).id == ids[p] ==>
          Admissible(cfg, s, Current(s.calls[e.c]), e.inspection))
  }

  ghost predicate LoopRun(cfg: Config, s: State, es: seq<Event>, ids: seq<RepoId>, p: nat)
    requires p < |ids|
    decreases |es|
  {
    es != [] ==> LoopEvent(cfg, s, es[0], ids, p) && LoopRun(cfg, Step(cfg, s, es[0]), es[1..], ids, p)
  }

  ghost function Admissions(cfg: Config, s: State, es: seq<Event>): seq<RepoId>
    decreases |es|
  {
    if es == [] then []
    else
      (match Admitted(cfg, s, es[0]) case Some(id) => [id] case None => [])
      + Admissions(cfg, Step(cfg, s, es[0]), es[1..])
  }

  /** Cyclic distance from the cursor's successor to repository p. */
  ghost function Wait(s: State, ids: seq<RepoId>, p: nat): nat
    requires p < |ids|
  {
    Dist(|ids|, StartIndex(ids, s.cursorId), p)
  }

  /** Only the last call can be unfinished; it has not passed p, and no admission jumped ahead of it. */
  ghost predicate LoopInv(s: State, ids: seq<RepoId>, p: nat)
    requires p < |ids|
  {
    && (forall c :: 0 <= c < |s.calls| - 1 ==> s.calls[c].phase == Finished)
    && (s.calls != [] && s.calls[|s.calls| - 1].phase != Finished ==>
          var call := s.calls[|s.calls| - 1];
          && Ids(call.sorted) == ids && call.startIndex < |ids|
          && call.i <= Dist(|ids|, call.startIndex, p) <= Wait(s, ids, p) + call.i)
  }

  lemma CurrentIndex(call: Call, ids: seq<RepoId>, p: nat)
    requires p < |ids| && Rising(ids)
    requires Ids(call.sorted) == ids && call.startIndex < |ids| && call.i <= Dist(|ids|, call.startIndex, p)
    ensures call.i < |ids|
    ensures
      var at := (call.startIndex + call.i) % |ids|;
      && Current(call).id == ids[at]
      && Dist(|ids|, at, p) == Dist(|ids|, call.startIndex, p) - call.i
      && (Current(call).id == ids[p] <==> call.i == Dist(|ids|, call.startIndex, p))
  {
    WrapMod(|ids|, call.startIndex + call.i);
    assert |call.sorted| == |Ids(call.sorted)|;
    var at := (call.startIndex + call.i) % |ids|;
    assert Ids(call.sorted)[at] == call.sorted[at].id;
    assert at == p || Below(ids[Min(at, p)], ids[Max(at, p)]);
  }

  /** Admitting the repository at index k makes index k + 1 the next start. */
  lemma StartAfter(ids: seq<RepoId>, k: nat)
    requires Rising(ids) && k < |ids|
    ensures StartIndex(ids, Some(ids[k])) == if k + 1 < |ids| then k + 1 else 0
  {
    var at := FindId(ids, ids[k]);
    assert at <= k;
    assert at == k || Below(ids[at], ids[k]);
    WrapMod(|ids|, k + 1);
  }

  lemma LoopStart(s: State, listed: Option<seq<Repository>>, aborted: bool, ids: seq<RepoId>, p: nat)
    requires p < |ids| && Rising(ids) && LoopInv(s, ids, p) && AllFinished(s)
    requires listed.Some? ==> multiset(Ids(listed.value)) == multiset(ids)
    ensures LoopInv(StartStep(s, listed, aborted), ids, p)
    ensures Wait(StartStep(s, listed, aborted), ids, p) == Wait(s, ids, p)
  {
    if listed.Some? { SortIsCanonical(listed.value, ids); }
  }

  lemma LoopAdmit(cfg: Config, s: State, c: nat, ids: seq<RepoId>, p: nat)
    requires p < |ids| && Rising(ids) && LoopInv(s, ids, p)
    requires c < |s.calls| && s.calls[c].phase == Inspecting && s.calls[c].i < |s.calls[c].sorted|
    requires Current(s.calls[c]).id != ids[p]
    ensures LoopInv(CommitStep(cfg, s, c), ids, p)
    ensures Wait(CommitStep(cfg, s, c), ids, p) < Wait(s, ids, p)
  {
    assert c == |s.calls| - 1;
    CurrentIndex(s.calls[c], ids, p);
    StartAfter(ids, (s.calls[c].startIndex + s.calls[c].i) % |ids|);
  }

  lemma LoopInspect(cfg: Config, s: State, c: nat, insp: Inspection, ids: seq<RepoId>, p: nat)
    requires p < |ids| && Rising(ids) && LoopInv(s, ids, p)
    requires Enabled(s, InspectionReturns(c, insp)) && LoopEvent(cfg, s, InspectionReturns(c, insp), ids, p)
    requires s.stopped || !Admissible(cfg, s, Current(s.calls[c]), insp)
    ensures LoopInv(InspectStep(cfg, s, c, insp), ids, p)
    ensures Wait(InspectStep(cfg, s, c, insp), ids, p) == Wait(s, ids, p)
  {
    assert c == |s.calls| - 1;
    CurrentIndex(s.calls[c], ids, p);
  }

  /** Every event keeps the invariant, and an admission of another repository shortens the wait. */
  lemma LoopStep(cfg: Config, s: State, e: Event, ids: seq<RepoId>, p: nat)
    requires p < |ids| && Rising(ids) && LoopInv(s, ids, p) && LoopEvent(cfg, s, e, ids, p)
    requires Admitted(cfg, s, e) != Some(ids[p])
    ensures LoopInv(Step(cfg, s, e), ids, p)
    ensures Wait(Step(cfg, s, e), ids, p) + (if Admitted(cfg, s, e).Some? then 1 else 0) <= Wait(s, ids, p)
  {
    if Enabled(s, e) {
      match e
      case StartCall(listed, aborted) => LoopStart(s, listed, aborted, ids, p);
      case ClaimSlot(c, aborted) => LoopClaim(cfg, s, c, aborted, ids, p);
      case InspectionReturns(c, insp) =>
        if Admitted(cfg, s, e).Some? { LoopAdmit(cfg, s, c, ids, p); }
        else { LoopInspect(cfg, s, c, insp, ids, p); }
      case DispatchSettles(d) => LoopSame(s, SettleStep(s, d), ids, p);
      case StopAdmission => LoopSame(s, StopStep(s), ids, p);
    }
  }

  lemma LoopClaim(cfg: Config, s: State, c: nat, aborted: bool, ids: seq<RepoId>, p: nat)
    requires p < |ids| && LoopInv(s, ids, p) && Enabled(s, ClaimSlot(c, aborted))
    ensures LoopInv(ClaimStep(cfg, s, c, aborted), ids, p)
    ensures Wait(ClaimStep(cfg, s, c, aborted), ids, p) == Wait(s, ids, p)
  {
    assert c == |s.calls| - 1;
  }

  lemma LoopSame(s: State, t: State, ids: seq<RepoId>, p: nat)
    requires p < |ids| && LoopInv(s, ids, p) && t.calls == s.calls && t.cursorId == s.cursorId
    ensures LoopInv(t, ids, p) && Wait(t, ids, p) == Wait(s, ids, p)
  {
  }

  lemma {:induction false} BypassBudget(cfg: Config, s: State, es: seq<Event>, ids: seq<RepoId>, p: nat)
    requires p < |ids| && Rising(ids) && LoopInv(s, ids, p) && LoopRun(cfg, s, es, ids, p)
    requires ids[p] !in Admissions(cfg, s, es)
    ensures |Admissions(cfg, s, es)| <= Wait(s, ids, p)
    decreases |es|
  {
    if es != [] {
      var rest := Admissions(cfg, Step(cfg, s, es[0]), es[1..]);
      assert forall x :: x in rest ==> x in Admissions(cfg, s, es);
      LoopStep(cfg, s, es[0], ids, p);
      BypassBudget(cfg, Step(cfg, s, es[0]), es[1..], ids, p);
    }
  }

  /**
   Bounded bypass: in the sequential loop over n repositories, a stretch of the run in which an
   always admissible repository is not admitted holds at most n - 1 admissions.
   */
  lemma BoundedBypass(cfg: Config, s: State, es: seq<Event>, ids: seq<RepoId>, p: nat)
    requires p < |ids| && Rising(ids) && AllFinished(s) && LoopRun(cfg, s, es, ids, p)
    requires ids[p] !in Admissions(cfg, s, es)
    ensures |Admissions(cfg, s, es)| <= |ids| - 1
  {
    BypassBudget(cfg, s, es, ids, p);
  }

  // ---------------------------------------------------------------- the scheduler object

  /** The scheduler with its own fields; each method is one event of the transition system. */
  class FairRepositoryScheduler {
    const cfg: Config
    var inFlight: map<WorkerId, Reservation>
    var claimedSlots: int
    var cursorId: Option<RepoId>
    var stopped: bool
    var calls: seq<Call>
    var pending: map<nat, WorkerId>
    var nextDispatch: nat

    ghost function View(): State
      reads this
    {
      State(inFlight, claimedSlots, cursorId, stopped, calls, pending, nextDispatch)
    }

    constructor (cfg: Config)
      ensures this.cfg == cfg && View() == Initial
    {
      this.cfg := cfg;
      inFlight, claimedSlots, cursorId, stopped := map[], 0, None, false;
      calls, pending, nextDispatch := [], map[], 0;
    }

    method CountReservedForRepo(r: RepoId) returns (count: nat)
      ensures count == |ReservedFor(View(), r)|
    {
      count := 0;
      var todo := inFlight.Keys;
      ghost var done: set<WorkerId> := {};
      while todo != {}
        invariant todo <= inFlight.Keys
        invariant done == set w | w in inFlight && w !in todo && inFlight[w].repoId == r
        invariant count == |done|
      {
        var w :| w in todo;
        todo := todo - {w};
        if inFlight[w].repoId == r {
          count := count + 1;
          done := done + {w};
        }
      }
      assert done == ReservedFor(View(), r);
    }

    method GetNextSeq(r: RepoId) returns (k: nat)
      ensures k == NextFree(UsedSeqs(View(), r), 0)
    {
      var used: set<nat> := {};
      var todo := inFlight.Keys;
      while todo != {}
        invariant todo <= inFlight.Keys
        invariant used == set w | w in inFlight && w !in todo && inFlight[w].repoId == r :: inFlight[w].seqNo
      {
        var w :| w in todo;
        todo := todo - {w};
        if inFlight[w].repoId == r {
          used := used + {inFlight[w].seqNo};
        }
      }
      assert used == UsedSeqs(View(), r);
      k := 0;
      while k in used
        invariant forall j :: 0 <= j < k ==> j in used
        decreases |used| - k
      {
        RangeCard(k + 1, used);
        k := k + 1;
      }
      var least := NextFree(used, 0);
      assert least !in used && k !in used;
    }

    method FindStartIndex(sorted: seq<Repository>) returns (k: nat)
      requires sorted != []
      ensures k == StartIndex(Ids(sorted), cursorId) && StartsAt(Ids(sorted), cursorId, k)
    {
      StartExactly(Ids(sorted), cursorId, StartIndex(Ids(sorted), cursorId));
      if cursorId.None? { return 0; }
      var id := cursorId.value;
      k := 0;
      while k < |sorted| && sorted[k].id != id
        invariant k <= |sorted|
        invariant forall j :: 0 <= j < k ==> sorted[j].id != id
      {
        k := k + 1;
      }
      ghost var ids := Ids(sorted);
      assert k < |sorted| ==> ids[k] == id;
      assert forall j :: 0 <= j < k ==> ids[j] == sorted[j].id;
      assert FindId(ids, id) == k;
      if k < |sorted| {
        return (k + 1) % |sorted|;
      }
      k := 0;
      while k < |sorted| && sorted[k].id <= id
        invariant k <= |sorted|
        invariant forall j :: 0 <= j < k ==> sorted[j].id <= id
      {
        k := k + 1;
      }
      if k == |sorted| { k := 0; }
    }

    /** scheduleOnce up to its loop. */
    method Start(listed: Option<seq<Repository>>, aborted: bool)
      modifies this
      ensures View() == Step(cfg, old(View()), StartCall(listed, aborted))
    {
      if aborted || stopped || listed.None? || listed.value == [] {
        calls := calls + [Call([], 0, 0, 0, Finished)];
        return;
      }
      var sorted := SortById(listed.value);
      SortIsPermutation(listed.value);
      var startIndex := FindStartIndex(sorted);
      calls := calls + [Call(sorted, startIndex, 0, 0, AtTop)];
    }

    /** The top of an iteration: leave the loop and run the finally block, or claim one slot. */
    method Claim(c: nat, aborted: bool)
      requires Enabled(View(), ClaimSlot(c, aborted))
      modifies this
      ensures View() == Step(cfg, old(View()), ClaimSlot(c, aborted))
    {
      var call := calls[c];
      if call.i >= |call.sorted| || aborted || |inFlight| + claimedSlots >= cfg.globalConcurrency {
        claimedSlots := claimedSlots - call.committed;
        calls := calls[c := call.(phase := Finished)];
      } else {
        claimedSlots := claimedSlots + 1;
        calls := calls[c := call.(phase := Inspecting)];
      }
    }

    /** What follows the await: stop, skip the repository, or commit the claim to a dispatch. */
    method Inspected(c: nat, inspection: Inspection)
      requires Enabled(View(), InspectionReturns(c, inspection))
      modifies this
      ensures View() == Step(cfg, old(View()), InspectionReturns(c, inspection))
    {
      var call := calls[c];
      var repo := Current(call);
      if stopped {
        claimedSlots := claimedSlots - 1 - call.committed;
        calls := calls[c := call.(phase := Finished)];
        return;
      }
      var skip := inspection.Unavailable?;
      if !skip {
        var reserved := CountReservedForRepo(repo.id);
        skip := Max(inspection.activeCount, reserved) >= Cap(cfg, repo) || inspection.queueDepth == 0;
      }
      if skip {
        claimedSlots := claimedSlots - 1;
        calls := calls[c := call.(i := call.i + 1, phase := AtTop)];
        return;
      }
      var seqNo := GetNextSeq(repo.id);
      var workerId := cfg.workerId(repo.id, seqNo);
      inFlight := inFlight[workerId := Reservation(repo.id, seqNo, nextDispatch, false)];
      pending := pending[nextDispatch := workerId];
      nextDispatch := nextDispatch + 1;
      cursorId := Some(repo.id);
      calls := calls[c := call.(i := call.i + 1, committed := call.committed + 1, phase := AtTop)];
    }

    /** The finally callback of one dispatch. */
    method Settle(d: nat)
      requires d in pending
      modifies this
      ensures View() == Step(cfg, old(View()), DispatchSettles(d))
    {
      inFlight := inFlight - {pending[d]};
      pending := pending - {d};
    }

    method Stop()
      modifies this
      ensures View() == Step(cfg, old(View()), StopAdmission)
    {
      if stopped { return; }
      stopped := true;
      var todo := inFlight.Keys;
      ghost var was := inFlight;
      while todo != {}
        invariant todo <= was.Keys && inFlight.Keys == was.Keys
        invariant forall w :: w in was ==> inFlight[w] == if w in todo then was[w] else was[w].(aborted := true)
        invariant View() == old(View()).(stopped := true, inFlight := inFlight)
      {
        var w :| w in todo;
        todo := todo - {w};
        inFlight := inFlight[w := inFlight[w].(aborted := true)];
      }
      assert inFlight == map w | w in was :: was[w].(aborted := true);
    }
  }
}
