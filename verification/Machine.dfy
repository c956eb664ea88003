/**
 The reconcile engine as a transition system. A state is the world (API server and backend
 provider), how far the pass in flight has come with its local copy of the employer, and a
 history: which pods carry an expected entry that this controller wrote. Every step is one
 phase of Reconcile, one abort, or one move of somebody else.
 */
module Machine {
  import opened Basics
  import opened Pods
  import opened Expected
  import opened Diff
  import opened Provider
  import opened Adapter
  import Text

  /** An employer object: the fields the engine reads and writes, with "" for an absent annotation. */
  datatype Employer = Employer(deleting: bool, finalizers: seq<string>, added: string, recorded: string)

  datatype World = World(employer: Option<Employer>, pods: PodStore, vips: map<string, Vip>,
                         backends: map<string, Employee>)

  /** The fixed surroundings of one employer: its names and the adapter's options and equalities. */
  datatype Config = Config(name: string, key: string, flz: string, follow: bool, recordLifecycle: bool,
                           recordExpected: bool, requeueAfter: Option<int>,
                           employeeEqual: (Employee, Employee) -> Equality, vipEqual: (Vip, Vip) -> Equality)

  const CLEAN: string := "resource-consist.kusionstack.io/clean-finalizer"

  /** The legacy per-employer clean finalizer. */
  function OldClean(name: string): string {
    "resource-consist.kusionstack.io/clean-" + name
  }

  // ----- phases of a pass -----

  datatype Pc =
    | Idle
    | Fetched(local: Employer)
    | Ensured(local: Employer)
    | Marked(local: Employer, expectedClean: bool)
    | VipsSynced(local: Employer, expectedClean: bool, vipsClean: bool)
    | BackendsSynced(local: Employer, expectedClean: bool, vipsClean: bool, backendsClean: bool)

  datatype State = State(w: World, written: set<string>, pc: Pc)

  // ensureEmployerCleanFlz

  predicate NeedsClean(local: Employer) {
    !local.deleting && CLEAN !in local.finalizers
  }

  function EnsuredFinalizers(name: string, local: Employer): seq<string> {
    Without(local.finalizers, OldClean(name)) + [CLEAN]
  }

  /** A successful Update found the object unchanged since it was fetched. */
  ghost predicate CleanStep(cfg: Config, w: World, local: Employer, ok: bool, w': World) {
    if ok then
      && w.employer == Some(local)
      && w' == w.(employer := Some(local.(finalizers := EnsuredFinalizers(cfg.name, local))))
    else w' == w
  }

  // ensureExpectedFinalizer

  /** One run: the operations planned, those whose Succeed flag was set, and how the calls came out. */
  datatype ExpectRun = ExpectRun(selected: seq<string>, toAdd: seq<string>, toDelete: seq<string>,
                                 addOk: set<nat>, deleteOk: set<nat>, podErr: bool, patchOk: bool)

  function Pick(xs: seq<string>, indices: set<nat>): seq<string> {
    if xs == [] then []
    else Pick(xs[..|xs| - 1], indices) + if |xs| - 1 in indices then [xs[|xs| - 1]] else []
  }

  function PickNot(xs: seq<string>, indices: set<nat>): seq<string> {
    if xs == [] then []
    else PickNot(xs[..|xs| - 1], indices) + if |xs| - 1 in indices then [] else [xs[|xs| - 1]]
  }

  /** What is to be added and deleted, from the recorded and the selected names. */
  ghost predicate ExpectPlan(cfg: Config, local: Employer, x: ExpectRun) {
    var names := Text.Split(local.added, ',');
    if !cfg.recordExpected then
      if local.deleting then x.toAdd == [] && x.toDelete == x.selected
      else x.toAdd == x.selected && x.toDelete == []
    else if local.deleting then
      x.toAdd == [] && Text.Listing(x.toDelete, Elems(names) + Elems(x.selected))
    else
      x.toAdd == Unlisted(x.selected, names) && x.toDelete == Unlisted(names, x.selected)
  }

  function ExpectPods(cfg: Config, pods: PodStore, x: ExpectRun): PodStore {
    WithoutEntry(WithEntry(pods, cfg.key, cfg.flz, At(x.toAdd, x.addOk)), cfg.key, At(x.toDelete, x.deleteOk))
  }

  /** The names the record is to hold afterwards. */
  function ExpectRecord(local: Employer, x: ExpectRun): seq<string> {
    if local.deleting then PickNot(x.toDelete, x.deleteOk)
    else Unlisted(Text.Split(local.added, ','), Pick(x.toDelete, x.deleteOk)) + Pick(x.toAdd, x.addOk)
  }

  function ExpectText(local: Employer, x: ExpectRun): string {
    Text.Join(ExpectRecord(local, x), ',')
  }

  /** The record is patched only when its text changes. */
  predicate ExpectPatches(cfg: Config, local: Employer, x: ExpectRun) {
    cfg.recordExpected && ExpectText(local, x) != local.added
  }

  /** With a record, a pod error surfaces only on a live employer whose record was also patched. */
  predicate ExpectErr(cfg: Config, local: Employer, x: ExpectRun) {
    if !cfg.recordExpected then x.podErr
    else ExpectPatches(cfg, local, x) && (!x.patchOk || (!local.deleting && x.podErr))
  }

  predicate ExpectClean(cfg: Config, local: Employer, x: ExpectRun) {
    if cfg.recordExpected then ExpectRecord(local, x) == []
    else local.deleting && PickNot(x.toDelete, x.deleteOk) == []
  }

  ghost predicate ExpectStep(cfg: Config, w: World, local: Employer, x: ExpectRun, w': World) {
    && ExpectPlan(cfg, local, x)
    && (forall i :: i in x.deleteOk ==> i < |x.toDelete| && Readable(w.pods, x.toDelete[i]))
    && (forall i :: i in x.addOk ==> i < |x.toAdd| && Open(w.pods, x.toAdd[i]))
    && var pods := ExpectPods(cfg, w.pods, x);
    if ExpectPatches(cfg, local, x) && x.patchOk then
      w.employer.Some?
      && w' == w.(pods := pods, employer := Some(w.employer.value.(added := ExpectText(local, x))))
    else w' == w.(pods := pods)
  }

  /** A successful Patch refreshes the local copy from the server's answer. */
  function ExpectLocal(cfg: Config, local: Employer, x: ExpectRun, w': World): Employer {
    if ExpectPatches(cfg, local, x) && x.patchOk && w'.employer.Some? then w'.employer.value else local
  }

  // syncEmployees

  datatype Stage = AdapterFailed | SelectionFailed | FinalizerFailed | PatchFailed | Done

  /** One run: the adapter's results, the recorded names no longer selected, and how far it came. */
  datatype BackendRun = BackendRun(expected: seq<Employee>, cud: Cud<Employee>, selected: seq<string>,
                                   added: set<string>, removed: set<string>, stage: Stage)

  predicate NeedRecord(cfg: Config) {
    cfg.follow && cfg.recordLifecycle
  }

  /** Recorded names that are no longer selected. */
  function Unselected(cfg: Config, local: Employer, selected: seq<string>): seq<string> {
    if NeedRecord(cfg) && local.recorded != "" then Unlisted(Text.Split(local.recorded, ','), selected) else []
  }

  function AllAdds(cfg: Config, b: BackendRun): seq<string> {
    AddNames(cfg.follow, b.cud)
  }

  function AllDeletes(cfg: Config, local: Employer, b: BackendRun): seq<string> {
    DeleteNames(cfg.follow, b.cud) + Unselected(cfg, local, b.selected)
  }

  /** The new text of the lifecycle record, if a patch is due. */
  function RecordPatch(recorded: string, toAdd: seq<string>): Option<string> {
    if recorded == "" then (if toAdd != [] then Some(Text.Join(toAdd, ',')) else None)
    else
      var names := Text.Split(recorded, ',');
      if |names| != |toAdd| then Some(Text.Join(toAdd, ','))
      else if Text.Sort(names) != Text.Sort(toAdd) then Some(Text.Join(Text.Sort(toAdd), ','))
      else None
  }

  /** The part after the adapter calls: finalizer writes on pods, then the record on the employer. */
  ghost predicate FinalizerStep(cfg: Config, w: World, local: Employer, b: BackendRun, w': World, local': Employer) {
    && w'.pods == WithoutFinalizer(WithFinalizer(w.pods, cfg.flz, b.added), cfg.flz, b.removed)
    && b.added <= Elems(AllAdds(cfg, b)) && b.removed <= Elems(AllDeletes(cfg, local, b))
    && (b.stage.AdapterFailed? || b.stage.SelectionFailed? ==> b.added == {} && b.removed == {})
    && (b.stage.PatchFailed? || b.stage.Done? ==>
          b.added == Elems(AllAdds(cfg, b)) && b.removed == Elems(AllDeletes(cfg, local, b)))
    && var patch := if NeedRecord(cfg) then RecordPatch(local.recorded, AllAdds(cfg, b)) else None;
    if b.stage.Done? && patch.Some? then
      && w.employer.Some? && w'.employer == Some(w.employer.value.(recorded := patch.value))
      && local' == w'.employer.value
    else w'.employer == w.employer && local' == local
  }

  ghost predicate BackendStep(cfg: Config, w: World, local: Employer, b: BackendRun, w': World, local': Employer) {
    && Synced(EmployeeId, cfg.employeeEqual, ById(EmployeeId, b.expected), w.backends, w'.backends, b.cud)
    && w'.vips == w.vips
    && FinalizerStep(cfg, w, local, b, w', local')
  }

  // the clean gate and cleanEmployerCleanFinalizer

  /** An object update: a deleting employer left without finalizers is gone. */
  function SettleEmployer(e: Employer): Option<Employer> {
    if e.deleting && e.finalizers == [] then None else Some(e)
  }

  function Unfinalized(name: string, local: Employer): seq<string> {
    Without(Without(local.finalizers, OldClean(name)), CLEAN)
  }

  ghost predicate GateStep(cfg: Config, w: World, local: Employer, open: bool, ok: bool, w': World) {
    if open && ok && w.employer.Some? && (CLEAN in local.finalizers || OldClean(cfg.name) in local.finalizers) then
      w' == w.(employer := SettleEmployer(w.employer.value.(finalizers := Unfinalized(cfg.name, local))))
    else w' == w
  }

  // ----- everybody else -----

  datatype Move =
    | CreateEmployer(finalizers: seq<string>)
    | DeleteEmployer
    | EditEmployerFinalizers(finalizers: seq<string>)
    | CreatePod(name: string, pod: Pod)
    | DeletePod(name: string)
    | EditPodFinalizers(name: string, finalizers: seq<string>)
    | EditAvailable(name: string, available: Available)

  /**
   The effect of a move; one that is not allowed has none. Others do not touch the clean finalizer and do
   not add the lifecycle finalizer.
   */
  function Disturb(cfg: Config, w: World, move: Move): World {
    match move
    case CreateEmployer(finalizers) =>
      if w.employer.None? && CLEAN !in finalizers
      then w.(employer := Some(Employer(false, finalizers, "", ""))) else w
    case DeleteEmployer =>
      if w.employer.Some? then w.(employer := SettleEmployer(w.employer.value.(deleting := true))) else w
    case EditEmployerFinalizers(finalizers) =>
      if w.employer.Some? && (CLEAN in finalizers <==> CLEAN in w.employer.value.finalizers)
      then w.(employer := SettleEmployer(w.employer.value.(finalizers := finalizers))) else w
    case CreatePod(name, pod) =>
      if name !in w.pods && cfg.flz !in pod.finalizers && !pod.deleting then w.(pods := w.pods[name := pod]) else w
    case DeletePod(name) =>
      if name in w.pods then w.(pods := Settle(w.pods, name, w.pods[name].(deleting := true))) else w
    case EditPodFinalizers(name, finalizers) =>
      if name in w.pods && (cfg.flz in finalizers ==> cfg.flz in w.pods[name].finalizers)
      then w.(pods := Settle(w.pods, name, w.pods[name].(finalizers := finalizers))) else w
    case EditAvailable(name, available) =>
      if name in w.pods then w.(pods := w.pods[name := w.pods[name].(available := available)]) else w
  }

  // ----- steps and runs -----

  datatype Label =
    | Fetch
    | EnsureClean(ok: bool)
    | Expect(x: ExpectRun)
    | SyncVips(expected: seq<Vip>, cud: Cud<Vip>, ok: bool)
    | SyncBackends(b: BackendRun)
    | Gate(ok: bool)
    | Abort
    | Env(move: Move)

  /** Pods carrying an entry this controller wrote: those that did and still carry one, and those just written. */
  function WrittenAfter(cfg: Config, s: State, pods: PodStore, byController: bool): set<string> {
    set n | n in pods && Carries(pods[n], cfg.key)
         && (n in s.written || (byController && !(n in s.w.pods && s.w.pods[n] == pods[n])))
  }

  // What each label does to the world and to the pass in flight.

  ghost predicate Moves(cfg: Config, s: State, move: Move, s': State) {
    s'.pc == s.pc && s'.w == Disturb(cfg, s.w, move)
  }

  ghost predicate Fetches(s: State, s': State) {
    && s.pc.Idle? && s'.w == s.w
    && s'.pc == (if s.w.employer.Some? then Fetched(s.w.employer.value) else Idle)
  }

  ghost predicate Ensures(cfg: Config, s: State, ok: bool, s': State) {
    && s.pc.Fetched?
    && (if NeedsClean(s.pc.local) then CleanStep(cfg, s.w, s.pc.local, ok, s'.w) && s'.pc == Idle
        else s'.w == s.w && s'.pc == Ensured(s.pc.local))
  }

  ghost predicate Expects(cfg: Config, s: State, x: ExpectRun, s': State) {
    && s.pc.Ensured?
    && (if !cfg.follow then s'.w == s.w && s'.pc == Marked(s.pc.local, true)
        else
          && ExpectStep(cfg, s.w, s.pc.local, x, s'.w)
          && s'.pc == (if ExpectErr(cfg, s.pc.local, x) then Idle
                       else Marked(ExpectLocal(cfg, s.pc.local, x, s'.w), ExpectClean(cfg, s.pc.local, x))))
  }

  ghost predicate SyncsVips(cfg: Config, s: State, expected: seq<Vip>, cud: Cud<Vip>, ok: bool, s': State) {
    && s.pc.Marked?
    && s'.w == s.w.(vips := s'.w.vips)
    && Synced(VipId, cfg.vipEqual, ById(VipId, expected), s.w.vips, s'.w.vips, cud)
    && s'.pc == (if ok then VipsSynced(s.pc.local, s.pc.expectedClean, IsClean(cud)) else Idle)
  }

  ghost predicate SyncsBackends(cfg: Config, s: State, b: BackendRun, s': State) {
    && s.pc.VipsSynced?
    && (if b.stage.Done? then
          && s'.pc.BackendsSynced?
          && BackendStep(cfg, s.w, s.pc.local, b, s'.w, s'.pc.local)
          && s'.pc == BackendsSynced(s'.pc.local, s.pc.expectedClean, s.pc.vipsClean, IsClean(b.cud))
        else s'.pc == Idle && BackendStep(cfg, s.w, s.pc.local, b, s'.w, s.pc.local))
  }

  ghost predicate Gates(cfg: Config, s: State, ok: bool, s': State) {
    && s.pc.BackendsSynced? && s'.pc == Idle
    && GateStep(cfg, s.w, s.pc.local, Opens(s.pc), ok, s'.w)
  }

  ghost predicate Step(cfg: Config, s: State, l: Label, s': State) {
    && s'.written == WrittenAfter(cfg, s, s'.w.pods, l.Expect?)
    && match l
       case Env(move) => Moves(cfg, s, move, s')
       case Abort => s'.pc == Idle && s'.w == s.w
       case Fetch => Fetches(s, s')
       case EnsureClean(ok) => Ensures(cfg, s, ok, s')
       case Expect(x) => Expects(cfg, s, x, s')
       case SyncVips(expected, cud, ok) => SyncsVips(cfg, s, expected, cud, ok, s')
       case SyncBackends(b) => SyncsBackends(cfg, s, b, s')
       case Gate(ok) => Gates(cfg, s, ok, s')
  }

  /** The clean gate: both syncs and the expected finalizers clean, on a deleting employer. */
  predicate Opens(pc: Pc)
    requires pc.BackendsSynced?
  {
    pc.vipsClean && pc.backendsClean && pc.expectedClean && pc.local.deleting
  }

  // ----- the requeue decision -----

  /** What a pass returns: a result with the interval to wait, zero for none, or an error. */
  datatype Outcome = Result(requeueAfter: int) | Failure(reason: string)

  const FINISHED: Outcome := Result(0)

  /** The controller runtime asks again after an error or a positive interval. */
  predicate AskedAgain(outcome: Outcome) {
    outcome.Failure? || outcome.requeueAfter > 0
  }

  /** With something left to do the answer is the adapter's interval, or an error if it has none; else it is no interval. */
  ghost predicate Requeues(requeueAfter: Option<int>, again: bool, outcome: Outcome) {
    && (!again ==> outcome == FINISHED)
    && (again && requeueAfter.Some? ==> outcome == Result(requeueAfter.value))
    && (again && requeueAfter.None? ==> outcome.Failure?)
  }

  /** The answer is the truth about what is left to do exactly if the adapter's interval, if any, is positive, or nothing is left. */
  lemma RequeuesTruthfully(requeueAfter: Option<int>, again: bool, outcome: Outcome)
    requires Requeues(requeueAfter, again, outcome)
    ensures (AskedAgain(outcome) <==> again) <==> (!again || (requeueAfter.Some? ==> requeueAfter.value > 0))
  {
  }

  datatype Run = Run(states: seq<State>, labels: seq<Label>)

  ghost predicate IsRun(cfg: Config, run: Run) {
    && |run.states| == |run.labels| + 1
    && forall i :: 0 <= i < |run.labels| ==> Step(cfg, run.states[i], run.labels[i], run.states[i + 1])
  }

  /** A step of the engine in which no call errored and nothing was refused. */
  predicate Flawless(l: Label) {
    match l
    case Fetch => true
    case EnsureClean(ok) => ok
    case Expect(x) => x.patchOk && !x.podErr && Covers(x.deleteOk, |x.toDelete|)
    case SyncVips(_, cud, ok) => ok && !FailedExist(cud)
    case SyncBackends(b) => b.stage.Done? && !FailedExist(b.cud)
    case Gate(ok) => ok
    case Abort => false
    case Env(_) => false
  }

  predicate Covers(indices: set<nat>, count: nat) {
    forall i :: 0 <= i < count ==> i in indices
  }

  ghost predicate AllFlawless(run: Run) {
    forall i :: 0 <= i < |run.labels| ==> Flawless(run.labels[i])
  }

  function Last(run: Run): State
    requires run.states != []
  {
    run.states[|run.states| - 1]
  }

  function Extend(run: Run, l: Label, s: State): Run {
    Run(run.states + [s], run.labels + [l])
  }

  lemma ExtendRun(cfg: Config, run: Run, l: Label, s: State)
    requires IsRun(cfg, run) && Step(cfg, Last(run), l, s)
    ensures IsRun(cfg, Extend(run, l, s)) && Last(Extend(run, l, s)) == s
  {
    hide Step;
  }

  /** A run that goes on where another ended. */
  function Join(a: Run, b: Run): Run
    requires b.states != []
  {
    Run(a.states + b.states[1..], a.labels + b.labels)
  }

  /** Each step of a joined run is a step of one of its parts. */
  lemma JoinAt(a: Run, b: Run, i: nat)
    requires |a.states| == |a.labels| + 1 && |b.states| == |b.labels| + 1 && Last(a) == b.states[0]
    requires i < |a.labels| + |b.labels|
    ensures |Join(a, b).states| == |Join(a, b).labels| + 1 == |a.labels| + |b.labels| + 1
    ensures Join(a, b).labels[i] == if i < |a.labels| then a.labels[i] else b.labels[i - |a.labels|]
    ensures Join(a, b).states[i] == if i < |a.labels| then a.states[i] else b.states[i - |a.labels|]
    ensures Join(a, b).states[i + 1] == if i < |a.labels| then a.states[i + 1] else b.states[i - |a.labels| + 1]
  {
  }

  /** Passes follow one another: a run that ends where another starts goes on as one. */
  lemma JoinRuns(cfg: Config, a: Run, b: Run)
    requires IsRun(cfg, a) && IsRun(cfg, b) && Last(a) == b.states[0]
    ensures IsRun(cfg, Join(a, b)) && Join(a, b).states[0] == a.states[0] && Last(Join(a, b)) == Last(b)
  {
    hide Step;
    var run := Join(a, b);
    forall i | 0 <= i < |run.labels| ensures Step(cfg, run.states[i], run.labels[i], run.states[i + 1]) {
      JoinAt(a, b, i);
    }
  }
}
