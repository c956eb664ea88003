/**
 Where the run theorems stop: concrete runs and steps showing that their assumptions are needed,
 and what exactly is lost when one fails.
 */
module Limits {
  import opened Basics
  import opened Pods
  import opened Expected
  import opened Diff
  import opened Provider
  import opened Adapter
  import opened Machine
  import opened Runs
  import opened Record
  import opened Carriers
  import opened Lifecycle
  import opened Pass
  import opened CleanFinalizer
  import opened Readiness
  import opened Slb
  import Text

  // ----- a refused record patch -----

  function Plain(name: string, finalizers: seq<string>): PodStore {
    map[name := Pod(false, finalizers, Absent)]
  }

  /** The selection ["a"] against an empty record: "a" is to be added, the empty name to be deleted. */
  const FIRST_RUN: ExpectRun := ExpectRun(["a"], ["a"], [""], {0}, {0}, false, false)

  lemma FirstRunPlan(cfg: Config, local: Employer)
    requires cfg.recordExpected && local == Employer(false, [CLEAN], "", "")
    ensures ExpectPlan(cfg, local, FIRST_RUN)
    ensures ExpectText(local, FIRST_RUN) == "a"
    ensures ExpectPods(cfg, Plain("a", []), FIRST_RUN) == map["a" := Pod(false, [], Decoded(map[cfg.key := cfg.flz]))]
  {
    var names := Text.Split("", ',');
    assert names == [""];
    assert ["a"][1..] == [] && [""][1..] == [];
    assert Unlisted(["a"], names) == ["a"] && Unlisted(names, ["a"]) == [""];
    assert ["a"][..0] == [] && [""][..0] == [];
    assert Pick(["a"], {0}) == ["a"] && Pick([""], {0}) == [""];
    assert Unlisted(names, [""]) == [];
    assert At(["a"], {0}) == {"a"} by { assert ["a"][0] == "a" && 0 in {0}; }
    assert At([""], {0}) == {""} by { assert [""][0] == "" && 0 in {0}; }
  }

  lemma FirstRunStep(cfg: Config, s: State, s': State)
    requires cfg.follow && cfg.recordExpected
    requires var local := Employer(false, [CLEAN], "", "");
      s == State(World(Some(local), Plain("a", []), map[], map[]), {}, Ensured(local))
    requires s' == State(s.w.(pods := map["a" := Pod(false, [], Decoded(map[cfg.key := cfg.flz]))]), {"a"}, Idle)
    ensures Step(cfg, s, Expect(FIRST_RUN), s')
  {
    FirstRunPlan(cfg, s.pc.local);
    assert ExpectStep(cfg, s.w, s.pc.local, FIRST_RUN, s'.w);
    assert WrittenAfter(cfg, s, s'.w.pods, true) == {"a"};
  }

  /**
   If the record patch is refused after the pods were written, a pod is left carrying an entry this
   controller wrote that no record names: the patch assumption of the record theorem is needed.
   */
  lemma RefusedPatchLosesPod(cfg: Config) returns (run: Run)
    requires cfg.follow && cfg.recordExpected
    ensures IsRun(cfg, run) && AllSilent(run) && AllUnreplaced(run) && run.states != [] && Start(cfg, run.states[0])
    ensures var s := Last(run); s.w.employer.Some? && "a" in s.written && "a" !in Text.Split(s.w.employer.value.added, ',')
  {
    var local := Employer(false, [CLEAN], "", "");
    var w := World(Some(local), Plain("a", []), map[], map[]);
    var w' := w.(pods := map["a" := Pod(false, [], Decoded(map[cfg.key := cfg.flz]))]);
    var s0, s1, s2 := State(w, {}, Idle), State(w, {}, Fetched(local)), State(w, {}, Ensured(local));
    var s3 := State(w', {"a"}, Idle);
    assert Step(cfg, s0, Fetch, s1) && Step(cfg, s1, EnsureClean(true), s2);
    FirstRunStep(cfg, s2, s3);
    hide ExpectStep, ExpectErr, WrittenAfter;
    run := Run([s0, s1, s2, s3], [Fetch, EnsureClean(true), Expect(FIRST_RUN)]);
    assert Text.Split("", ',') == [""];
  }

  // ----- building blocks of concrete runs -----

  /** A run with no entry of this controller's anywhere, and the state it is in. */
  ghost predicate Reaches(cfg: Config, run: Run, w: World, pc: Pc) {
    && run.states != [] && IsRun(cfg, run) && Last(run) == State(w, {}, pc)
  }

  ghost predicate Blank(pods: PodStore) {
    forall n :: n in pods ==> pods[n].available.Absent?
  }

  /** The step from one world without entries to another. */
  ghost predicate Leads(cfg: Config, w: World, pc: Pc, l: Label, w': World, pc': Pc) {
    var s := State(w, {}, pc);
    Step(cfg, s, l, State(w', WrittenAfter(cfg, s, w'.pods, l.Expect?), pc'))
  }

  function First(run: Run): State
    requires run.states != []
  {
    run.states[0]
  }

  /** The last step of the run, and the state it was taken in. */
  ghost predicate CameBy(run: Run, s: State, l: Label) {
    var k := |run.labels| - 1;
    0 <= k < |run.states| && run.labels[k] == l && run.states[k] == s
  }

  /** A run that has met the other premises so far. */
  ghost predicate Fine(naming: string -> string, run: Run) {
    AllUnreplaced(run) && AllNamed(naming, run)
  }

  /** The premises are about a few labels only. */
  lemma FewAreAsked(naming: string -> string)
    ensures forall s: State, l: Label :: !l.SyncVips? && !l.SyncBackends? ==> Silent(s, l)
    ensures forall s: State, l: Label :: !l.Env? ==> Unreplaced(s, l)
    ensures forall s: State, move: Move :: !move.CreateEmployer? ==> Unreplaced(s, Env(move))
    ensures forall l: Label :: !l.SyncBackends? ==> NamedExpectation(naming, l)
  {
  }

  /** One more step. */
  lemma Add(cfg: Config, naming: string -> string, run: Run, w: World, pc: Pc, l: Label, w': World, pc': Pc)
    returns (run': Run)
    requires Reaches(cfg, run, w, pc) && Leads(cfg, w, pc, l, w', pc') && Blank(w'.pods)
    ensures Reaches(cfg, run', w', pc') && First(run') == First(run) && CameBy(run', State(w, {}, pc), l)
    ensures Fine(naming, run) && NamedExpectation(naming, l) && Unreplaced(State(w, {}, pc), l) ==> Fine(naming, run')
    ensures AllSilent(run) && Silent(State(w, {}, pc), l) ==> AllSilent(run')
  {
    var s, s' := State(w, {}, pc), State(w', {}, pc');
    NothingCarried(cfg, s, w'.pods, l.Expect?);
    assert run.states != [] && IsRun(cfg, run) && Last(run) == s && Step(cfg, s, l, s') && |run.states| == |run.labels| + 1;
    hide Step, WrittenAfter, Silent, Unreplaced, NamedExpectation, IsRun, Fine, AllSilent;
    run' := Extend(run, l, s');
    ExtendRun(cfg, run, l, s');
    StaysFine(naming, run, l, s');
    StaysSilent(run, l, s');
  }

  lemma StaysFine(naming: string -> string, run: Run, l: Label, s': State)
    requires |run.states| == |run.labels| + 1
    ensures Fine(naming, run) && NamedExpectation(naming, l) && Unreplaced(Last(run), l) ==> Fine(naming, Extend(run, l, s'))
  {
    hide Unreplaced, NamedExpectation;
  }

  lemma StaysSilent(run: Run, l: Label, s': State)
    requires |run.states| == |run.labels| + 1
    ensures AllSilent(run) && Silent(Last(run), l) ==> AllSilent(Extend(run, l, s'))
  {
    hide Silent;
  }

  /** Three more steps. */
  lemma AddThree(cfg: Config, naming: string -> string, run: Run, w: World, pc: Pc, l1: Label, w1: World, pc1: Pc,
                 l2: Label, w2: World, pc2: Pc, l3: Label, w3: World, pc3: Pc)
    returns (run': Run)
    requires Reaches(cfg, run, w, pc) && Blank(w1.pods) && Blank(w2.pods) && Blank(w3.pods)
    requires Leads(cfg, w, pc, l1, w1, pc1) && Leads(cfg, w1, pc1, l2, w2, pc2) && Leads(cfg, w2, pc2, l3, w3, pc3)
    ensures Reaches(cfg, run', w3, pc3) && First(run') == First(run) && CameBy(run', State(w2, {}, pc2), l3)
    ensures (Fine(naming, run) && NamedExpectation(naming, l1) && NamedExpectation(naming, l2) && NamedExpectation(naming, l3)
      && Unreplaced(State(w, {}, pc), l1) && Unreplaced(State(w1, {}, pc1), l2) && Unreplaced(State(w2, {}, pc2), l3)) ==>
      Fine(naming, run')
    ensures (AllSilent(run) && Silent(State(w, {}, pc), l1) && Silent(State(w1, {}, pc1), l2)
      && Silent(State(w2, {}, pc2), l3)) ==>
      AllSilent(run')
  {
    hide *;
    run' := Add(cfg, naming, run, w, pc, l1, w1, pc1);
    run' := Add(cfg, naming, run', w1, pc1, l2, w2, pc2);
    run' := Add(cfg, naming, run', w2, pc2, l3, w3, pc3);
  }

  /** A run before its first step. */
  lemma Begin(cfg: Config, naming: string -> string, w: World) returns (run: Run)
    requires w.vips == map[] && w.backends == map[] && forall n :: n in w.pods ==> cfg.flz !in w.pods[n].finalizers
    ensures Reaches(cfg, run, w, Idle) && Start(cfg, First(run)) && Fine(naming, run) && AllSilent(run)
  {
    run := Run([State(w, {}, Idle)], []);
  }

  lemma NothingCarried(cfg: Config, s: State, pods: PodStore, byController: bool)
    requires Blank(pods)
    ensures WrittenAfter(cfg, s, pods, byController) == {}
  {
  }

  lemma CameByMeans(cfg: Config, run: Run, w: World, pc: Pc, s: State, l: Label)
    requires Reaches(cfg, run, w, pc) && CameBy(run, s, l)
    ensures var k := |run.labels| - 1; 0 <= k < |run.states| && run.labels[k] == l && run.states[k] == s
  {
  }

  lemma Arrived(cfg: Config, run: Run, w: World, pc: Pc)
    requires Reaches(cfg, run, w, pc)
    ensures run.states != [] && IsRun(cfg, run) && Last(run).w == w && Last(run).pc == pc && First(run) == run.states[0]
  {
  }

  function NoCud<T>(): Cud<T> {
    Cud([], [], [], [], [], [], [])
  }

  /** A sync that expects nothing of a store that holds nothing. */
  lemma EmptySync<T>(id: T -> string, equal: (T, T) -> Equality)
    ensures Synced(id, equal, ById(id, []), map[], map[], NoCud<T>()) && IsClean(NoCud<T>())
  {
    var none, nil: seq<T> := map[], [];
    assert ById(id, nil) == none && nil + nil == nil && none.Keys - none.Keys == {};
    ListsNone(id, none, equal);
    hide Lists, Shared, Comparable;
    StoredNothing(id, none);
  }

  lemma IdsOne<T>(id: T -> string, x: T)
    ensures Ids(id, [x]) == {id(x)}
  {
    var xs := [x];
    assert id(xs[0]) in Ids(id, xs);
    forall k | k in Ids(id, xs) ensures k == id(x) {
    }
  }

  lemma ByIdOne<T>(id: T -> string, x: T)
    ensures ById(id, [x]) == map[id(x) := x]
  {
    var xs := [x];
    assert xs[..0] == [];
  }

  lemma ListsOne<T>(id: T -> string, x: T)
    ensures Lists(id, [x], map[id(x) := x], {id(x)}) && ById(id, [x]) == map[id(x) := x]
  {
    hide Ids, ById;
    IdsOne(id, x);
    ByIdOne(id, x);
  }

  lemma ListsNone<T>(id: T -> string, m: map<string, T>, equal: (T, T) -> Equality)
    ensures Lists(id, [], m, {})
    ensures forall eq :: Shared(m, map[], equal, eq) == {} == Shared(map[], m, equal, eq)
    ensures Comparable(m, map[], equal) && Comparable(map[], m, equal)
  {
  }

  lemma OneStored<T>(id: T -> string, x: T)
    ensures Stored(id, map[], [x]) == map[id(x) := x] && Dropped(id, map[id(x) := x], [x]) == map[]
  {
    ListsOne(id, x);
  }

  /** A sync that creates the one expected entry. */
  lemma CreatesOne<T>(id: T -> string, equal: (T, T) -> Equality, x: T)
    ensures Synced(id, equal, ById(id, [x]), map[], map[id(x) := x], Cud([x], [], [], [], [], [], []))
  {
    var store, none, nil: seq<T> := map[id(x) := x], map[], [];
    ListsOne(id, x);
    ListsNone(id, store, equal);
    ListsNone(id, none, equal);
    assert [x] + nil == [x] && nil + nil == nil;
    assert store.Keys - none.Keys == {id(x)} && none.Keys - store.Keys == {};
    hide Lists, Shared, Comparable, ById, Stored, Dropped;
    OneStored(id, x);
    StoredNothing(id, store);
  }

  /** A sync that deletes the one entry there is. */
  lemma DeletesOne<T>(id: T -> string, equal: (T, T) -> Equality, x: T)
    ensures Synced(id, equal, ById(id, []), map[id(x) := x], map[], Cud([], [], [], [], [x], [], []))
  {
    var store, none, nil: seq<T> := map[id(x) := x], map[], [];
    assert ById(id, nil) == none;
    ListsOne(id, x);
    ListsNone(id, store, equal);
    ListsNone(id, none, equal);
    assert [x] + nil == [x] && nil + nil == nil;
    assert store.Keys - none.Keys == {id(x)} && none.Keys - store.Keys == {};
    hide Lists, Shared, Comparable, ById, Stored, Dropped;
    OneStored(id, x);
    StoredNothing(id, store);
  }

  const NOTHING: ExpectRun := ExpectRun([], [], [], {}, {}, false, true)

  /** With nothing selected and nothing recorded, the expected-finalizer phase of a live employer does nothing. */
  lemma NothingExpected(cfg: Config, w: World, local: Employer)
    requires !cfg.recordExpected && !local.deleting
    ensures ExpectStep(cfg, w, local, NOTHING, w) && !ExpectErr(cfg, local, NOTHING)
    ensures ExpectLocal(cfg, local, NOTHING, w) == local && !ExpectClean(cfg, local, NOTHING)
  {
    assert At([], {}) == {};
  }

  // ----- a finalizer write lost -----

  const ENTRY: Employee := Employee("a", "a", PodStatus("10.0.0.1", "", true, NoExtra))
  const LIVE: Employer := Employer(false, [CLEAN], "", "")

  const CREATED: Cud<Employee> := Cud([ENTRY], [], [], [], [], [], [])
  const DELETED: Cud<Employee> := Cud([], [], [], [], [ENTRY], [], [])

  /** A sync that creates the entry and gives its pod the finalizer; one that deletes it, and whose pod update fails. */
  const GIVEN: BackendRun := BackendRun([ENTRY], CREATED, [], {"a"}, {}, Done)
  const TAKEN: BackendRun := BackendRun([], DELETED, [], {}, {}, FinalizerFailed)

  lemma LeadInSteps(cfg: Config, w: World)
    requires w.employer == Some(LIVE)
    ensures Leads(cfg, w, Idle, Fetch, w, Fetched(LIVE))
    ensures Leads(cfg, w, Fetched(LIVE), EnsureClean(true), w, Ensured(LIVE))
  {
    hide WrittenAfter;
  }

  lemma LeadInMarked(cfg: Config, w: World)
    requires cfg.follow && !cfg.recordExpected && w.employer == Some(LIVE)
    ensures Leads(cfg, w, Ensured(LIVE), Expect(NOTHING), w, Marked(LIVE, false))
  {
    NothingExpected(cfg, w, LIVE);
    hide ExpectStep, ExpectErr, ExpectLocal, ExpectClean, WrittenAfter;
  }

  lemma LeadInSynced(cfg: Config, w: World)
    requires w.vips == map[]
    ensures Leads(cfg, w, Marked(LIVE, false), SyncVips([], NoCud(), true), w, VipsSynced(LIVE, false, true))
  {
    EmptySync(VipId, cfg.vipEqual);
    hide Synced, WrittenAfter, IsClean;
  }

  /** The first four steps of a pass over the live employer, when nothing is selected and no record is kept. */
  lemma LeadIn(cfg: Config, naming: string -> string, run: Run, w: World) returns (run': Run)
    requires cfg.follow && !cfg.recordExpected && Reaches(cfg, run, w, Idle) && Fine(naming, run) && AllSilent(run)
    requires w.employer == Some(LIVE) && w.vips == map[] && Blank(w.pods)
    ensures Reaches(cfg, run', w, VipsSynced(LIVE, false, true)) && Fine(naming, run') && AllSilent(run')
    ensures First(run') == First(run)
  {
    LeadInSteps(cfg, w);
    LeadInMarked(cfg, w);
    LeadInSynced(cfg, w);
    FewAreAsked(naming);
    NothingAsked(naming);
    hide *;
    run' := AddThree(cfg, naming, run, w, Idle, Fetch, w, Fetched(LIVE), EnsureClean(true), w, Ensured(LIVE),
                     Expect(NOTHING), w, Marked(LIVE, false));
    run' := Add(cfg, naming, run', w, Marked(LIVE, false), SyncVips([], NoCud(), true), w, VipsSynced(LIVE, false, true));
  }

  lemma GaveOne(cfg: Config, w: World, w': World)
    requires cfg.follow && !cfg.recordLifecycle && w == World(Some(LIVE), Plain("a", []), map[], map[])
    requires w' == World(Some(LIVE), Plain("a", [cfg.flz]), map[], map["a" := ENTRY])
    ensures BackendStep(cfg, w, LIVE, GIVEN, w', LIVE)
  {
    CreatesOne(EmployeeId, cfg.employeeEqual, ENTRY);
    assert [ENTRY][..0] == [] && Names([ENTRY]) == ["a"];
    assert NamesWhere([], true) == [] == NamesWhere([], false) && Names([]) == [];
    assert ["a"] + [] + [] == ["a"];
    hide Synced, ById, Names, NamesWhere;
    assert [] + [cfg.flz] == [cfg.flz];
    assert WithFinalizer(w.pods, cfg.flz, {"a"}) == w'.pods;
    assert WithoutFinalizer(w'.pods, cfg.flz, {}) == w'.pods;
  }

  lemma LostOne(cfg: Config, w: World, w': World)
    requires w.pods == Plain("a", [cfg.flz]) && w.backends == map["a" := ENTRY] && w' == w.(backends := map[])
    ensures BackendStep(cfg, w, LIVE, TAKEN, w', LIVE)
  {
    DeletesOne(EmployeeId, cfg.employeeEqual, ENTRY);
    hide Synced, ById;
    assert WithoutFinalizer(WithFinalizer(w.pods, cfg.flz, {}), cfg.flz, {}) == w.pods;
  }

  lemma LostSteps(cfg: Config, w0: World, w1: World, w2: World)
    requires cfg.follow && !cfg.recordLifecycle && w0 == World(Some(LIVE), Plain("a", []), map[], map[])
    requires w1 == World(Some(LIVE), Plain("a", [cfg.flz]), map[], map["a" := ENTRY]) && w2 == w1.(backends := map[])
    ensures Leads(cfg, w0, VipsSynced(LIVE, false, true), SyncBackends(GIVEN), w1, BackendsSynced(LIVE, false, true, false))
    ensures Leads(cfg, w1, BackendsSynced(LIVE, false, true, false), Gate(true), w1, Idle)
    ensures Leads(cfg, w1, VipsSynced(LIVE, false, true), SyncBackends(TAKEN), w2, Idle)
  {
    GaveOne(cfg, w0, w1);
    LostOne(cfg, w1, w2);
    assert !IsClean(CREATED);
    hide BackendStep, WrittenAfter, IsClean;
  }

  /**
   If the provider deletion goes through but the finalizer write does not, a pod keeps the finalizer with nothing
   behind it: two passes from the start, the second with a failed pod update. So the write assumption of the carrier
   theorem is needed; RegisteredExactly says which writes.
   */
  lemma LostFinalizerWrite(cfg: Config, naming: string -> string) returns (run: Run)
    requires cfg.follow && !cfg.recordExpected && !cfg.recordLifecycle && naming("a") == "a"
    ensures IsRun(cfg, run) && AllSilent(run) && AllUnreplaced(run) && run.states != [] && Start(cfg, run.states[0]) && AllNamed(naming, run)
    ensures Last(run).pc == Idle && Last(run).w.backends == map[] && Carrier(cfg, Last(run).w.pods, "a")
  {
    var w0 := World(Some(LIVE), Plain("a", []), map[], map[]);
    var w1 := World(Some(LIVE), Plain("a", [cfg.flz]), map[], map["a" := ENTRY]);
    var w2 := w1.(backends := map[]);
    LostSteps(cfg, w0, w1, w2);
    LostSides(cfg, naming, w0, w1);
    FewAreAsked(naming);
    hide *;
    run := Begin(cfg, naming, w0);
    run := LeadIn(cfg, naming, run, w0);
    run := Add(cfg, naming, run, w0, VipsSynced(LIVE, false, true), SyncBackends(GIVEN), w1,
               BackendsSynced(LIVE, false, true, false));
    run := Add(cfg, naming, run, w1, BackendsSynced(LIVE, false, true, false), Gate(true), w1, Idle);
    run := LeadIn(cfg, naming, run, w1);
    run := Add(cfg, naming, run, w1, VipsSynced(LIVE, false, true), SyncBackends(TAKEN), w2, Idle);
    Arrived(cfg, run, w2, Idle);
    FineMeans(naming, run);
  }

  lemma FineMeans(naming: string -> string, run: Run)
    requires Fine(naming, run)
    ensures AllUnreplaced(run) && AllNamed(naming, run)
  {
  }

  /** The rest of what is needed of the two syncs' labels and worlds. */
  lemma LostSides(cfg: Config, naming: string -> string, w0: World, w1: World)
    requires naming("a") == "a" && w0.pods == Plain("a", []) && w1.pods == Plain("a", [cfg.flz])
    ensures NamedExpectation(naming, SyncBackends(GIVEN)) && NamedExpectation(naming, SyncBackends(TAKEN))
    ensures Silent(State(w0, {}, VipsSynced(LIVE, false, true)), SyncBackends(GIVEN))
    ensures Silent(State(w1, {}, VipsSynced(LIVE, false, true)), SyncBackends(TAKEN))
    ensures Blank(w0.pods) && Blank(w1.pods) && Carrier(cfg, w1.pods, "a")
    ensures forall n :: n in w0.pods ==> cfg.flz !in w0.pods[n].finalizers
  {
  }

  /**
   What a later pass does for such a pod, that the provider does not hold and nobody expects: it takes the finalizer
   off if and only if the lifecycle record names the pod and it is no longer selected.
   */
  lemma StrandedCarrier(cfg: Config, w: World, local: Employer, b: BackendRun, w': World, local': Employer, n: string)
    requires BackendStep(cfg, w, local, b, w', local') && b.stage.Done? && cfg.follow
    requires Carrier(cfg, w.pods, n) && n !in NamesIn(w.backends) && n !in NamesIn(ById(EmployeeId, b.expected))
    ensures !Carrier(cfg, w'.pods, n) <==> NeedRecord(cfg) && n in Recorded(local.recorded) && n !in b.selected
  {
    var expected := ById(EmployeeId, b.expected);
    assert Synced(EmployeeId, cfg.employeeEqual, expected, w.backends, w'.backends, b.cud);
    assert n in Unselected(cfg, local, b.selected) <==>
      NeedRecord(cfg) && n in Recorded(local.recorded) && n !in b.selected;
    hide Synced, FinalizerStep, AddNames, DeleteNames, Unselected, Carrier, ById, Recorded;
    NameSources(cfg, expected, w.backends, w'.backends, b.cud, n);
    PodFate(cfg, w, local, b, w', local', n);
  }

  // ----- an employee that fails drops out of the record -----

  const NOT_READY: PodView := PodView("a", "10.0.0.1", "", false, [])
  const REFUSED: Cud<Employee> := Cud([], [], [], [ExpectedOf(NOT_READY)], [], [], [])

  /** One pod that is not ready but present: unsettled, so to be updated. */
  lemma RefusedSnapshot()
    ensures var e, c := ById(EmployeeId, ExpectedList([NOT_READY])), ById(EmployeeId, CurrentList([NOT_READY], {NOT_READY.ip}));
      && e == map[NOT_READY.ip := ExpectedOf(NOT_READY)] && c == map[NOT_READY.ip := CurrentOf(NOT_READY, {NOT_READY.ip})]
      && Comparable(e, c, EmployeeEqual) && e.Keys - c.Keys == {} == c.Keys - e.Keys
      && Shared(e, c, EmployeeEqual, Unequal) == {NOT_READY.ip} && Shared(e, c, EmployeeEqual, Equal) == {}
  {
    var pods, servers := [NOT_READY], {NOT_READY.ip};
    assert pods[..0] == [] && Representative(pods) == map[NOT_READY.ip := NOT_READY];
    assert !LifecycleReady(NOT_READY);
    hide LifecycleReady, ExpectedList, CurrentList, ById, Shared, Comparable, ExpectedOf, CurrentOf;
    SlbDiff(pods, servers);
    BothSides(pods, servers);
  }

  lemma RefusedUpdate()
    ensures SlbSynced([NOT_READY], {NOT_READY.ip}, REFUSED)
    ensures ById(EmployeeId, ExpectedList([NOT_READY])) == map[NOT_READY.ip := ExpectedOf(NOT_READY)]
    ensures ById(EmployeeId, CurrentList([NOT_READY], {NOT_READY.ip})) ==
      map[NOT_READY.ip := CurrentOf(NOT_READY, {NOT_READY.ip})]
  {
    var nil: seq<Employee> := [];
    var c := ById(EmployeeId, CurrentList([NOT_READY], {NOT_READY.ip}));
    assert nil + [ExpectedOf(NOT_READY)] == [ExpectedOf(NOT_READY)] && nil + nil == nil;
    hide Lists, Shared, Comparable, ById, ExpectedList, CurrentList, LifecycleReady;
    RefusedSnapshot();
    ListsOne(EmployeeId, ExpectedOf(NOT_READY));
    ListsNone(EmployeeId, ById(EmployeeId, ExpectedList([NOT_READY])), EmployeeEqual);
    ListsNone(EmployeeId, c, EmployeeEqual);
    StoredNothing(EmployeeId, c);
  }

  /**
   The SLB adapter drops a carrier from the record: the pod, recorded and in the backend, has turned not ready, so its
   update is refused until the backend has let it go, and the record is rewritten without it while it keeps
   the finalizer.
   */
  lemma RefusedUpdateDropsOut(cfg: Config) returns (w: World, local: Employer, b: BackendRun, w': World, local': Employer)
    requires NeedRecord(cfg) && cfg.employeeEqual == EmployeeEqual
    ensures BackendStep(cfg, w, local, b, w', local') && b.stage.Done? && b.selected == ["a"]
    ensures SlbSynced([NOT_READY], {NOT_READY.ip}, b.cud) && InFailList(b.cud, "a")
    ensures Carrier(cfg, w.pods, "a") && w.employer == Some(local) && "a" in Recorded(local.recorded)
    ensures Carrier(cfg, w'.pods, "a") && w'.employer.Some? && "a" !in Recorded(w'.employer.value.recorded)
  {
    local := Employer(false, [CLEAN], "", "a");
    local' := local.(recorded := "");
    w := World(Some(local), Plain("a", [cfg.flz]), map[], map[NOT_READY.ip := CurrentOf(NOT_READY, {NOT_READY.ip})]);
    w' := w.(employer := Some(local'));
    b := BackendRun(ExpectedList([NOT_READY]), REFUSED, ["a"], {}, {}, Done);
    RefusedUpdate();
    RefusedFinalizers(cfg, w, local, b, w', local');
    hide Synced, ById, ExpectedList, CurrentList, FinalizerStep, Recorded, Names;
  }

  /** Nobody is called up, and the pod is in a fail list. */
  lemma RefusedCalls(cfg: Config, b: BackendRun, local: Employer)
    requires NeedRecord(cfg) && local.recorded == "a" && b.cud == REFUSED && b.selected == ["a"]
    ensures AllAdds(cfg, b) == [] == AllDeletes(cfg, local, b) && InFailList(REFUSED, "a")
  {
    RecordEmptied();
    assert AddNames(true, REFUSED) == [] == DeleteNames(true, REFUSED) && Names([ExpectedOf(NOT_READY)]) == ["a"] by {
      assert [ExpectedOf(NOT_READY)][..0] == [];
    }
    hide AddNames, DeleteNames, Names;
  }

  lemma RefusedFinalizers(cfg: Config, w: World, local: Employer, b: BackendRun, w': World, local': Employer)
    requires NeedRecord(cfg) && local == Employer(false, [CLEAN], "", "a") && local' == local.(recorded := "")
    requires w.employer == Some(local) && w.pods == Plain("a", [cfg.flz]) && w' == w.(employer := Some(local'))
    requires b.cud == REFUSED && b.selected == ["a"] && b.added == {} == b.removed && b.stage == Done
    ensures FinalizerStep(cfg, w, local, b, w', local') && InFailList(REFUSED, "a")
    ensures "a" in Recorded(local.recorded) && "a" !in Recorded(local'.recorded)
  {
    RecordEmptied();
    RefusedCalls(cfg, b, local);
    assert w.pods == WithoutFinalizer(WithFinalizer(w.pods, cfg.flz, {}), cfg.flz, {});
    hide RecordPatch, Recorded, WithFinalizer, WithoutFinalizer, AllAdds, AllDeletes, Names;
  }

  lemma SplitOne()
    ensures Text.Split("a", ',') == ["a"]
  {
    assert "a"[1..] == "" && Text.Split("", ',') == [""];
    assert ['a'] + "" == "a" && [""][1..] == [];
  }

  lemma RecordEmptied()
    ensures RecordPatch("a", []) == Some("") && Unlisted(Text.Split("a", ','), ["a"]) == []
    ensures Recorded("a") == ["a"] && Recorded("") == []
  {
    SplitOne();
    assert ["a"][1..] == [] && Unlisted(["a"], ["a"]) == [];
  }

  // ----- foreign writers between fetch and write -----

  const LEAVING: Employer := Employer(true, [CLEAN], "", "")
  const IDLE: BackendRun := BackendRun([], NoCud(), [], {}, {}, Done)

  /** A sync of employees over nothing, for an adapter that does not follow the pod lifecycle. */
  lemma NoEmployees(cfg: Config, w: World, local: Employer)
    requires !cfg.follow && w.pods == map[] && w.backends == map[]
    ensures BackendStep(cfg, w, local, IDLE, w, local)
  {
    EmptySync(EmployeeId, cfg.employeeEqual);
    hide Synced, ById;
    assert WithoutFinalizer(WithFinalizer(w.pods, cfg.flz, {}), cfg.flz, {}) == w.pods;
  }

  /**
   A finalizer that somebody adds between the fetch and the clean gate is lost with the object itself: the reconciled
   copy, without it, is written back, and a deleting employer left without finalizers goes.
   */
  lemma LostForeignFinalizer(cfg: Config) returns (run: Run)
    requires !cfg.follow
    ensures IsRun(cfg, run) && AllSilent(run) && AllUnreplaced(run) && run.labels != [] && Start(cfg, run.states[0])
    ensures var k := |run.labels| - 1;
      && run.labels[k] == Gate(true) && run.states[k].w.employer == Some(LEAVING.(finalizers := [CLEAN, "other"]))
      && Last(run).w.employer == None
      && ForeignOf(cfg.name, run.states[k].w.employer) != ForeignOf(cfg.name, Last(run).w.employer)
  {
    var w0 := World(Some(LEAVING), map[], map[], map[]);
    var w1 := w0.(employer := Some(LEAVING.(finalizers := [CLEAN, "other"])));
    var w2 := w0.(employer := None);
    var naming := (id: string) => id;
    FirstPhases(cfg, w0, w1);
    LastPhases(cfg, w1, w2);
    FewAreAsked(naming);
    NothingAsked(naming);
    hide *;
    run := Begin(cfg, naming, w0);
    run := AddThree(cfg, naming, run, w0, Idle, Fetch, w0, Fetched(LEAVING), EnsureClean(true), w0, Ensured(LEAVING),
                    Env(EditEmployerFinalizers([CLEAN, "other"])), w1, Ensured(LEAVING));
    run := AddThree(cfg, naming, run, w1, Ensured(LEAVING), Expect(NOTHING), w1, Marked(LEAVING, true),
                    SyncVips([], NoCud(), true), w1, VipsSynced(LEAVING, true, true),
                    SyncBackends(IDLE), w1, BackendsSynced(LEAVING, true, true, true));
    run := Add(cfg, naming, run, w1, BackendsSynced(LEAVING, true, true, true), Gate(true), w2, Idle);
    Arrived(cfg, run, w2, Idle);
    FineMeans(naming, run);
    CameByMeans(cfg, run, w2, Idle, State(w1, {}, BackendsSynced(LEAVING, true, true, true)), Gate(true));
    ForeignLost(cfg.name, w1, w2);
  }

  lemma ForeignLost(name: string, w: World, w': World)
    requires w.employer == Some(LEAVING.(finalizers := [CLEAN, "other"])) && w'.employer.None?
    ensures ForeignOf(name, w.employer) != ForeignOf(name, w'.employer)
  {
    OtherIsForeign(name);
  }

  lemma NothingAsked(naming: string -> string)
    ensures forall s: State :: Silent(s, SyncVips([], NoCud(), true)) && Silent(s, SyncBackends(IDLE))
    ensures NamedExpectation(naming, SyncBackends(IDLE)) && Blank(map[])
  {
  }

  lemma FirstPhases(cfg: Config, w: World, w': World)
    requires !cfg.follow && w == World(Some(LEAVING), map[], map[], map[])
    requires w' == w.(employer := Some(LEAVING.(finalizers := [CLEAN, "other"])))
    ensures Leads(cfg, w, Idle, Fetch, w, Fetched(LEAVING))
    ensures Leads(cfg, w, Fetched(LEAVING), EnsureClean(true), w, Ensured(LEAVING))
    ensures Leads(cfg, w, Ensured(LEAVING), Env(EditEmployerFinalizers([CLEAN, "other"])), w', Ensured(LEAVING))
    ensures Leads(cfg, w', Ensured(LEAVING), Expect(NOTHING), w', Marked(LEAVING, true))
  {
    hide WrittenAfter;
  }

  lemma OtherIsForeign(name: string)
    ensures Foreign(name, [CLEAN, "other"]) != []
  {
    assert |OldClean(name)| > |"other"| && |CLEAN| > |"other"|;
    assert "other" in Without([CLEAN, "other"], OldClean(name)) && "other" in Foreign(name, [CLEAN, "other"]);
  }

  /** From the sync of employers on, with both stores empty, to the removal of the finalizer. */
  lemma LastPhases(cfg: Config, w: World, w': World)
    requires !cfg.follow && w.pods == map[] && w.vips == map[] && w.backends == map[]
    requires w.employer == Some(LEAVING.(finalizers := [CLEAN, "other"])) && w' == w.(employer := None)
    ensures Leads(cfg, w, Marked(LEAVING, true), SyncVips([], NoCud(), true), w, VipsSynced(LEAVING, true, true))
    ensures Leads(cfg, w, VipsSynced(LEAVING, true, true), SyncBackends(IDLE), w, BackendsSynced(LEAVING, true, true, true))
    ensures Leads(cfg, w, BackendsSynced(LEAVING, true, true, true), Gate(true), w', Idle)
  {
    EmptySync(VipId, cfg.vipEqual);
    NoEmployees(cfg, w, LEAVING);
    assert IsClean(NoCud<Employee>());
    assert Unfinalized(cfg.name, LEAVING) == [] by {
      assert [CLEAN][1..] == [];
      assert Without([CLEAN], CLEAN) == [];
    }
    hide Synced, BackendStep, WrittenAfter, Unfinalized, IsClean;
  }

  const SERVED: Vip := Vip("v", Details("10.0.0.9", 100))
  const ONE: Cud<Vip> := Cud([SERVED], [], [], [], [], [], [])
  const GOING: Employer := Employer(true, ["x"], "a", "")
  const RENEWED: Employer := Employer(false, [], "", "")

  /** The recorded pod is gone, so deleting its entry succeeds, and the record is to be emptied. */
  const FORGET: ExpectRun := ExpectRun([], [], ["a"], {}, {0}, false, true)

  lemma ForgetStep(cfg: Config, w: World)
    requires cfg.recordExpected && w == World(Some(RENEWED), map[], map[], map[])
    ensures ExpectStep(cfg, w, GOING, FORGET, w) && !ExpectErr(cfg, GOING, FORGET)
    ensures ExpectLocal(cfg, GOING, FORGET, w) == RENEWED && ExpectClean(cfg, GOING, FORGET)
  {
    RecordEmptied();
    assert Elems(["a"]) + Elems([]) == Elems(["a"]);
    SplitOne();
    assert Text.Listing(["a"], Elems(["a"]) + Elems([]));
    NothingNotPicked(["a"], {0});
    assert ExpectText(GOING, FORGET) == "";
    assert ExpectPods(cfg, map[], FORGET) == map[];
  }

  lemma TakenSteps(cfg: Config, w0: World, w1: World, w2: World)
    requires w0 == World(Some(GOING), map[], map[], map[])
    requires w1 == w0.(employer := None) && w2 == w0.(employer := Some(RENEWED))
    ensures Leads(cfg, w0, Idle, Fetch, w0, Fetched(GOING))
    ensures Leads(cfg, w0, Fetched(GOING), EnsureClean(true), w0, Ensured(GOING))
    ensures Leads(cfg, w0, Ensured(GOING), Env(EditEmployerFinalizers([])), w1, Ensured(GOING))
    ensures Leads(cfg, w1, Ensured(GOING), Env(CreateEmployer([])), w2, Ensured(GOING))
    ensures Blank(map[])
  {
    hide WrittenAfter;
  }

  /** The first half: the employer goes while a pass on it is in flight, and its name is taken. */
  lemma NameTaken(cfg: Config, naming: string -> string, w2: World) returns (run: Run)
    requires w2 == World(Some(RENEWED), map[], map[], map[])
    ensures Reaches(cfg, run, w2, Ensured(GOING)) && Start(cfg, First(run)) && AllSilent(run)
  {
    var w0 := World(Some(GOING), map[], map[], map[]);
    var w1 := w0.(employer := None);
    TakenSteps(cfg, w0, w1, w2);
    FewAreAsked(naming);
    hide *;
    run := Begin(cfg, naming, w0);
    run := AddThree(cfg, naming, run, w0, Idle, Fetch, w0, Fetched(GOING), EnsureClean(true), w0, Ensured(GOING),
                    Env(EditEmployerFinalizers([])), w1, Ensured(GOING));
    run := Add(cfg, naming, run, w1, Ensured(GOING), Env(CreateEmployer([])), w2, Ensured(GOING));
  }

  lemma RenewedSteps(cfg: Config, w: World, w': World)
    requires cfg.follow && cfg.recordExpected && w == World(Some(RENEWED), map[], map[], map[])
    requires w' == w.(vips := map["v" := SERVED])
    ensures Leads(cfg, w, Ensured(GOING), Expect(FORGET), w, Marked(RENEWED, true))
    ensures Leads(cfg, w, Marked(RENEWED, true), SyncVips([SERVED], ONE, true), w', VipsSynced(RENEWED, true, false))
    ensures Silent(State(w, {}, Marked(RENEWED, true)), SyncVips([SERVED], ONE, true)) && Blank(map[])
  {
    ForgetStep(cfg, w);
    CreatesOne(VipId, cfg.vipEqual, SERVED);
    assert !IsClean(ONE);
    hide ExpectStep, ExpectErr, ExpectLocal, ExpectClean, Synced, WrittenAfter, IsClean;
  }

  lemma ServedUnpinned(w: World)
    requires w.employer == Some(RENEWED) && w.vips == map["v" := SERVED]
    ensures !NoOrphan(w)
  {
    assert w.vips["v"] == SERVED && CLEAN !in RENEWED.finalizers;
  }

  /**
   If a deleted employer's name is taken again while a pass on it is in flight, the record patch reaches the new object and
   refreshes the local copy from it; the pass goes on as one over a live employer whose clean finalizer it never
   ensured, and leaves an orphan. NoOrphanExactly says which syncs do.
   */
  lemma RecreationOrphans(cfg: Config) returns (run: Run)
    requires cfg.follow && cfg.recordExpected
    ensures IsRun(cfg, run) && run.states != [] && Start(cfg, run.states[0])
    ensures AllSilent(run) && !NoOrphan(Last(run).w)
  {
    var w2 := World(Some(RENEWED), map[], map[], map[]);
    var w3 := w2.(vips := map["v" := SERVED]);
    var naming := (id: string) => id;
    RenewedSteps(cfg, w2, w3);
    ServedUnpinned(w3);
    FewAreAsked(naming);
    hide *;
    run := NameTaken(cfg, naming, w2);
    run := Add(cfg, naming, run, w2, Ensured(GOING), Expect(FORGET), w2, Marked(RENEWED, true));
    run := Add(cfg, naming, run, w2, Marked(RENEWED, true), SyncVips([SERVED], ONE, true), w3, VipsSynced(RENEWED, true, false));
    Arrived(cfg, run, w3, VipsSynced(RENEWED, true, false));
  }

  // ----- an interval of zero -----

  /**
   An adapter whose interval is zero: one expected record is missing from the provider, and the runtime is told that the
   pass has finished. AskedAgainTruthfully says exactly when the answer is the truth.
   */
  lemma ZeroIntervalForgets(cfg: Config, w: World, outcome: Outcome)
    requires cfg.requeueAfter == Some(0) && Compare(cfg.vipEqual, SERVED, SERVED) == Equal
    requires w.vips == map[] && w.backends == map[]
    requires Settled(cfg, w, Decided(map["v" := SERVED], map[]), outcome)
    ensures Gap(map["v" := SERVED], w.vips, cfg.vipEqual) > 0 && !AskedAgain(outcome)
  {
    var expected := map["v" := SERVED];
    assert "v" in expected.Keys - w.vips.Keys;
  }
}
