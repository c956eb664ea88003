/**
 What one completed sync of employees means for pods: when a pod gains or loses the lifecycle
 finalizer (the traffic gate), and what the lifecycle record on the employer then says.
 */
module Lifecycle {
  import opened Basics
  import opened Pods
  import opened Diff
  import opened Provider
  import opened Adapter
  import opened Machine
  import opened Runs
  import opened Carriers
  import Text

  // ----- where add and delete names come from -----

  /** The names a record stands for. */
  function Recorded(text: string): seq<string> {
    if text == "" then [] else Text.Split(text, ',')
  }

  ghost predicate IsReady(e: Employee, ready: bool) {
    e.status.PodStatus? && e.status.lifecycleReady == ready
  }

  /** n is the name of an entry of `source` with an id in `keys`. */
  ghost predicate NameFrom(source: map<string, Employee>, keys: set<string>, n: string) {
    exists id :: id in keys && id in source && source[id].name == n
  }

  ghost predicate ReadyFrom(source: map<string, Employee>, keys: set<string>, ready: bool, n: string) {
    exists id :: id in keys && id in source && source[id].name == n && IsReady(source[id], ready)
  }

  lemma ListedNames(xs: seq<Employee>, source: map<string, Employee>, keys: set<string>, n: string)
    requires Lists(EmployeeId, xs, source, keys)
    ensures n in Names(xs) <==> NameFrom(source, keys, n)
  {
    NamesHave(xs, n);
    if i :| 0 <= i < |xs| && xs[i].name == n {
      assert EmployeeId(xs[i]) in Ids(EmployeeId, xs);
    }
    if NameFrom(source, keys, n) {
      var id :| id in keys && id in source && source[id].name == n;
      var i := IndexOf(xs, id);
      assert xs[i].name == n;
    }
  }

  lemma ListedReady(xs: seq<Employee>, source: map<string, Employee>, keys: set<string>, ready: bool, n: string)
    requires Lists(EmployeeId, xs, source, keys)
    ensures n in NamesWhere(xs, ready) <==> ReadyFrom(source, keys, ready, n)
  {
    NamesWhereHave(xs, ready, n);
    if i :| 0 <= i < |xs| && xs[i].name == n && xs[i].status.PodStatus? && xs[i].status.lifecycleReady == ready {
      assert EmployeeId(xs[i]) in Ids(EmployeeId, xs);
    }
    if ReadyFrom(source, keys, ready, n) {
      var id :| id in keys && id in source && source[id].name == n && IsReady(source[id], ready);
      var i := IndexOf(xs, id);
      assert xs[i].name == n;
    }
  }

  /** The key sets of a sync's results. */
  datatype Parts = Parts(created: set<string>, updated: set<string>, deleted: set<string>, same: set<string>)

  ghost function PartsOf(cfg: Config, expected: map<string, Employee>, before: map<string, Employee>, cud: Cud<Employee>): Parts {
    Parts(Ids(EmployeeId, cud.succCreated), Ids(EmployeeId, cud.succUpdated), Ids(EmployeeId, cud.succDeleted),
          Shared(expected, before, cfg.employeeEqual, Equal))
  }

  /** The add and delete names in terms of the stores. */
  lemma NameSources(cfg: Config, expected: map<string, Employee>, before: map<string, Employee>,
                    after: map<string, Employee>, cud: Cud<Employee>, n: string)
    requires Synced(EmployeeId, cfg.employeeEqual, expected, before, after, cud) && cfg.follow
    ensures var p := PartsOf(cfg, expected, before, cud);
      && (n in AddNames(true, cud) <==>
            NameFrom(expected, p.created, n) || ReadyFrom(expected, p.updated, true, n) || ReadyFrom(expected, p.same, true, n))
      && (n in DeleteNames(true, cud) <==>
            ReadyFrom(expected, p.updated, false, n) || NameFrom(before, p.deleted, n) || ReadyFrom(expected, p.same, false, n))
  {
    SplitIds(EmployeeId, cud.succCreated, cud.failCreated, expected, expected.Keys - before.Keys);
    SplitIds(EmployeeId, cud.succUpdated, cud.failUpdated, expected, Shared(expected, before, cfg.employeeEqual, Unequal));
    SplitIds(EmployeeId, cud.succDeleted, cud.failDeleted, before, before.Keys - expected.Keys);
    var same := Shared(expected, before, cfg.employeeEqual, Equal);
    assert Lists(EmployeeId, cud.same, expected, same);
    hide Synced, Lists, Ids, NameFrom, ReadyFrom, Shared, Names, NamesWhere;
    ListedNames(cud.succCreated, expected, Ids(EmployeeId, cud.succCreated), n);
    ListedReady(cud.succUpdated, expected, Ids(EmployeeId, cud.succUpdated), true, n);
    ListedReady(cud.succUpdated, expected, Ids(EmployeeId, cud.succUpdated), false, n);
    ListedReady(cud.same, expected, same, true, n);
    ListedReady(cud.same, expected, same, false, n);
    ListedNames(cud.succDeleted, before, Ids(EmployeeId, cud.succDeleted), n);
  }

  // ----- the traffic gate -----

  /** Ids and names are one to one across what is expected and what the provider held. */
  ghost predicate OneToOne(expected: map<string, Employee>, before: map<string, Employee>) {
    && (forall i, j :: i in expected && j in expected && expected[i].name == expected[j].name ==> i == j)
    && (forall i, j :: i in before && j in before && before[i].name == before[j].name ==> i == j)
    && (forall i, j :: i in expected && j in before ==> (expected[i].name == before[j].name <==> i == j))
  }

  /** The provider holds an entry for the name that equals the expected one, with the given readiness. */
  ghost predicate HoldsEqual(cfg: Config, expected: map<string, Employee>, store: map<string, Employee>, ready: bool, n: string) {
    exists id :: id in expected && id in store && expected[id].name == n
      && Compare(cfg.employeeEqual, expected[id], store[id]) == Equal && IsReady(expected[id], ready)
  }

  ghost predicate InFailList(cud: Cud<Employee>, n: string) {
    n in Names(cud.failCreated) || n in Names(cud.failUpdated) || n in Names(cud.failDeleted)
  }

  /** An updated or unchanged entry of the given readiness is held as expected afterwards. */
  lemma HeldAsExpected(cfg: Config, expected: map<string, Employee>, before: map<string, Employee>,
                       after: map<string, Employee>, p: Parts, ready: bool, n: string)
    requires Reflexive(cfg.employeeEqual, expected)
    requires p.created <= expected.Keys - before.Keys && p.updated <= Shared(expected, before, cfg.employeeEqual, Unequal)
    requires p.deleted <= before.Keys - expected.Keys && p.same == Shared(expected, before, cfg.employeeEqual, Equal)
    requires after.Keys == before.Keys + p.created - p.deleted
    requires Overwritten(before, expected, p.created + p.updated, after)
    requires ReadyFrom(expected, p.updated, ready, n) || ReadyFrom(expected, p.same, ready, n)
    ensures HoldsEqual(cfg, expected, after, ready, n)
  {
    hide IsReady;
    if ReadyFrom(expected, p.updated, ready, n) {
      var id :| id in p.updated && id in expected && expected[id].name == n && IsReady(expected[id], ready);
      assert id in after && after[id] == expected[id];
    } else {
      var id :| id in p.same && id in expected && expected[id].name == n && IsReady(expected[id], ready);
      assert id in after && id !in p.created && id !in p.updated && after[id] == before[id];
    }
  }

  /** A name called up for deletion by the results: the provider no longer holds it, or holds it as expected and not ready. */
  lemma DeleteNameMeans(cfg: Config, expected: map<string, Employee>, before: map<string, Employee>,
                        after: map<string, Employee>, cud: Cud<Employee>, n: string)
    requires Synced(EmployeeId, cfg.employeeEqual, expected, before, after, cud) && cfg.follow
    requires Reflexive(cfg.employeeEqual, expected) && OneToOne(expected, before)
    requires n in DeleteNames(true, cud)
    ensures n !in NamesIn(after) || HoldsEqual(cfg, expected, after, false, n)
  {
    NameSources(cfg, expected, before, after, cud, n);
    AfterSync(EmployeeId, cfg.employeeEqual, expected, before, after, cud);
    hide Synced, AddNames, DeleteNames, Ids, OneToOne, NameFrom, ReadyFrom, NamesIn, HoldsEqual, Overwritten, Shared,
         Reflexive;
    var p := PartsOf(cfg, expected, before, cud);
    if ReadyFrom(expected, p.updated, false, n) || ReadyFrom(expected, p.same, false, n) {
      HeldAsExpected(cfg, expected, before, after, p, false, n);
    } else {
      DeletedNameGone(expected, before, after, p.created, p.updated, p.deleted, n);
    }
  }

  lemma DeletedNameGone(expected: map<string, Employee>, before: map<string, Employee>, after: map<string, Employee>,
                        created: set<string>, updated: set<string>, deleted: set<string>, n: string)
    requires OneToOne(expected, before)
    requires after.Keys == before.Keys + created - deleted
    requires Overwritten(before, expected, created + updated, after)
    requires NameFrom(before, deleted, n) && deleted <= before.Keys - expected.Keys
    ensures n !in NamesIn(after)
  {
  }

  lemma AddNameMeans(cfg: Config, expected: map<string, Employee>, before: map<string, Employee>,
                     after: map<string, Employee>, cud: Cud<Employee>, n: string)
    requires Synced(EmployeeId, cfg.employeeEqual, expected, before, after, cud) && cfg.follow
    requires Reflexive(cfg.employeeEqual, expected)
    requires n in AddNames(true, cud)
    ensures n in Names(cud.succCreated) || HoldsEqual(cfg, expected, after, true, n)
  {
    NameSources(cfg, expected, before, after, cud, n);
    AfterSync(EmployeeId, cfg.employeeEqual, expected, before, after, cud);
    SplitIds(EmployeeId, cud.succCreated, cud.failCreated, expected, expected.Keys - before.Keys);
    ListedNames(cud.succCreated, expected, Ids(EmployeeId, cud.succCreated), n);
    hide Synced, AddNames, DeleteNames, Ids, Lists, NameFrom, ReadyFrom, HoldsEqual, Overwritten, Shared, Reflexive;
    var p := PartsOf(cfg, expected, before, cud);
    if ReadyFrom(expected, p.updated, true, n) || ReadyFrom(expected, p.same, true, n) {
      HeldAsExpected(cfg, expected, before, after, p, true, n);
    }
  }

  /** A name in a fail list is called up for neither. */
  lemma FailedNamesLeftAlone(cfg: Config, expected: map<string, Employee>, before: map<string, Employee>,
                             after: map<string, Employee>, cud: Cud<Employee>, n: string)
    requires Synced(EmployeeId, cfg.employeeEqual, expected, before, after, cud) && cfg.follow
    requires OneToOne(expected, before) && InFailList(cud, n)
    ensures n !in AddNames(true, cud) && n !in DeleteNames(true, cud)
  {
    NameSources(cfg, expected, before, after, cud, n);
    SplitIds(EmployeeId, cud.succCreated, cud.failCreated, expected, expected.Keys - before.Keys);
    SplitIds(EmployeeId, cud.succUpdated, cud.failUpdated, expected, Shared(expected, before, cfg.employeeEqual, Unequal));
    SplitIds(EmployeeId, cud.succDeleted, cud.failDeleted, before, before.Keys - expected.Keys);
    FailSource(cud.succCreated, cud.failCreated, expected, expected.Keys - before.Keys, n);
    FailSource(cud.succUpdated, cud.failUpdated, expected, Shared(expected, before, cfg.employeeEqual, Unequal), n);
    FailSource(cud.succDeleted, cud.failDeleted, before, before.Keys - expected.Keys, n);
    hide Synced, AddNames, DeleteNames, Ids, Lists, Names;
    PartsApart(cfg, expected, before, PartsOf(cfg, expected, before, cud), Ids(EmployeeId, cud.failCreated),
               Ids(EmployeeId, cud.failUpdated), Ids(EmployeeId, cud.failDeleted), n);
  }

  lemma FailSource(succ: seq<Employee>, fail: seq<Employee>, source: map<string, Employee>, keys: set<string>, n: string)
    requires Lists(EmployeeId, succ + fail, source, keys)
    ensures n in Names(fail) <==> NameFrom(source, Ids(EmployeeId, fail), n)
  {
    SplitIds(EmployeeId, succ, fail, source, keys);
    ListedNames(fail, source, Ids(EmployeeId, fail), n);
  }

  lemma PartsApart(cfg: Config, expected: map<string, Employee>, before: map<string, Employee>, p: Parts,
                   failC: set<string>, failU: set<string>, failD: set<string>, n: string)
    requires OneToOne(expected, before)
    requires p.created !! failC && p.created + failC == expected.Keys - before.Keys
    requires p.updated !! failU && p.updated + failU == Shared(expected, before, cfg.employeeEqual, Unequal)
    requires p.deleted !! failD && p.deleted + failD == before.Keys - expected.Keys
    requires p.same == Shared(expected, before, cfg.employeeEqual, Equal)
    requires NameFrom(expected, failC, n) || NameFrom(expected, failU, n) || NameFrom(before, failD, n)
    ensures !NameFrom(expected, p.created, n) && !NameFrom(before, p.deleted, n)
    ensures forall ready :: !ReadyFrom(expected, p.updated, ready, n) && !ReadyFrom(expected, p.same, ready, n)
  {
  }

  /** Called off are exactly the recorded names that are not selected. */
  lemma StillSelected(cfg: Config, local: Employer, selected: seq<string>, n: string)
    ensures n in Unselected(cfg, local, selected) <==> NeedRecord(cfg) && n in Recorded(local.recorded) && n !in selected
  {
  }

  /**
   An employer whose adapter does not follow the pod lifecycle: no step of the engine touches a pod, or a record on the
   employer.
   */
  lemma NotFollowed(cfg: Config, s: State, l: Label, s': State)
    requires !cfg.follow && Step(cfg, s, l, s') && !l.Env?
    ensures s'.w.pods == s.w.pods
    ensures s.w.employer.Some? && s'.w.employer.Some? ==>
      && s'.w.employer.value.added == s.w.employer.value.added
      && s'.w.employer.value.recorded == s.w.employer.value.recorded
  {
    if l.SyncBackends? {
      NobodyCalled(cfg, s.pc.local, l.b);
      SyncUnfolded(cfg, s, l.b, s');
      hide Synced, WithFinalizer, WithoutFinalizer, AllAdds, AllDeletes, RecordPatch, IsClean, WrittenAfter;
      assert l.b.added == {} == l.b.removed;
      NoFinalizersAtAll(s.w.pods, cfg.flz);
    } else {
      hide Synced, IsClean, WrittenAfter, ExpectStep;
    }
  }

  lemma NobodyCalled(cfg: Config, local: Employer, b: BackendRun)
    requires !cfg.follow
    ensures AllAdds(cfg, b) == [] == AllDeletes(cfg, local, b)
  {
  }

  lemma NoFinalizersAtAll(pods: PodStore, flz: string)
    ensures WithoutFinalizer(WithFinalizer(pods, flz, {}), flz, {}) == pods
  {
  }

  /**
   The traffic gate. However far a sync came, with ids and names one to one, a pod that is selected, or not on record,
   loses the lifecycle finalizer, or goes with it, only if afterwards the provider holds nothing for it, or holds the
   expected entry with LifecycleReady false; gains it only if just created, or held as expected with LifecycleReady
   true; and is left as it is, there and with its finalizers, if it is in any fail list.
   */
  lemma TrafficGate(cfg: Config, w: World, local: Employer, b: BackendRun, w': World, local': Employer, n: string)
    requires BackendStep(cfg, w, local, b, w', local') && cfg.follow
    requires Reflexive(cfg.employeeEqual, ById(EmployeeId, b.expected)) && OneToOne(ById(EmployeeId, b.expected), w.backends)
    requires n in b.selected || !NeedRecord(cfg) || n !in Recorded(local.recorded)
    ensures Carrier(cfg, w.pods, n) && !Carrier(cfg, w'.pods, n) ==>
      n !in NamesIn(w'.backends) || HoldsEqual(cfg, ById(EmployeeId, b.expected), w'.backends, false, n)
    ensures !Carrier(cfg, w.pods, n) && Carrier(cfg, w'.pods, n) ==>
      n in Names(b.cud.succCreated) || HoldsEqual(cfg, ById(EmployeeId, b.expected), w'.backends, true, n)
    ensures n in w.pods && InFailList(b.cud, n) ==> n in w'.pods && w'.pods[n] == w.pods[n]
  {
    var expected := ById(EmployeeId, b.expected);
    assert Synced(EmployeeId, cfg.employeeEqual, expected, w.backends, w'.backends, b.cud);
    PodFate(cfg, w, local, b, w', local', n);
    StillSelected(cfg, local, b.selected, n);
    hide BackendStep, Synced, AddNames, DeleteNames, Names, HoldsEqual, NamesIn, Carrier, OneToOne, Reflexive, ById;
    if n in DeleteNames(true, b.cud) {
      DeleteNameMeans(cfg, expected, w.backends, w'.backends, b.cud, n);
    }
    if n in AddNames(true, b.cud) {
      AddNameMeans(cfg, expected, w.backends, w'.backends, b.cud, n);
    }
    if InFailList(b.cud, n) {
      FailedNamesLeftAlone(cfg, expected, w.backends, w'.backends, b.cud, n);
    }
  }

  /** What a sync does to one pod, however far it came; a pod released by the removal counts as one that lost it. */
  lemma PodFate(cfg: Config, w: World, local: Employer, b: BackendRun, w': World, local': Employer, n: string)
    requires FinalizerStep(cfg, w, local, b, w', local') && cfg.follow
    ensures var adds, deletes := AddNames(true, b.cud), DeleteNames(true, b.cud) + Unselected(cfg, local, b.selected);
      && (!Carrier(cfg, w.pods, n) && Carrier(cfg, w'.pods, n) ==> n in adds)
      && (Carrier(cfg, w.pods, n) && !Carrier(cfg, w'.pods, n) ==> n in deletes)
      && (n in w.pods && n !in adds && n !in deletes ==> n in w'.pods && w'.pods[n] == w.pods[n])
      && (b.stage.Done? ==>
            (Carrier(cfg, w'.pods, n) <==> n in w.pods && n !in deletes && (n in adds || Carrier(cfg, w.pods, n))))
  {
    assert w'.pods == WithoutFinalizer(WithFinalizer(w.pods, cfg.flz, b.added), cfg.flz, b.removed);
    assert n in AddNames(true, b.cud) <==> n in Elems(AllAdds(cfg, b));
    assert n in DeleteNames(true, b.cud) + Unselected(cfg, local, b.selected) <==> n in Elems(AllDeletes(cfg, local, b));
    CarriersAfter(cfg, w.pods, b.added, b.removed, n);
    hide AddNames, DeleteNames, Unselected, Carrier, RecordPatch, HeldOnlyBy;
    UntouchedPod(w.pods, cfg.flz, b.added, b.removed, n);
  }

  lemma UntouchedPod(pods: PodStore, flz: string, added: set<string>, removed: set<string>, n: string)
    ensures n in pods && n !in added && n !in removed ==>
      var after := WithoutFinalizer(WithFinalizer(pods, flz, added), flz, removed);
      n in after && after[n] == pods[n]
  {
  }

  // ----- the lifecycle record -----

  ghost predicate PodNames(names: seq<string>) {
    forall i :: 0 <= i < |names| ==> names[i] != "" && ',' !in names[i]
  }

  lemma JoinOfNames(names: seq<string>)
    requires PodNames(names)
    ensures Recorded(Text.Join(names, ',')) == names
  {
    if names != [] {
      Text.SplitJoin(names, ',');
      assert |Text.Join(names, ',')| >= |names[0]| > 0;
    }
  }

  /**
   The record is patched exactly when it was not already a permutation of the add list, and a patched
   record is one; with nothing to add it is the empty text.
   */
  lemma RecordCodec(recorded: string, toAdd: seq<string>)
    requires PodNames(toAdd)
    ensures RecordPatch(recorded, toAdd).None? <==> multiset(Recorded(recorded)) == multiset(toAdd)
    ensures RecordPatch(recorded, toAdd).Some? ==>
      multiset(Recorded(RecordPatch(recorded, toAdd).value)) == multiset(toAdd)
    ensures RecordPatch(recorded, toAdd).Some? && toAdd == [] ==> RecordPatch(recorded, toAdd).value == ""
  {
    var names := Recorded(recorded);
    assert |multiset(names)| == |names| && |multiset(toAdd)| == |toAdd|;
    JoinOfNames(toAdd);
    Text.SortSorts(toAdd);
    Text.SortedEqualIffPermutation(names, toAdd);
    forall i | 0 <= i < |toAdd| ensures Text.Sort(toAdd)[i] != "" && ',' !in Text.Sort(toAdd)[i] {
      assert Text.Sort(toAdd)[i] in multiset(toAdd);
    }
    JoinOfNames(Text.Sort(toAdd));
  }

  /** A recorded name that is no longer selected has lost the finalizer, even if it is also in the add list. */
  lemma UnselectedLoseIt(cfg: Config, w: World, local: Employer, b: BackendRun, w': World, local': Employer, n: string)
    requires BackendStep(cfg, w, local, b, w', local') && b.stage.Done? && NeedRecord(cfg)
    requires n in Recorded(local.recorded) && n !in b.selected
    ensures !Carrier(cfg, w'.pods, n)
  {
    assert n in Unselected(cfg, local, b.selected);
    hide Synced, FinalizerStep, Recorded, Unselected, AddNames, DeleteNames, Carrier;
    PodFate(cfg, w, local, b, w', local', n);
  }

  /** After a completed sync with recording on, the stored record is a permutation of the add list. */
  lemma RecordAfter(cfg: Config, w: World, local: Employer, b: BackendRun, w': World, local': Employer)
    requires BackendStep(cfg, w, local, b, w', local') && b.stage.Done? && NeedRecord(cfg)
    requires w.employer.Some? && w.employer.value.recorded == local.recorded
    requires PodNames(AddNames(true, b.cud))
    ensures w'.employer.Some? && multiset(Recorded(w'.employer.value.recorded)) == multiset(AddNames(true, b.cud))
  {
    RecordCodec(local.recorded, AddNames(true, b.cud));
    hide Synced, Recorded, RecordPatch, AddNames, AllDeletes, WithFinalizer, WithoutFinalizer;
  }

  /**
   The carriers a completed sync leaves off the record are exactly those it called up neither to add nor
   to delete: with failures, a carrier in a fail list drops out of the record.
   */
  lemma OffRecordExactly(cfg: Config, w: World, local: Employer, b: BackendRun, w': World, local': Employer, n: string)
    requires BackendStep(cfg, w, local, b, w', local') && b.stage.Done? && NeedRecord(cfg)
    requires w.employer.Some? && w.employer.value.recorded == local.recorded
    requires PodNames(AddNames(true, b.cud))
    ensures w'.employer.Some?
    ensures Carrier(cfg, w'.pods, n) && n !in Recorded(w'.employer.value.recorded)
       <==> Carrier(cfg, w.pods, n) && n !in AddNames(true, b.cud) + DeleteNames(true, b.cud) + Unselected(cfg, local, b.selected)
  {
    RecordAfter(cfg, w, local, b, w', local');
    assert n in multiset(Recorded(w'.employer.value.recorded)) <==> n in multiset(AddNames(true, b.cud));
    hide Synced, FinalizerStep, Recorded, Unselected, AddNames, DeleteNames, Carrier;
    PodFate(cfg, w, local, b, w', local', n);
  }

  /** Everything expected has a pod's statuses, and every selected name belongs to an expected or a surplus entry. */
  ghost predicate AllAccounted(expected: map<string, Employee>, before: map<string, Employee>, selected: seq<string>) {
    && (forall id :: id in expected ==> expected[id].status.PodStatus?)
    && (forall n :: n in selected ==> NameFrom(expected, expected.Keys, n) || NameFrom(before, before.Keys - expected.Keys, n))
  }

  lemma AccountedNamesAreCalled(cfg: Config, expected: map<string, Employee>, before: map<string, Employee>,
                                after: map<string, Employee>, cud: Cud<Employee>, n: string)
    requires Synced(EmployeeId, cfg.employeeEqual, expected, before, after, cud) && cfg.follow && !FailedExist(cud)
    requires forall id :: id in expected ==> expected[id].status.PodStatus?
    requires NameFrom(expected, expected.Keys, n) || NameFrom(before, before.Keys - expected.Keys, n)
    ensures n in AddNames(true, cud) + DeleteNames(true, cud)
  {
    NameSources(cfg, expected, before, after, cud, n);
    SplitIds(EmployeeId, cud.succCreated, cud.failCreated, expected, expected.Keys - before.Keys);
    SplitIds(EmployeeId, cud.succUpdated, cud.failUpdated, expected, Shared(expected, before, cfg.employeeEqual, Unequal));
    SplitIds(EmployeeId, cud.succDeleted, cud.failDeleted, before, before.Keys - expected.Keys);
    NoIds(cud.failCreated);
    NoIds(cud.failUpdated);
    NoIds(cud.failDeleted);
    assert Comparable(expected, before, cfg.employeeEqual);
    hide Synced, AddNames, DeleteNames, Ids, Lists, NameFrom, ReadyFrom, Shared, Comparable;
    AccountedParts(cfg, expected, before, PartsOf(cfg, expected, before, cud), n);
  }

  lemma NoIds(xs: seq<Employee>)
    ensures xs == [] ==> forall a: set<string> :: a + Ids(EmployeeId, xs) == a
  {
  }

  lemma AccountedParts(cfg: Config, expected: map<string, Employee>, before: map<string, Employee>, p: Parts, n: string)
    requires Comparable(expected, before, cfg.employeeEqual)
    requires p.created == expected.Keys - before.Keys && p.deleted == before.Keys - expected.Keys
    requires p.updated == Shared(expected, before, cfg.employeeEqual, Unequal)
    requires p.same == Shared(expected, before, cfg.employeeEqual, Equal)
    requires forall id :: id in expected ==> expected[id].status.PodStatus?
    requires NameFrom(expected, expected.Keys, n) || NameFrom(before, before.Keys - expected.Keys, n)
    ensures NameFrom(expected, p.created, n) || NameFrom(before, p.deleted, n)
      || ReadyFrom(expected, p.updated, true, n) || ReadyFrom(expected, p.updated, false, n)
      || ReadyFrom(expected, p.same, true, n) || ReadyFrom(expected, p.same, false, n)
  {
  }

  /**
   "Carriers are on record" is kept by every completed sync in which no employee failed: if every pod carrying
   the finalizer was on the record before, every one is afterwards.
   */
  lemma CarriersStayOnRecord(cfg: Config, w: World, local: Employer, b: BackendRun, w': World, local': Employer, n: string)
    requires BackendStep(cfg, w, local, b, w', local') && b.stage.Done? && NeedRecord(cfg)
    requires w.employer.Some? && w.employer.value.recorded == local.recorded
    requires PodNames(AddNames(true, b.cud)) && !FailedExist(b.cud)
    requires AllAccounted(ById(EmployeeId, b.expected), w.backends, b.selected)
    requires forall m :: Carrier(cfg, w.pods, m) ==> m in Recorded(local.recorded)
    requires Carrier(cfg, w'.pods, n)
    ensures w'.employer.Some? && n in Recorded(w'.employer.value.recorded)
  {
    OffRecordExactly(cfg, w, local, b, w', local', n);
    assert Synced(EmployeeId, cfg.employeeEqual, ById(EmployeeId, b.expected), w.backends, w'.backends, b.cud);
    if Carrier(cfg, w.pods, n) {
      assert n in Recorded(local.recorded);
      if n in b.selected {
        AccountedNamesAreCalled(cfg, ById(EmployeeId, b.expected), w.backends, w'.backends, b.cud, n);
      } else {
        assert n in Unselected(cfg, local, b.selected);
      }
    }
  }

  /**
   With failures it is not kept: every surviving carrier in a fail list drops out of the record, while it
   keeps the finalizer.
   */
  lemma FailedCarrierDropsOut(cfg: Config, w: World, local: Employer, b: BackendRun, w': World, local': Employer, n: string)
    requires BackendStep(cfg, w, local, b, w', local') && b.stage.Done? && NeedRecord(cfg)
    requires w.employer.Some? && w.employer.value.recorded == local.recorded
    requires PodNames(AddNames(true, b.cud)) && OneToOne(ById(EmployeeId, b.expected), w.backends)
    requires InFailList(b.cud, n) && n !in Unselected(cfg, local, b.selected)
    requires Carrier(cfg, w.pods, n)
    ensures Carrier(cfg, w'.pods, n) && w'.employer.Some? && n !in Recorded(w'.employer.value.recorded)
  {
    assert Synced(EmployeeId, cfg.employeeEqual, ById(EmployeeId, b.expected), w.backends, w'.backends, b.cud);
    FailedNamesLeftAlone(cfg, ById(EmployeeId, b.expected), w.backends, w'.backends, b.cud, n);
    OffRecordExactly(cfg, w, local, b, w', local', n);
  }

  // ----- the record over runs -----

  /** Every pod carrying the lifecycle finalizer is named in the lifecycle record of an existing employer. */
  ghost predicate CarriersRecorded(cfg: Config, s: State) {
    forall n :: Carrier(cfg, s.w.pods, n) ==> s.w.employer.Some? && n in Recorded(s.w.employer.value.recorded)
  }

  /**
   Recording is on, and a sync either came to its end with no employee failed and every selected name accounted
   for, or gave no pod the finalizer.
   */
  ghost predicate Unfailing(cfg: Config, s: State, l: Label) {
    && NeedRecord(cfg)
    && (l.SyncBackends? ==>
          if l.b.stage.Done? then
            && !FailedExist(l.b.cud) && PodNames(AddNames(true, l.b.cud))
            && AllAccounted(ById(EmployeeId, l.b.expected), s.w.backends, l.b.selected)
          else l.b.added == {})
  }

  /** A carrier has an entry in the provider, so the employer is pinned. */
  lemma CarrierPins(cfg: Config, naming: string -> string, s: State, n: string)
    requires NoOrphan(s.w) && Registered(cfg, naming, s) && Carrier(cfg, s.w.pods, n)
    ensures HasClean(s.w) && s.w.employer.Some?
  {
    assert s.w.backends != map[];
  }

  /** Only a sync of employees writes the lifecycle record. */
  lemma RecordLeft(cfg: Config, s: State, l: Label, s': State)
    requires Step(cfg, s, l, s') && !l.SyncBackends? && s.w.employer.Some? && s'.w.employer.Some?
    ensures s'.w.employer.value.recorded == s.w.employer.value.recorded
  {
    hide ExpectPlan, ExpectPods, ExpectErr, ExpectClean, ExpectText, ExpectLocal, Synced, IsClean, WrittenAfter, Settle;
  }

  lemma RecordedOther(cfg: Config, s: State, l: Label, s': State, n: string)
    requires CarriersRecorded(cfg, s) && Step(cfg, s, l, s') && !l.SyncBackends?
    requires Carrier(cfg, s'.w.pods, n) && s'.w.employer.Some?
    ensures n in Recorded(s'.w.employer.value.recorded)
  {
    hide Step, Recorded, Carrier;
    NoNewCarrier(cfg, s, l, s', n);
    RecordLeft(cfg, s, l, s');
  }

  lemma RecordedBackends(cfg: Config, s: State, b: BackendRun, s': State, n: string)
    requires Sound(s) && CarriersRecorded(cfg, s) && SyncsBackends(cfg, s, b, s') && Unfailing(cfg, s, SyncBackends(b))
    requires Carrier(cfg, s'.w.pods, n) && HasClean(s'.w)
    ensures n in Recorded(s'.w.employer.value.recorded)
  {
    BackendsKeep(cfg, s, b, s');
    assert HasClean(s.w) && s.w.employer.value.recorded == s.pc.local.recorded;
    if b.stage.Done? {
      assert BackendStep(cfg, s.w, s.pc.local, b, s'.w, s'.pc.local);
      hide SyncsBackends, BackendStep, Sound, Recorded, PodNames, AllAccounted, FailedExist, Carrier;
      CarriersStayOnRecord(cfg, s.w, s.pc.local, b, s'.w, s'.pc.local, n);
    } else {
      SyncUnfolded(cfg, s, b, s');
      assert s'.w.employer == s.w.employer;
      hide SyncsBackends, BackendStep, Sound, Recorded, WithFinalizer, WithoutFinalizer;
      CarriersAfter(cfg, s.w.pods, b.added, b.removed, n);
    }
  }

  lemma CarriersRecordedStep(cfg: Config, naming: string -> string, s: State, l: Label, s': State)
    requires Sound(s) && NoOrphan(s'.w) && Registered(cfg, naming, s')
    requires CarriersRecorded(cfg, s) && Step(cfg, s, l, s') && Unfailing(cfg, s, l)
    ensures CarriersRecorded(cfg, s')
  {
    assert l.SyncBackends? ==> SyncsBackends(cfg, s, l.b, s');
    forall n | Carrier(cfg, s'.w.pods, n) ensures s'.w.employer.Some? && n in Recorded(s'.w.employer.value.recorded) {
      hide Sound, Registered, NoOrphan, CarriersRecorded, Step, SyncsBackends, Unfailing, Recorded, Carrier;
      CarrierPins(cfg, naming, s', n);
      if l.SyncBackends? {
        RecordedBackends(cfg, s, l.b, s', n);
      } else {
        RecordedOther(cfg, s, l, s', n);
      }
    }
  }

  ghost predicate AllUnfailing(cfg: Config, run: Run) {
    forall i :: 0 <= i < |run.labels| && i < |run.states| ==> Unfailing(cfg, run.states[i], run.labels[i])
  }

  /**
   Carriers are on record: in every run free of orphans, with recording on and no employee failed, each pod carrying the
   lifecycle finalizer is named, in every state, in the lifecycle record of an employer that exists.
   */
  lemma {:induction false} CarriersOnRecord(cfg: Config, naming: string -> string, run: Run, k: nat)
    requires IsRun(cfg, run) && AllWritten(cfg, naming, run) && AllUnfailing(cfg, run)
    requires forall i :: 0 <= i < |run.states| ==> NoOrphan(run.states[i].w)
    requires k < |run.states| && Start(cfg, run.states[0])
    ensures CarriersRecorded(cfg, run.states[k])
  {
    hide Step, Unfailing, Sound, NoOrphan, Registered, Start, AllWritten;
    if k > 0 {
      CarriersOnRecord(cfg, naming, run, k - 1);
      SoundAlong(cfg, run, k - 1);
      CarriersRegistered(cfg, naming, run, k);
      hide CarriersRecorded;
      CarriersRecordedStep(cfg, naming, run.states[k - 1], run.labels[k - 1], run.states[k]);
    } else {
      NoneAtStart(cfg, run.states[0]);
    }
  }

  lemma NoneAtStart(cfg: Config, s: State)
    requires Start(cfg, s)
    ensures CarriersRecorded(cfg, s)
  {
  }

  // ----- passes that follow one another -----

  /** A sync of what is already as expected: nothing is asked of the adapter, and readiness alone says who is called up. */
  lemma RepeatedSync(cfg: Config, expected: map<string, Employee>, before: map<string, Employee>,
                     after: map<string, Employee>, cud: Cud<Employee>, later: map<string, Employee>, next: Cud<Employee>)
    requires Synced(EmployeeId, cfg.employeeEqual, expected, before, after, cud) && Reflexive(cfg.employeeEqual, expected)
    requires !FailedExist(cud) && Synced(EmployeeId, cfg.employeeEqual, expected, after, later, next)
    ensures later == after && next == Cud([], [], [], [], [], [], next.same)
    ensures Lists(EmployeeId, next.same, expected, expected.Keys)
  {
    NextPassIdle(EmployeeId, cfg.employeeEqual, expected, before, after, cud, later, next);
    AllShared(cfg, expected, after, later, next);
  }

  lemma AllShared(cfg: Config, expected: map<string, Employee>, after: map<string, Employee>, later: map<string, Employee>,
                  next: Cud<Employee>)
    requires Synced(EmployeeId, cfg.employeeEqual, expected, after, later, next) && after.Keys == expected.Keys
    requires forall k :: k in expected && k in after ==> Compare(cfg.employeeEqual, expected[k], after[k]) == Equal
    ensures Lists(EmployeeId, next.same, expected, expected.Keys)
  {
    assert Shared(expected, after, cfg.employeeEqual, Equal) == expected.Keys;
    hide Lists, Applied, Compare;
  }

  /** Whom such a sync calls up. */
  lemma RepeatedCalls(cfg: Config, expected: map<string, Employee>, next: Cud<Employee>, n: string)
    requires next == Cud([], [], [], [], [], [], next.same) && Lists(EmployeeId, next.same, expected, expected.Keys)
    ensures n in AddNames(true, next) <==> ReadyFrom(expected, expected.Keys, true, n)
    ensures n in DeleteNames(true, next) <==> ReadyFrom(expected, expected.Keys, false, n)
  {
    ListedReady(next.same, expected, expected.Keys, true, n);
    ListedReady(next.same, expected, expected.Keys, false, n);
    hide Lists, ReadyFrom;
    OnlySameCalled(next);
  }

  lemma OnlySameCalled(cud: Cud<Employee>)
    requires cud == Cud([], [], [], [], [], [], cud.same)
    ensures AddNames(true, cud) == NamesWhere(cud.same, true)
    ensures DeleteNames(true, cud) == NamesWhere(cud.same, false)
  {
  }

  /**
   A pass after one without failures, with the same expectation, does not yet leave the pods alone: an employee that was
   just created not ready gained the finalizer with its creation, and loses it again.
   */
  lemma CreatedNotReadyFlickers(cfg: Config, w: World, local: Employer, b: BackendRun, w': World, local': Employer,
                                next: BackendRun, w'': World, local'': Employer, id: string)
    requires BackendStep(cfg, w, local, b, w', local') && b.stage.Done? && !FailedExist(b.cud) && cfg.follow
    requires BackendStep(cfg, w', local', next, w'', local'') && next.stage.Done? && next.expected == b.expected
    requires var e := ById(EmployeeId, b.expected);
      && Reflexive(cfg.employeeEqual, e) && OneToOne(e, w.backends)
      && id in e && id !in w.backends && IsReady(e[id], false)
      && e[id].name in w.pods && e[id].name !in Unselected(cfg, local, b.selected)
    ensures var n := ById(EmployeeId, b.expected)[id].name;
      Carrier(cfg, w'.pods, n) && !Carrier(cfg, w''.pods, n)
  {
    var e := ById(EmployeeId, b.expected);
    var n := e[id].name;
    assert Synced(EmployeeId, cfg.employeeEqual, e, w.backends, w'.backends, b.cud);
    assert Synced(EmployeeId, cfg.employeeEqual, e, w'.backends, w''.backends, next.cud);
    hide Synced, FinalizerStep, Unselected, Carrier, ById, Lists, AddNames, DeleteNames;
    CreatedIsCalled(cfg, e, w.backends, w'.backends, b.cud, id);
    RepeatedSync(cfg, e, w.backends, w'.backends, b.cud, w''.backends, next.cud);
    RepeatedCalls(cfg, e, next.cud, n);
    assert ReadyFrom(e, e.Keys, false, n);
    PodFate(cfg, w, local, b, w', local', n);
    PodFate(cfg, w', local', next, w'', local'', n);
  }

  lemma CreatedIsCalled(cfg: Config, expected: map<string, Employee>, before: map<string, Employee>,
                        after: map<string, Employee>, cud: Cud<Employee>, id: string)
    requires Synced(EmployeeId, cfg.employeeEqual, expected, before, after, cud) && cfg.follow && !FailedExist(cud)
    requires OneToOne(expected, before) && id in expected && id !in before
    ensures expected[id].name in AddNames(true, cud) && expected[id].name !in DeleteNames(true, cud)
  {
    var n := expected[id].name;
    NameSources(cfg, expected, before, after, cud, n);
    SplitIds(EmployeeId, cud.succCreated, cud.failCreated, expected, expected.Keys - before.Keys);
    SplitIds(EmployeeId, cud.succUpdated, cud.failUpdated, expected, Shared(expected, before, cfg.employeeEqual, Unequal));
    SplitIds(EmployeeId, cud.succDeleted, cud.failDeleted, before, before.Keys - expected.Keys);
    NoIds(cud.failCreated);
    hide Synced, Lists, AddNames, DeleteNames, Ids;
  }

  /**
   The pass after that is idle altogether: two completed syncs with the same expectation and selection, following one
   without failures and met by nobody, end in the same world, if every name to be recorded is selected.
   */
  lemma ThirdPassIdle(cfg: Config, w: World, local: Employer, first: BackendRun, w1: World, local1: Employer,
                      second: BackendRun, w2: World, local2: Employer, third: BackendRun, w3: World, local3: Employer)
    requires BackendStep(cfg, w, local, first, w1, local1) && first.stage.Done? && !FailedExist(first.cud) && cfg.follow
    requires BackendStep(cfg, w1, local1, second, w2, local2) && second.stage.Done?
    requires BackendStep(cfg, w2, local2, third, w3, local3) && third.stage.Done?
    requires second.expected == first.expected == third.expected && second.selected == third.selected
    requires Reflexive(cfg.employeeEqual, ById(EmployeeId, first.expected))
    requires w1.employer == Some(local1) && w2.employer == Some(local2)
    requires NeedRecord(cfg) ==>
      PodNames(AddNames(true, second.cud)) && forall n :: n in AddNames(true, second.cud) ==> n in second.selected
    ensures w3 == w2
  {
    var e := ById(EmployeeId, first.expected);
    assert Synced(EmployeeId, cfg.employeeEqual, e, w.backends, w1.backends, first.cud);
    assert Synced(EmployeeId, cfg.employeeEqual, e, w1.backends, w2.backends, second.cud);
    assert Synced(EmployeeId, cfg.employeeEqual, e, w2.backends, w3.backends, third.cud);
    hide Synced, FinalizerStep, ById, Lists, AddNames, DeleteNames, Reflexive, NeedRecord, PodNames;
    RepeatedSync(cfg, e, w.backends, w1.backends, first.cud, w2.backends, second.cud);
    assert !FailedExist(second.cud);
    RepeatedSync(cfg, e, w1.backends, w2.backends, second.cud, w3.backends, third.cud);
    SameCalls(e, second.cud, third.cud);
    RepeatedFinalizers(cfg, w1, local1, second, w2, local2, third, w3, local3);
  }

  lemma SameCalls(e: map<string, Employee>, second: Cud<Employee>, third: Cud<Employee>)
    requires second == Cud([], [], [], [], [], [], second.same) && Lists(EmployeeId, second.same, e, e.Keys)
    requires third == Cud([], [], [], [], [], [], third.same) && Lists(EmployeeId, third.same, e, e.Keys)
    ensures multiset(AddNames(true, second)) == multiset(AddNames(true, third))
    ensures Elems(AddNames(true, second)) == Elems(AddNames(true, third))
    ensures Elems(DeleteNames(true, second)) == Elems(DeleteNames(true, third))
  {
    ListsUnique(EmployeeId, second.same, third.same, e, e.Keys);
    NamesWherePermuted(second.same, third.same, true);
    NamesWherePermuted(second.same, third.same, false);
    OnlySameCalled(second);
    OnlySameCalled(third);
    hide Lists, AddNames, DeleteNames;
    Text.SameElems(AddNames(true, second), AddNames(true, third));
    Text.SameElems(DeleteNames(true, second), DeleteNames(true, third));
  }

  /** Writing the same names again, with the record rewritten in between, changes neither pods nor record. */
  lemma RepeatedFinalizers(cfg: Config, w1: World, local1: Employer, second: BackendRun, w2: World, local2: Employer,
                           third: BackendRun, w3: World, local3: Employer)
    requires BackendStep(cfg, w1, local1, second, w2, local2) && second.stage.Done? && cfg.follow
    requires BackendStep(cfg, w2, local2, third, w3, local3) && third.stage.Done? && w3.backends == w2.backends
    requires w1.employer == Some(local1) && w2.employer == Some(local2) && second.selected == third.selected
    requires multiset(AddNames(true, second.cud)) == multiset(AddNames(true, third.cud))
    requires Elems(AddNames(true, second.cud)) == Elems(AddNames(true, third.cud))
    requires Elems(DeleteNames(true, second.cud)) == Elems(DeleteNames(true, third.cud))
    requires NeedRecord(cfg) ==>
      PodNames(AddNames(true, second.cud)) && forall n :: n in AddNames(true, second.cud) ==> n in second.selected
    ensures w3 == w2
  {
    if NeedRecord(cfg) {
      RecordAfter(cfg, w1, local1, second, w2, local2);
      SamePodNames(AddNames(true, second.cud), AddNames(true, third.cud));
      RecordCodec(local2.recorded, AddNames(true, third.cud));
      AllStillSelected(local2.recorded, AddNames(true, second.cud), second.selected);
    }
    SamePods(cfg, w1, local1, second, w2, local2, third, w3, local3);
    hide Synced, AddNames, DeleteNames, RecordPatch, Recorded, WithFinalizer, WithoutFinalizer;
  }

  lemma SamePodNames(xs: seq<string>, ys: seq<string>)
    requires multiset(xs) == multiset(ys) && PodNames(xs)
    ensures PodNames(ys)
  {
    forall i | 0 <= i < |ys| ensures ys[i] != "" && ',' !in ys[i] {
      assert ys[i] in multiset(xs);
    }
  }

  /** A record that is a permutation of selected names holds no unselected one. */
  lemma AllStillSelected(recorded: string, names: seq<string>, selected: seq<string>)
    requires multiset(Recorded(recorded)) == multiset(names) && forall n :: n in names ==> n in selected
    ensures recorded != "" ==> Unlisted(Text.Split(recorded, ','), selected) == []
  {
    if recorded != "" {
      var parts := Text.Split(recorded, ',');
      assert parts == Recorded(recorded);
      forall n | n in parts ensures n in selected {
        assert n in multiset(names);
      }
      NoneUnlisted(parts, selected);
    }
  }

  lemma NoneUnlisted(xs: seq<string>, ys: seq<string>)
    requires forall x :: x in xs ==> x in ys
    ensures Unlisted(xs, ys) == []
  {
    assert Unlisted(xs, ys) != [] ==> Unlisted(xs, ys)[0] in Unlisted(xs, ys);
  }

  lemma SamePods(cfg: Config, w1: World, local1: Employer, second: BackendRun, w2: World, local2: Employer,
                 third: BackendRun, w3: World, local3: Employer)
    requires FinalizerStep(cfg, w1, local1, second, w2, local2) && second.stage.Done? && cfg.follow
    requires FinalizerStep(cfg, w2, local2, third, w3, local3) && third.stage.Done?
    requires Elems(AddNames(true, second.cud)) == Elems(AddNames(true, third.cud))
    requires Elems(DeleteNames(true, second.cud)) == Elems(DeleteNames(true, third.cud))
    requires Unselected(cfg, local2, third.selected) == []
    requires forall n :: n in AddNames(true, second.cud) ==> n !in Unselected(cfg, local1, second.selected)
    ensures w3.pods == w2.pods
  {
    var a, d := Elems(AddNames(true, second.cud)), Elems(DeleteNames(true, second.cud));
    var u := Elems(Unselected(cfg, local1, second.selected));
    assert second.added == a && second.removed == d + u;
    assert third.added == a && third.removed == d;
    assert a !! u;
    hide AddNames, DeleteNames, Unselected, RecordPatch;
    FewerRemoved(w1.pods, cfg.flz, a, d, u);
  }

  /** Adding and removing again, without removals that hit none of the added, changes nothing. */
  lemma FewerRemoved(pods: PodStore, flz: string, added: set<string>, removed: set<string>, others: set<string>)
    requires added !! others
    ensures var after := WithoutFinalizer(WithFinalizer(pods, flz, added), flz, removed + others);
      WithoutFinalizer(WithFinalizer(after, flz, added), flz, removed) == after
  {
    var after := WithoutFinalizer(WithFinalizer(pods, flz, added), flz, removed + others);
    forall n | n in after
      ensures n in WithoutFinalizer(WithFinalizer(after, flz, added), flz, removed)
           && WithoutFinalizer(WithFinalizer(after, flz, added), flz, removed)[n] == after[n]
    {
      CarryingWithout(after[n], flz);
      CarryingWithout(pods[n], flz);
    }
  }
}
