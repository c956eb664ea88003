/**
 The Alibaba Cloud SLB adapter: it never writes the backend. Another controller does, and this
 adapter reports every change as failed so that the framework polls until the backend agrees.
 */
module Slb {
  import opened Basics
  import opened Diff
  import opened Provider
  import opened Adapter
  import opened Readiness
  import opened Machine
  import opened Runs
  import opened Carriers
  import opened Lifecycle
  import opened Pass

  function ExpectedOf(pod: PodView): Employee {
    Employee(pod.ip, pod.name, CommonStatus(pod, SlbTraffic(LifecycleReady(pod))))
  }

  function CurrentOf(pod: PodView, servers: set<string>): Employee {
    Employee(pod.ip, pod.name, CommonStatus(pod, SlbTraffic(pod.ip in servers)))
  }

  function ExpectedList(pods: seq<PodView>): (r: seq<Employee>)
    ensures |r| == |pods|
  {
    seq(|pods|, i requires 0 <= i < |pods| => ExpectedOf(pods[i]))
  }

  function CurrentList(pods: seq<PodView>, servers: set<string>): (r: seq<Employee>)
    ensures |r| == |pods|
  {
    seq(|pods|, i requires 0 <= i < |pods| => CurrentOf(pods[i], servers))
  }

  /** GetExpectedEmployee, over the selected pods. */
  method GetExpectedEmployee(pods: seq<PodView>) returns (expected: seq<Employee>)
    ensures expected == ExpectedList(pods)
    // one entry for each pod, under its IP and name, to take traffic exactly when the pod is ready
    ensures |expected| == |pods|
    ensures forall k :: 0 <= k < |pods| ==>
      var ready := LifecycleReady(pods[k]);
      expected[k] == Employee(pods[k].ip, pods[k].name, PodStatus(pods[k].ip, pods[k].ipv6, ready, SlbTraffic(ready)))
  {
    var slots := new Employee[|pods|];
    for idx := 0 to |pods|
      invariant forall k :: 0 <= k < idx ==> slots[k] == ExpectedOf(pods[k])
    {
      var ready := IsPodLifecycleReady(pods[idx]);
      slots[idx] := Employee(pods[idx].ip, pods[idx].name,
                             PodStatus(pods[idx].ip, pods[idx].ipv6, ready, SlbTraffic(ready)));
    }
    expected := slots[..];
  }

  /** GetCurrentEmployee; without a load balancer id nothing is in the backend. */
  method GetCurrentEmployee(pods: seq<PodView>, lbID: string, answer: Option<seq<string>>)
    returns (current: seq<Employee>, err: Err)
    ensures err.Error? <==> lbID != "" && answer.None?
    ensures err.Nil? ==> current == CurrentList(pods, if lbID == "" then {} else Elems(answer.value))
    // the same entries, taking traffic exactly when the IP is among the load balancer's backend servers
    ensures err.Nil? ==> |current| == |pods| && forall k :: 0 <= k < |pods| ==>
      var taking := lbID != "" && pods[k].ip in answer.value;
      current[k] == Employee(pods[k].ip, pods[k].name,
                             PodStatus(pods[k].ip, pods[k].ipv6, LifecycleReady(pods[k]), SlbTraffic(taking)))
  {
    current, err := [], Nil;
    var bsExistUnderSlb: set<string> := {};
    if lbID != "" {
      if answer.None? {
        return [], Error("get backend servers of slb failed");
      }
      for i := 0 to |answer.value|
        invariant bsExistUnderSlb == Elems(answer.value[..i])
      {
        assert answer.value[..i + 1] == answer.value[..i] + [answer.value[i]];
        bsExistUnderSlb := bsExistUnderSlb + {answer.value[i]};
      }
      assert answer.value[..|answer.value|] == answer.value;
    }
    var slots := new Employee[|pods|];
    for idx := 0 to |pods|
      invariant forall k :: 0 <= k < idx ==> slots[k] == CurrentOf(pods[k], bsExistUnderSlb)
    {
      var ready := IsPodLifecycleReady(pods[idx]);
      slots[idx] := Employee(pods[idx].ip, pods[idx].name,
                             PodStatus(pods[idx].ip, pods[idx].ipv6, ready, SlbTraffic(pods[idx].ip in bsExistUnderSlb)));
    }
    current := slots[..];
  }

  /** The adapter's create, update and delete calls: nothing succeeds, everything is to be seen again. */
  function Decline(plan: Plan<Employee>): Cud<Employee> {
    Cud([], plan.create, [], plan.update, [], plan.delete, plan.same)
  }

  /** The pod that represents an IP on both sides of the diff: the last one listed with it. */
  function Representative(pods: seq<PodView>): map<string, PodView> {
    if pods == [] then map[]
    else Representative(pods[..|pods| - 1])[pods[|pods| - 1].ip := pods[|pods| - 1]]
  }

  /** Of pods with the same IP the last one listed counts. */
  lemma {:induction false} LastPodCounts(pods: seq<PodView>, i: nat)
    requires i < |pods| && forall j :: i < j < |pods| ==> pods[j].ip != pods[i].ip
    ensures pods[i].ip in Representative(pods) && Representative(pods)[pods[i].ip] == pods[i]
  {
    if i < |pods| - 1 {
      LastPodCounts(pods[..|pods| - 1], i);
    }
  }

  /** The represented pods whose readiness differs from, or agrees with, their presence in the backend. */
  function Unsettled(reps: map<string, PodView>, servers: set<string>): set<string> {
    set ip | ip in reps && LifecycleReady(reps[ip]) != (ip in servers)
  }

  function SettledIps(reps: map<string, PodView>, servers: set<string>): set<string> {
    set ip | ip in reps && LifecycleReady(reps[ip]) == (ip in servers)
  }

  /** On both sides of the diff an IP stands for the pod that represents it. */
  ghost predicate Aligned(reps: map<string, PodView>, pods: seq<PodView>, servers: set<string>,
                          expected: map<string, Employee>, current: map<string, Employee>) {
    && expected.Keys == current.Keys == reps.Keys
    && forall ip :: ip in reps ==>
         reps[ip] in pods && reps[ip].ip == ip
         && expected[ip] == ExpectedOf(reps[ip]) && current[ip] == CurrentOf(reps[ip], servers)
  }

  lemma OneMorePod(reps: map<string, PodView>, front: seq<PodView>, pod: PodView, servers: set<string>,
                   expected: map<string, Employee>, current: map<string, Employee>)
    requires Aligned(reps, front, servers, expected, current)
    ensures Aligned(reps[pod.ip := pod], front + [pod], servers, expected[pod.ip := ExpectedOf(pod)],
                    current[pod.ip := CurrentOf(pod, servers)])
  {
    hide LifecycleReady;
  }

  lemma ListsSnoc(front: seq<PodView>, pod: PodView, servers: set<string>)
    ensures ExpectedList(front + [pod]) == ExpectedList(front) + [ExpectedOf(pod)]
    ensures CurrentList(front + [pod], servers) == CurrentList(front, servers) + [CurrentOf(pod, servers)]
    ensures Representative(front + [pod]) == Representative(front)[pod.ip := pod]
  {
    hide LifecycleReady;
    assert (front + [pod])[..|front|] == front;
  }

  lemma ByIdSnoc(xs: seq<Employee>, x: Employee)
    ensures ById(EmployeeId, xs + [x]) == ById(EmployeeId, xs)[x.id := x]
  {
    assert (xs + [x])[..|xs|] == xs;
  }

  /** Last one wins on both sides alike. */
  lemma {:induction false} BothSides(pods: seq<PodView>, servers: set<string>)
    ensures Aligned(Representative(pods), pods, servers, ById(EmployeeId, ExpectedList(pods)),
                    ById(EmployeeId, CurrentList(pods, servers)))
  {
    if pods != [] {
      hide *;
      var front, pod := pods[..|pods| - 1], pods[|pods| - 1];
      assert pods == front + [pod];
      BothSides(front, servers);
      ListsSnoc(front, pod, servers);
      ByIdSnoc(ExpectedList(front), ExpectedOf(pod));
      ByIdSnoc(CurrentList(front, servers), CurrentOf(pod, servers));
      IdsAreIps(pod, servers);
      OneMorePod(Representative(front), front, pod, servers, ById(EmployeeId, ExpectedList(front)),
                 ById(EmployeeId, CurrentList(front, servers)));
    }
  }

  lemma IdsAreIps(pod: PodView, servers: set<string>)
    ensures ExpectedOf(pod).id == pod.ip && CurrentOf(pod, servers).id == pod.ip
  {
  }

  /** A pod's two entries compare equal exactly when its readiness agrees with its presence. */
  lemma OnePodCompared(pod: PodView, servers: set<string>)
    ensures Compare(EmployeeEqual, ExpectedOf(pod), CurrentOf(pod, servers)) ==
      if LifecycleReady(pod) == (pod.ip in servers) then Equal else Unequal
  {
    hide LifecycleReady;
  }

  lemma AlignedDiff(reps: map<string, PodView>, pods: seq<PodView>, servers: set<string>,
                    e: map<string, Employee>, c: map<string, Employee>)
    requires Aligned(reps, pods, servers, e, c)
    ensures Comparable(e, c, EmployeeEqual)
    ensures Shared(e, c, EmployeeEqual, Unequal) == Unsettled(reps, servers)
    ensures Shared(e, c, EmployeeEqual, Equal) == SettledIps(reps, servers)
  {
    hide LifecycleReady, ExpectedOf, CurrentOf, Compare;
    forall ip | ip in reps
      ensures Compare(EmployeeEqual, e[ip], c[ip]) == if LifecycleReady(reps[ip]) == (ip in servers) then Equal else Unequal
    {
      OnePodCompared(reps[ip], servers);
    }
  }

  /** The diff of one snapshot never creates or deletes, and updates where readiness differs from backend presence. */
  lemma SlbDiff(pods: seq<PodView>, servers: set<string>)
    ensures var reps, e, c := Representative(pods), ById(EmployeeId, ExpectedList(pods)),
                              ById(EmployeeId, CurrentList(pods, servers));
      && Comparable(e, c, EmployeeEqual)
      && e.Keys - c.Keys == {} && c.Keys - e.Keys == {}
      && Shared(e, c, EmployeeEqual, Unequal) == Unsettled(reps, servers)
      && Shared(e, c, EmployeeEqual, Equal) == SettledIps(reps, servers)
  {
    BothSides(pods, servers);
    hide ExpectedList, CurrentList, Representative, ById, ExpectedOf, CurrentOf, Shared, Comparable, Unsettled, SettledIps;
    AlignedDiff(Representative(pods), pods, servers, ById(EmployeeId, ExpectedList(pods)),
                ById(EmployeeId, CurrentList(pods, servers)));
  }

  ghost predicate SlbSynced(pods: seq<PodView>, servers: set<string>, cud: Cud<Employee>) {
    var c := ById(EmployeeId, CurrentList(pods, servers));
    && cud.succCreated == [] && cud.succUpdated == [] && cud.succDeleted == []
    && Synced(EmployeeId, EmployeeEqual, ById(EmployeeId, ExpectedList(pods)), c, c, cud)
  }

  /** One sync of the adapter over one snapshot. */
  method SyncSlb(pods: seq<PodView>, lbID: string, answer: Option<seq<string>>)
    returns (cud: Cud<Employee>, err: Err)
    ensures err.Error? <==> lbID != "" && answer.None?
    ensures err.Nil? ==> SlbSynced(pods, if lbID == "" then {} else Elems(answer.value), cud)
  {
    var expected := GetExpectedEmployee(pods);
    var current;
    current, err := GetCurrentEmployee(pods, lbID, answer);
    cud := Cud([], [], [], [], [], [], []);
    if err.Error? {
      return;
    }
    ghost var servers := if lbID == "" then {} else Elems(answer.value);
    SlbDiff(pods, servers);
    var plan, diffErr := Diff.Diff(EmployeeId, EmployeeEqual, expected, current);
    cud := Decline(plan);
    Declined(ById(EmployeeId, expected), ById(EmployeeId, current), plan);
  }

  lemma Declined(expected: map<string, Employee>, current: map<string, Employee>, plan: Plan<Employee>)
    requires Comparable(expected, current, EmployeeEqual) && IsDiff(EmployeeId, EmployeeEqual, expected, current, plan)
    ensures Synced(EmployeeId, EmployeeEqual, expected, current, current, Decline(plan))
  {
    SharesNothing(plan.create);
    SharesNothing(plan.update);
    SharesNothing(plan.delete);
    DiffSynced(EmployeeId, EmployeeEqual, expected, current, plan, Decline(plan));
    StoredNothing(EmployeeId, current);
  }

  /**
   The protocol end to end: nothing is created or deleted; the updates are exactly the represented pods whose
   readiness differs from backend presence; and a failure is reported exactly while there is one.
   */
  lemma SlbProtocol(pods: seq<PodView>, servers: set<string>, cud: Cud<Employee>)
    requires SlbSynced(pods, servers, cud)
    ensures var reps := Representative(pods);
      && cud.failCreated == [] && cud.failDeleted == []
      && Ids(EmployeeId, cud.failUpdated) == Unsettled(reps, servers)
      && (FailedExist(cud) <==> Unsettled(reps, servers) != {})
      && (IsClean(cud) <==> pods == [])
  {
    var e, c := ById(EmployeeId, ExpectedList(pods)), ById(EmployeeId, CurrentList(pods, servers));
    SlbUnfolded(pods, servers, cud);
    hide *;
    SlbDiff(pods, servers);
    BothSides(pods, servers);
    DeclinedLists(e, c, cud);
    ListsCard(EmployeeId, cud.failCreated, e, e.Keys - c.Keys);
    ListsCard(EmployeeId, cud.failDeleted, c, c.Keys - e.Keys);
    ListsCard(EmployeeId, cud.failUpdated, e, Shared(e, c, EmployeeEqual, Unequal));
    CleanIffEmpty(EmployeeId, EmployeeEqual, e, c, c, cud);
    FailedMeans(cud);
  }

  lemma FailedMeans(cud: Cud<Employee>)
    ensures FailedExist(cud) <==> |cud.failCreated| + |cud.failUpdated| + |cud.failDeleted| > 0
  {
  }

  lemma SlbUnfolded(pods: seq<PodView>, servers: set<string>, cud: Cud<Employee>)
    requires SlbSynced(pods, servers, cud)
    ensures cud.succCreated == [] && cud.succUpdated == [] && cud.succDeleted == []
    ensures var c := ById(EmployeeId, CurrentList(pods, servers));
      Synced(EmployeeId, EmployeeEqual, ById(EmployeeId, ExpectedList(pods)), c, c, cud)
    ensures pods == [] <==> Representative(pods).Keys == {}
  {
  }

  /**
   Who gains and who loses: the results call a name up to gain the finalizer only for a pod that is ready and
   present in the backend, and to lose it only for one that is not ready and absent, also when pods share an IP.
   */
  lemma SlbGate(pods: seq<PodView>, servers: set<string>, cud: Cud<Employee>, n: string)
    requires SlbSynced(pods, servers, cud)
    ensures n in AddNames(true, cud) <==>
      exists ip :: ip in Representative(pods) && Representative(pods)[ip].name == n
                && LifecycleReady(Representative(pods)[ip]) && ip in servers
    ensures n in DeleteNames(true, cud) <==>
      exists ip :: ip in Representative(pods) && Representative(pods)[ip].name == n
                && !LifecycleReady(Representative(pods)[ip]) && ip !in servers
  {
    var e, c := ById(EmployeeId, ExpectedList(pods)), ById(EmployeeId, CurrentList(pods, servers));
    var same := SettledIps(Representative(pods), servers);
    SlbDiff(pods, servers);
    BothSides(pods, servers);
    ListedReady(cud.same, e, same, true, n);
    ListedReady(cud.same, e, same, false, n);
    OnlySettledCalled(cud);
    hide *;
    SettledNames(e, Representative(pods), servers, same, true, n);
    SettledNames(e, Representative(pods), servers, same, false, n);
  }

  lemma OnlySettledCalled(cud: Cud<Employee>)
    requires cud.succCreated == [] && cud.succUpdated == [] && cud.succDeleted == []
    ensures AddNames(true, cud) == NamesWhere(cud.same, true)
    ensures DeleteNames(true, cud) == NamesWhere(cud.same, false)
  {
  }

  /** The settled entries' names of one readiness, in terms of the pods they stand for. */
  lemma SettledNames(e: map<string, Employee>, reps: map<string, PodView>, servers: set<string>, same: set<string>,
                     ready: bool, n: string)
    requires e.Keys == reps.Keys && forall ip :: ip in reps ==> e[ip] == ExpectedOf(reps[ip])
    requires same == SettledIps(reps, servers)
    ensures ReadyFrom(e, same, ready, n) <==>
      exists ip :: ip in reps && reps[ip].name == n && LifecycleReady(reps[ip]) == ready && (ip in servers) == ready
  {
  }

  lemma DeclinedLists(e: map<string, Employee>, c: map<string, Employee>, cud: Cud<Employee>)
    requires Synced(EmployeeId, EmployeeEqual, e, c, c, cud)
    requires cud.succCreated == [] && cud.succUpdated == [] && cud.succDeleted == []
    ensures Lists(EmployeeId, cud.failCreated, e, e.Keys - c.Keys)
    ensures Lists(EmployeeId, cud.failUpdated, e, Shared(e, c, EmployeeEqual, Unequal))
    ensures Ids(EmployeeId, cud.failUpdated) == Shared(e, c, EmployeeEqual, Unequal)
    ensures Lists(EmployeeId, cud.failDeleted, c, c.Keys - e.Keys)
  {
    assert [] + cud.failCreated == cud.failCreated && [] + cud.failUpdated == cud.failUpdated
      && [] + cud.failDeleted == cud.failDeleted;
  }

  /**
   The traffic gate of the SLB adapter, on pods: however far a sync over one snapshot came, a pod that is not off the
   selection gains the finalizer only if it represents its IP, is ready and present in the backend, and loses it, or is
   released by losing it, only if it represents its IP, is not ready and absent.
   */
  lemma SlbPodGate(cfg: Config, pods: seq<PodView>, servers: set<string>, w: World, local: Employer, b: BackendRun,
                   w': World, local': Employer, n: string)
    requires FinalizerStep(cfg, w, local, b, w', local') && cfg.follow
    requires SlbSynced(pods, servers, b.cud)
    requires n in b.selected || !NeedRecord(cfg) || n !in Recorded(local.recorded)
    ensures !Carrier(cfg, w.pods, n) && Carrier(cfg, w'.pods, n) ==>
      exists ip :: ip in Representative(pods) && Representative(pods)[ip].name == n
                && LifecycleReady(Representative(pods)[ip]) && ip in servers
    ensures Carrier(cfg, w.pods, n) && !Carrier(cfg, w'.pods, n) ==>
      exists ip :: ip in Representative(pods) && Representative(pods)[ip].name == n
                && !LifecycleReady(Representative(pods)[ip]) && ip !in servers
  {
    hide SlbSynced, FinalizerStep, Carrier, AddNames, DeleteNames, Unselected, Representative, Recorded;
    PodFate(cfg, w, local, b, w', local', n);
    StillSelected(cfg, local, b.selected, n);
    SlbGate(pods, servers, b.cud, n);
  }

  // ----- whole passes -----

  /** EmployeeSyncRequeueInterval, in milliseconds. */
  const INTERVAL: int := 100

  /** The adapter's answers to a pass over one snapshot of pods: no employer records, and every change declined. */
  ghost predicate SlbAnswers(env: PassEnv, pods: seq<PodView>) {
    && (forall e: Employer :: ExpectedVips(env, e) == Some([]))
    && (forall e: Employer :: ExpectedEmployees(env, e) == Some(ExpectedList(pods)))
    && Declining(env.vipReplies) && Declining(env.backendReplies)
  }

  lemma SlbDeclines(env: PassEnv, pods: seq<PodView>)
    requires SlbAnswers(env, pods)
    ensures Declining(env.vipReplies) && Declining(env.backendReplies)
  {
  }

  lemma AppliedNothing<T>(id: T -> string, store: map<string, T>, cud: Cud<T>)
    requires cud.succCreated == [] && cud.succUpdated == [] && cud.succDeleted == []
    ensures Applied(id, store, cud) == store
  {
    StoredNothing(id, store);
  }

  lemma DeclinedStep(cfg: Config, env: PassEnv, s: State, l: Label, s': State)
    requires Step(cfg, s, l, s') && Heeds(cfg, env, s, l) && Declining(env.vipReplies) && Declining(env.backendReplies)
    ensures s'.w.vips == s.w.vips && s'.w.backends == s.w.backends
  {
    StoresLeft(cfg, s, l, s');
    if l.SyncVips? {
      WhatItObeys(VipId, env.vipReplies, l.cud);
      AppliedNothing(VipId, s.w.vips, l.cud);
    }
    if l.SyncBackends? {
      SyncUnfolded(cfg, s, l.b, s');
      WhatItObeys(EmployeeId, env.backendReplies, l.b.cud);
      AppliedNothing(EmployeeId, s.w.backends, l.b.cud);
    }
  }

  /** Nothing in the provider changes in a run whose adapter declines everything. */
  lemma {:induction false} StoresStay(cfg: Config, env: PassEnv, run: Run, k: nat)
    requires IsRun(cfg, run) && AllHeeded(cfg, env, run) && Declining(env.vipReplies) && Declining(env.backendReplies)
    requires k < |run.states|
    ensures run.states[k].w.vips == run.states[0].w.vips && run.states[k].w.backends == run.states[0].w.backends
  {
    hide Step, Heeds, Declining;
    if k > 0 {
      StoresStay(cfg, env, run, k - 1);
      DeclinedStep(cfg, env, run.states[k - 1], run.labels[k - 1], run.states[k]);
    }
  }

  lemma {:induction false} ExpectedReflexive(pods: seq<PodView>)
    ensures Reflexive(EmployeeEqual, ById(EmployeeId, ExpectedList(pods)))
  {
    BothSides(pods, {});
    hide ExpectedList, CurrentList, ById, LifecycleReady;
  }

  lemma SnapshotGap(pods: seq<PodView>, servers: set<string>)
    ensures var e, c := ById(EmployeeId, ExpectedList(pods)), ById(EmployeeId, CurrentList(pods, servers));
      Gap(e, c, EmployeeEqual) > 0 <==> Unsettled(Representative(pods), servers) != {}
  {
    SlbDiff(pods, servers);
    hide ExpectedList, CurrentList, ById, Shared, Unsettled, Representative;
  }

  lemma MeasuredAs(env: PassEnv, run: Run, verdict: Verdict, pods: seq<PodView>)
    requires verdict.Decided? && SlbAnswers(env, pods)
    requires VipsMeasured(env, run, verdict.vips) && EmployeesMeasured(env, run, verdict.employees)
    ensures verdict == Decided(map[], ById(EmployeeId, ExpectedList(pods)))
  {
  }

  /**
   The protocol on whole passes: a pass of Reconcile over one snapshot that came to its decision has left the provider
   alone, and is to be run again in 100ms exactly while a represented pod's readiness differs from its presence.
   */
  lemma SlbReconcile(cfg: Config, env: PassEnv, written: set<string>, w: World, w': World, outcome: Outcome, run: Run,
                     verdict: Verdict, pods: seq<PodView>, servers: set<string>)
    requires Reports(cfg, env, written, w, w', outcome, run, verdict) && verdict.Decided?
    requires cfg.requeueAfter == Some(INTERVAL) && cfg.employeeEqual == EmployeeEqual && SlbAnswers(env, pods)
    requires w.vips == map[] && w.backends == ById(EmployeeId, CurrentList(pods, servers))
    ensures w'.vips == w.vips && w'.backends == w.backends
    ensures outcome == if Unsettled(Representative(pods), servers) != {} then Result(100) else FINISHED
  {
    hide *;
    ReportsMeans(cfg, env, written, w, w', outcome, run, verdict);
    SlbDeclines(env, pods);
    StoresStay(cfg, env, run, |run.states| - 1);
    MeasuredAs(env, run, verdict, pods);
    ExpectedReflexive(pods);
    SnapshotGap(pods, servers);
    SettledSnapshot(cfg, w', ById(EmployeeId, ExpectedList(pods)), outcome);
  }

  lemma SettledSnapshot(cfg: Config, w: World, expected: map<string, Employee>, outcome: Outcome)
    requires Settled(cfg, w, Decided(map[], expected), outcome) && cfg.requeueAfter == Some(INTERVAL)
    requires Reflexive(cfg.employeeEqual, expected) && w.vips == map[]
    ensures outcome == if Gap(expected, w.backends, cfg.employeeEqual) > 0 then Result(100) else FINISHED
  {
    assert Shared(map[], w.vips, cfg.vipEqual, Unequal) == {};
    assert Gap(map[], w.vips, cfg.vipEqual) == 0;
    assert Reflexive(cfg.vipEqual, map[]);
  }
}
