/**
 The in-memory demo adapter: its provider stores what it is told, and the adapter meets the
 contract the framework's theorems assume.
 */
module Demo {
  import opened Basics
  import opened Diff
  import opened Provider
  import opened Adapter
  import opened Readiness

  function Shown(details: map<string, VipStatus>): map<string, Vip> {
    map k | k in details :: Vip(k, details[k])
  }

  lemma StoredAs(details: map<string, VipStatus>, v: Vip)
    ensures Shown(details[v.id := v.status]) == Shown(details)[v.id := v]
    ensures Shown(details - {v.id}) == Shown(details) - {v.id}
  {
  }

  /** DemoControllerAdapter over DemoResourceProviderClient; one store of each kind. */
  class DemoAdapter {
    var vipDetails: map<string, VipStatus>
    var realServers: map<string, Employee>

    constructor ()
      ensures vipDetails == map[] && realServers == map[]
    {
      vipDetails, realServers := map[], map[];
    }

    /** The employer records as QueryVip shows them. */
    function Vips(): map<string, Vip>
      reads this
    {
      Shown(vipDetails)
    }

    ghost predicate Valid()
      reads this
    {
      Keyed(EmployeeId, realServers)
    }

    // ----- the provider client -----

    /** CreateVip and UpdateVip. */
    method StoreVips(req: seq<Vip>)
      modifies this`vipDetails
      ensures Vips() == Stored(VipId, old(Vips()), req)
    {
      StoredNothing(VipId, Vips());
      hide Stored, Dropped, Shown, ById;
      assert req[..0] == [];
      for i := 0 to |req|
        invariant Vips() == Stored(VipId, old(Vips()), req[..i])
      {
        assert req[..i + 1] == req[..i] + [req[i]];
        StoredOneMore(VipId, old(Vips()), req[..i], req[i]);
        StoredAs(vipDetails, req[i]);
        vipDetails := vipDetails[req[i].id := req[i].status];
      }
      assert req[..|req|] == req;
    }

    method DeleteVips(req: seq<Vip>)
      modifies this`vipDetails
      ensures Vips() == Dropped(VipId, old(Vips()), req)
    {
      StoredNothing(VipId, Vips());
      hide Stored, Dropped, Shown, ById;
      assert req[..0] == [];
      for i := 0 to |req|
        invariant Vips() == Dropped(VipId, old(Vips()), req[..i])
      {
        assert req[..i + 1] == req[..i] + [req[i]];
        StoredOneMore(VipId, old(Vips()), req[..i], req[i]);
        StoredAs(vipDetails, req[i]);
        vipDetails := vipDetails - {req[i].id};
      }
      assert req[..|req|] == req;
    }

    /** CreateRealServer and UpdateRealServer. */
    method StoreRealServers(req: seq<Employee>)
      requires Valid()
      modifies this`realServers
      ensures realServers == Stored(EmployeeId, old(realServers), req) && Valid()
    {
      StoredNothing(EmployeeId, realServers);
      hide Stored, Dropped, Shown, ById;
      assert req[..0] == [];
      for i := 0 to |req|
        invariant realServers == Stored(EmployeeId, old(realServers), req[..i]) && Valid()
      {
        assert req[..i + 1] == req[..i] + [req[i]];
        StoredOneMore(EmployeeId, old(realServers), req[..i], req[i]);
        realServers := realServers[req[i].id := req[i]];
      }
      assert req[..|req|] == req;
    }

    method DeleteRealServers(req: seq<Employee>)
      requires Valid()
      modifies this`realServers
      ensures realServers == Dropped(EmployeeId, old(realServers), req) && Valid()
    {
      StoredNothing(EmployeeId, realServers);
      hide Stored, Dropped, Shown, ById;
      assert req[..0] == [];
      for i := 0 to |req|
        invariant realServers == Dropped(EmployeeId, old(realServers), req[..i]) && Valid()
      {
        assert req[..i + 1] == req[..i] + [req[i]];
        StoredOneMore(EmployeeId, old(realServers), req[..i], req[i]);
        realServers := realServers - {req[i].id};
      }
      assert req[..|req|] == req;
    }

    // ----- the adapter; `fails` is the error the provider call returns after it has stored all of the request -----

    method CreateOrUpdateEmployer(request: seq<Vip>, fails: bool) returns (succ: seq<Vip>, fail: seq<Vip>, err: Err)
      modifies this`vipDetails
      ensures err.Error? <==> fails && request != []
      ensures err.Nil? ==> fail == [] && FaithfulStore(VipId, old(Vips()), request, succ, fail, Vips())
      ensures err.Error? ==> succ == [] && fail == request
      ensures Vips() == Stored(VipId, old(Vips()), request)
    {
      if |request| == 0 {
        assert Stored(VipId, Vips(), request) == Vips();
        return request, [], Nil;
      }
      StoreVips(request);
      if fails {
        return [], request, Error("provider");
      }
      return request, [], Nil;
    }

    method DeleteEmployer(request: seq<Vip>, fails: bool) returns (succ: seq<Vip>, fail: seq<Vip>, err: Err)
      modifies this`vipDetails
      ensures err.Error? <==> fails && request != []
      ensures err.Nil? ==> fail == [] && FaithfulDrop(VipId, old(Vips()), request, succ, fail, Vips())
      ensures err.Error? ==> succ == [] && fail == request
      ensures Vips() == Dropped(VipId, old(Vips()), request)
    {
      if |request| == 0 {
        assert Dropped(VipId, Vips(), request) == Vips();
        return request, [], Nil;
      }
      DeleteVips(request);
      if fails {
        return [], request, Error("provider");
      }
      return request, [], Nil;
    }

    /** CreateEmployees and UpdateEmployees. */
    method CreateOrUpdateEmployees(request: seq<Employee>, fails: bool)
      returns (succ: seq<Employee>, fail: seq<Employee>, err: Err)
      requires Valid()
      modifies this`realServers
      ensures Valid() && (err.Error? <==> fails && request != [])
      ensures err.Nil? ==> fail == [] && FaithfulStore(EmployeeId, old(realServers), request, succ, fail, realServers)
      ensures err.Error? ==> succ == [] && fail == request
      ensures realServers == Stored(EmployeeId, old(realServers), request)
    {
      if |request| == 0 {
        StoredNothing(EmployeeId, realServers);
        return request, [], Nil;
      }
      StoreRealServers(request);
      if fails {
        return [], request, Error("provider");
      }
      return request, [], Nil;
    }

    method DeleteEmployees(request: seq<Employee>, fails: bool)
      returns (succ: seq<Employee>, fail: seq<Employee>, err: Err)
      requires Valid()
      modifies this`realServers
      ensures Valid() && (err.Error? <==> fails && request != [])
      ensures err.Nil? ==> fail == [] && FaithfulDrop(EmployeeId, old(realServers), request, succ, fail, realServers)
      ensures err.Error? ==> succ == [] && fail == request
      ensures realServers == Dropped(EmployeeId, old(realServers), request)
    {
      if |request| == 0 {
        StoredNothing(EmployeeId, realServers);
        return request, [], Nil;
      }
      DeleteRealServers(request);
      if fails {
        return [], request, Error("provider");
      }
      return request, [], Nil;
    }

    // ----- what it expects -----

    /** Nothing of an employer being deleted; of a live one, one record under its name, and comparable with itself. */
    method GetExpectedEmployer(name: string, deleting: bool) returns (expected: seq<Vip>)
      ensures deleting ==> expected == []
      ensures !deleting ==>
        |expected| == 1 && expected[0].id == name && expected[0].status == Details("demo-remote-VIP", 100)
      ensures Reflexive(VipEqual, ById(VipId, expected))
    {
      expected := [];
      if !deleting {
        expected := [Vip(name, Details("demo-remote-VIP", 100))];
      }
      VipsReflexive(expected);
    }

    /** GetExpectedEmployee: the selected pods that are not being deleted, named after themselves. */
    method GetExpectedEmployee(deleting: bool, selected: seq<PodView>) returns (expected: seq<Employee>)
      ensures deleting ==> expected == []
      ensures !deleting ==> expected == DemoExpected(selected)
      // one entry for each selected pod that stays, under its name, with full weight exactly when the pod is ready
      ensures !deleting ==> Elems(expected) == DemoEntries(selected) && |expected| == Staying(selected)
    {
      if deleting {
        return [];
      }
      var slots := new Employee[|selected|];
      var expectIdx := 0;
      for i := 0 to |selected|
        invariant expectIdx <= i && slots[..expectIdx] == DemoExpected(selected[..i])
      {
        assert selected[..i + 1][..i] == selected[..i];
        if selected[i].deleting {
          continue;
        }
        var ready := IsPodLifecycleReady(selected[i]);
        slots[expectIdx] := Employee(selected[i].name, selected[i].name,
          PodStatus(selected[i].ip, selected[i].ipv6, ready, DemoTraffic(ready, if ready then 100 else 0)));
        expectIdx := expectIdx + 1;
        assert slots[..expectIdx] == slots[..expectIdx - 1] + [slots[expectIdx - 1]];
      }
      assert selected[..|selected|] == selected;
      expected := slots[..expectIdx];
      DemoExpects(selected);
    }

    /**
     syncEmployees' provider half run through this adapter: when no call errors, the sync is one the
     framework's theorems are about, and nothing is left to do.
     */
    method SyncThroughDemo(expected: seq<Employee>, createFails: bool, updateFails: bool, deleteFails: bool)
      returns (cud: Cud<Employee>, err: Err)
      requires Valid()
      modifies this`realServers
      ensures Valid()
      ensures err.Nil? ==>
        && Synced(EmployeeId, EmployeeEqual, ById(EmployeeId, expected), old(realServers), realServers, cud)
        && !FailedExist(cud)
      ensures (!createFails && !updateFails && !deleteFails
        && Comparable(ById(EmployeeId, expected), old(realServers), EmployeeEqual)) ==> err.Nil?
    {
      hide Comparable, Lists, ById, Stored, Dropped, Synced, SharesOut;
      var current := Current(EmployeeId, realServers);
      cud := Cud([], [], [], [], [], [], []);
      var plan, diffErr := Diff.Diff(EmployeeId, EmployeeEqual, expected, current);
      if diffErr {
        return cud, Error("diff failed");
      }
      var succ, fail;
      succ, fail, err := CreateOrUpdateEmployees(plan.create, createFails);
      cud := Cud(succ, fail, [], plan.update, [], plan.delete, plan.same);
      if err.Nil? {
        succ, fail, err := CreateOrUpdateEmployees(plan.update, updateFails);
        cud := cud.(succUpdated := succ, failUpdated := fail);
      }
      if err.Nil? {
        succ, fail, err := DeleteEmployees(plan.delete, deleteFails);
        cud := cud.(succDeleted := succ, failDeleted := fail);
      }
      if err.Nil? {
        DiffSynced(EmployeeId, EmployeeEqual, ById(EmployeeId, expected), old(realServers), plan, cud);
      }
    }

    /** syncEmployer's provider half, likewise. */
    method SyncVipsThroughDemo(expected: seq<Vip>, createFails: bool, updateFails: bool, deleteFails: bool)
      returns (cud: Cud<Vip>, err: Err)
      modifies this`vipDetails
      ensures err.Nil? ==>
        && Synced(VipId, VipEqual, ById(VipId, expected), old(Vips()), Vips(), cud)
        && !FailedExist(cud)
      ensures (!createFails && !updateFails && !deleteFails
        && Comparable(ById(VipId, expected), old(Vips()), VipEqual)) ==> err.Nil?
    {
      hide Comparable, Lists, ById, Stored, Dropped, Synced, SharesOut;
      ShownKeyed(vipDetails);
      var current := Current(VipId, Vips());
      cud := Cud([], [], [], [], [], [], []);
      var plan, diffErr := Diff.Diff(VipId, VipEqual, expected, current);
      if diffErr {
        return cud, Error("diff failed");
      }
      var succ, fail;
      succ, fail, err := CreateOrUpdateEmployer(plan.create, createFails);
      cud := Cud(succ, fail, [], plan.update, [], plan.delete, plan.same);
      if err.Nil? {
        succ, fail, err := CreateOrUpdateEmployer(plan.update, updateFails);
        cud := cud.(succUpdated := succ, failUpdated := fail);
      }
      if err.Nil? {
        succ, fail, err := DeleteEmployer(plan.delete, deleteFails);
        cud := cud.(succDeleted := succ, failDeleted := fail);
      }
      if err.Nil? {
        DiffSynced(VipId, VipEqual, ById(VipId, expected), old(Vips()), plan, cud);
      }
    }
  }

  lemma ShownKeyed(details: map<string, VipStatus>)
    ensures Keyed(VipId, Shown(details))
  {
  }

  function DemoExpected(selected: seq<PodView>): seq<Employee> {
    if selected == [] then []
    else
      var last := selected[|selected| - 1];
      DemoExpected(selected[..|selected| - 1]) +
      if last.deleting then []
      else [Employee(last.name, last.name,
                     CommonStatus(last, DemoTraffic(LifecycleReady(last), if LifecycleReady(last) then 100 else 0)))]
  }

  /** What is expected of the selected pods that are not being deleted. */
  ghost function DemoEntries(selected: seq<PodView>): set<Employee> {
    set p | p in selected && !p.deleting ::
      Employee(p.name, p.name, PodStatus(p.ip, p.ipv6, LifecycleReady(p),
                                         DemoTraffic(LifecycleReady(p), if LifecycleReady(p) then 100 else 0)))
  }

  /** How many of the selected pods are not being deleted. */
  ghost function Staying(selected: seq<PodView>): nat {
    |set i: nat | i < |selected| && !selected[i].deleting|
  }

  lemma StayingSnoc(selected: seq<PodView>, p: PodView)
    ensures Staying(selected + [p]) == Staying(selected) + if p.deleting then 0 else 1
  {
    var front := set i: nat | i < |selected| && !selected[i].deleting;
    var all := set i: nat | i < |selected + [p]| && !(selected + [p])[i].deleting;
    var more: set<nat> := if p.deleting then {} else {|selected|};
    assert all == front + more;
  }

  lemma EntriesSnoc(selected: seq<PodView>, p: PodView)
    ensures DemoEntries(selected + [p]) == DemoEntries(selected) + if p.deleting then {} else DemoEntries([p])
  {
    hide LifecycleReady;
    assert forall q :: q in selected + [p] <==> q in selected || q == p;
  }

  lemma {:induction false} DemoExpects(selected: seq<PodView>)
    ensures Elems(DemoExpected(selected)) == DemoEntries(selected) && |DemoExpected(selected)| == Staying(selected)
  {
    hide LifecycleReady;
    if selected != [] {
      var front, last := selected[..|selected| - 1], selected[|selected| - 1];
      DemoExpects(front);
      assert selected == front + [last];
      EntriesSnoc(front, last);
      StayingSnoc(front, last);
    }
  }

  lemma {:induction false} DemoNames(selected: seq<PodView>)
    ensures forall i :: 0 <= i < |DemoExpected(selected)| ==>
      DemoExpected(selected)[i].name == DemoExpected(selected)[i].id && DemoExpected(selected)[i].status.PodStatus?
  {
    if selected != [] {
      hide LifecycleReady;
      DemoNames(selected[..|selected| - 1]);
    }
  }

  lemma VipsReflexive(vips: seq<Vip>)
    requires forall i :: 0 <= i < |vips| ==> vips[i].status.Details?
    ensures Reflexive(VipEqual, ById(VipId, vips))
  {
    forall i | 0 <= i < |vips| ensures Compare(VipEqual, vips[i], vips[i]) == Equal {
    }
    ReflexiveOn(VipId, VipEqual, vips);
  }

  /**
   The assumptions of the run theorems hold of what this adapter expects of employees: ids are names, statuses are
   pods', and equality is reflexive on them.
   */
  lemma DemoMeetsAssumptions(selected: seq<PodView>)
    ensures forall i :: 0 <= i < |DemoExpected(selected)| ==>
      DemoExpected(selected)[i].name == DemoExpected(selected)[i].id && DemoExpected(selected)[i].status.PodStatus?
    ensures Reflexive(EmployeeEqual, ById(EmployeeId, DemoExpected(selected)))
  {
    var employees := DemoExpected(selected);
    DemoNames(selected);
    hide DemoExpected;
    forall i | 0 <= i < |employees| ensures Compare(EmployeeEqual, employees[i], employees[i]) == Equal {
    }
    ReflexiveOn(EmployeeId, EmployeeEqual, employees);
  }

  lemma {:induction false} ReflexiveOn<T>(id: T -> string, equal: (T, T) -> Equality, xs: seq<T>)
    ensures (forall i :: 0 <= i < |xs| ==> Compare(equal, xs[i], xs[i]) == Equal) ==> Reflexive(equal, ById(id, xs))
  {
    if xs != [] && forall i :: 0 <= i < |xs| ==> Compare(equal, xs[i], xs[i]) == Equal {
      ReflexiveOn(id, equal, xs[..|xs| - 1]);
    }
  }
}
