/** What adapters report about employers and employees, and which pods a sync's results call up. */
module Adapter {
  import opened Basics
  import opened Diff
  import opened Provider

  datatype Extra = NoExtra | SlbTraffic(on: bool) | DemoTraffic(on: bool, weight: int)

  /** GetEmployeeStatuses: PodEmployeeStatuses, or some other adapter-defined value. */
  datatype Status = PodStatus(ip: string, ipv6: string, lifecycleReady: bool, extra: Extra) | OtherStatus(text: string)

  /** IEmployee */
  datatype Employee = Employee(id: string, name: string, status: Status)

  datatype VipStatus = Details(vip: string, qps: int) | OtherDetails(text: string)

  /** IEmployer: the employer's own record in the backend. */
  datatype Vip = Vip(id: string, status: VipStatus)

  function EmployeeId(e: Employee): string { e.id }

  function VipId(v: Vip): string { v.id }

  /** AlibabaSlbPodStatus.EmployeeEqual and DemoPodStatus.EmployeeEqual; the receiver's statuses are always a pod's. */
  function EmployeeEqual(a: Employee, b: Employee): Equality {
    if a.name != b.name then Unequal
    else if b.status.OtherStatus? then Failed
    else if a.status.OtherStatus? then Unequal
    else if a.status.ip != b.status.ip || a.status.lifecycleReady != b.status.lifecycleReady
         || a.status.ipv6 != b.status.ipv6 then Unequal
    else if a.status.extra == b.status.extra then Equal
    else Unequal
  }

  /** DemoServiceStatus.EmployerEqual */
  function VipEqual(a: Vip, b: Vip): Equality {
    if a.id != b.id then Unequal
    else if b.status.OtherDetails? then Failed
    else if a.status == b.status then Equal
    else Unequal
  }

  /** Entries with the same id compare equal exactly if they are the same; the other's unknown statuses are an error. */
  lemma EqualMeansSame(a: Employee, b: Employee)
    requires a.id == b.id && a.status.PodStatus?
    ensures Compare(EmployeeEqual, a, b) == Equal <==> a == b
    ensures Compare(EmployeeEqual, a, b) == Failed <==> a.name == b.name && b.status.OtherStatus?
  {
  }

  lemma VipEqualMeansSame(a: Vip, b: Vip)
    requires a.id == b.id && a.status.Details?
    ensures Compare(VipEqual, a, b) == Equal <==> a == b
    ensures Compare(VipEqual, a, b) == Failed <==> b.status.OtherDetails?
  {
  }

  /** A store of employees that is in no way different from what is expected holds exactly that, field by field. */
  lemma NoGapMeansSame(expected: map<string, Employee>, store: map<string, Employee>)
    requires Keyed(EmployeeId, expected) && Keyed(EmployeeId, store) && Comparable(expected, store, EmployeeEqual)
    requires forall k :: k in expected ==> expected[k].status.PodStatus?
    ensures Gap(expected, store, EmployeeEqual) == 0 <==> store == expected
  {
    GapZero(expected, store, EmployeeEqual);
    forall k | k in expected && k in store
      ensures Compare(EmployeeEqual, expected[k], store[k]) == Equal <==> expected[k] == store[k]
    {
      assert EmployeeId(expected[k]) == k == EmployeeId(store[k]);
      EqualMeansSame(expected[k], store[k]);
    }
    hide Gap, Comparable, EmployeeEqual, Compare, Keyed;
  }

  /** The same for employer records. */
  lemma NoGapMeansSameVips(expected: map<string, Vip>, store: map<string, Vip>)
    requires Keyed(VipId, expected) && Keyed(VipId, store) && Comparable(expected, store, VipEqual)
    requires forall k :: k in expected ==> expected[k].status.Details?
    ensures Gap(expected, store, VipEqual) == 0 <==> store == expected
  {
    GapZero(expected, store, VipEqual);
    forall k | k in expected && k in store
      ensures Compare(VipEqual, expected[k], store[k]) == Equal <==> expected[k] == store[k]
    {
      assert VipId(expected[k]) == k == VipId(store[k]);
      VipEqualMeansSame(expected[k], store[k]);
    }
    hide Gap, Comparable, VipEqual, Compare, Keyed;
  }

  // ----- getToAddDeleteLifecycleFlzEmployees -----

  function Names(xs: seq<Employee>): seq<string> {
    if xs == [] then [] else Names(xs[..|xs| - 1]) + [xs[|xs| - 1].name]
  }

  /** Names of the employees with pod statuses whose LifecycleReady is `ready`. */
  function NamesWhere(xs: seq<Employee>, ready: bool): seq<string> {
    if xs == [] then []
    else
      var last := xs[|xs| - 1];
      NamesWhere(xs[..|xs| - 1], ready)
      + if last.status.PodStatus? && last.status.lifecycleReady == ready then [last.name] else []
  }

  function AddNames(follow: bool, cud: Cud<Employee>): seq<string> {
    if !follow then []
    else Names(cud.succCreated) + NamesWhere(cud.succUpdated, true) + NamesWhere(cud.same, true)
  }

  function DeleteNames(follow: bool, cud: Cud<Employee>): seq<string> {
    if !follow then []
    else NamesWhere(cud.succUpdated, false) + Names(cud.succDeleted) + NamesWhere(cud.same, false)
  }

  ghost predicate SomeNamed(xs: seq<Employee>, n: string) {
    exists i :: 0 <= i < |xs| && xs[i].name == n
  }

  lemma NamedSnoc(xs: seq<Employee>, x: Employee, n: string)
    ensures SomeNamed(xs + [x], n) <==> SomeNamed(xs, n) || x.name == n
  {
    assert (xs + [x])[|xs|] == x;
    assert forall i :: 0 <= i < |xs| ==> (xs + [x])[i] == xs[i];
  }

  lemma {:induction false} NamesHave(xs: seq<Employee>, n: string)
    ensures n in Names(xs) <==> exists i :: 0 <= i < |xs| && xs[i].name == n
  {
    if xs != [] {
      var front, last := xs[..|xs| - 1], xs[|xs| - 1];
      NamesHave(front, n);
      assert SomeNamed(front, n) <==> n in Names(front);
      NamedSnoc(front, last, n);
      assert xs == front + [last];
      assert SomeNamed(xs, n) <==> n in Names(xs);
    }
  }

  lemma {:induction false} NamesWhereHave(xs: seq<Employee>, ready: bool, n: string)
    ensures n in NamesWhere(xs, ready) <==>
      exists i :: 0 <= i < |xs| && xs[i].name == n && xs[i].status.PodStatus? && xs[i].status.lifecycleReady == ready
  {
    if xs != [] {
      var front, last := xs[..|xs| - 1], xs[|xs| - 1];
      NamesWhereHave(front, ready, n);
      if i :| 0 <= i < |front| && front[i].name == n && front[i].status.PodStatus?
              && front[i].status.lifecycleReady == ready {
        assert xs[i].name == n;
      }
    }
  }

  lemma NamesWhereSnoc(xs: seq<Employee>, x: Employee, ready: bool)
    ensures NamesWhere(xs + [x], ready) == NamesWhere(xs, ready) + NamesWhere([x], ready)
  {
    assert (xs + [x])[..|xs|] == xs;
    assert [x][..0] == [] && [] + NamesWhere([x], ready) == NamesWhere([x], ready);
  }

  lemma {:induction false} NamesWhereConcat(xs: seq<Employee>, ys: seq<Employee>, ready: bool)
    ensures NamesWhere(xs + ys, ready) == NamesWhere(xs, ready) + NamesWhere(ys, ready)
  {
    if ys == [] {
      assert xs + ys == xs && NamesWhere(ys, ready) == [];
    } else {
      hide *;
      var front, y := ys[..|ys| - 1], ys[|ys| - 1];
      NamesWhereConcat(xs, front, ready);
      NamesWhereSnoc(xs + front, y, ready);
      NamesWhereSnoc(front, y, ready);
      assert xs + ys == xs + front + [y] && front + [y] == ys;
    }
  }

  lemma OneOut(before: seq<Employee>, after: seq<Employee>, x: Employee)
    ensures multiset(before + [x] + after) == multiset(before + after) + multiset{x}
  {
  }

  lemma CancelOne(a: multiset<Employee>, b: multiset<Employee>, x: Employee)
    requires a + multiset{x} == b + multiset{x}
    ensures a == b
  {
    assert a == a + multiset{x} - multiset{x} && b == b + multiset{x} - multiset{x};
  }

  /** A list with one element moved to its end. */
  lemma MovedToEnd(before: seq<Employee>, after: seq<Employee>, x: Employee, ready: bool)
    ensures multiset(NamesWhere(before + [x] + after, ready)) == multiset(NamesWhere(before + after + [x], ready))
  {
    hide *;
    NamesWhereConcat(before + [x], after, ready);
    NamesWhereSnoc(before, x, ready);
    NamesWhereConcat(before, after, ready);
    NamesWhereSnoc(before + after, x, ready);
  }

  lemma Occurs(xs: seq<Employee>, x: Employee) returns (j: nat)
    requires x in multiset(xs)
    ensures j < |xs| && xs[j] == x && xs == xs[..j] + [x] + xs[j + 1..]
  {
    j :| 0 <= j < |xs| && xs[j] == x;
  }

  /** The order of a list does not matter to the multiset of its names. */
  lemma {:induction false} NamesWherePermuted(xs: seq<Employee>, ys: seq<Employee>, ready: bool)
    requires multiset(xs) == multiset(ys)
    ensures multiset(NamesWhere(xs, ready)) == multiset(NamesWhere(ys, ready))
  {
    hide *;
    if xs == [] {
      assert |multiset(ys)| == 0;
    } else {
      var front, x := xs[..|xs| - 1], xs[|xs| - 1];
      assert xs == front + [x];
      OneOut(front, [], x);
      assert front + [x] + [] == xs && front + [] == front;
      var j := Occurs(ys, x);
      var before, after := ys[..j], ys[j + 1..];
      OneOut(before, after, x);
      CancelOne(multiset(front), multiset(before + after), x);
      NamesWherePermuted(front, before + after, ready);
      NamesWhereSnoc(front, x, ready);
      NamesWhereSnoc(before + after, x, ready);
      MovedToEnd(before, after, x, ready);
    }
  }

  /** Appends every name to the slice; the slice has room for them. */
  method FillNames(xs: seq<Employee>, slots: array<string>, start: nat) returns (idx: nat)
    requires start + |xs| <= slots.Length
    modifies slots
    ensures idx == start + |xs| && slots[..idx] == old(slots[..start]) + Names(xs)
  {
    idx := start;
    for i := 0 to |xs|
      invariant idx == start + i && slots[..idx] == old(slots[..start]) + Names(xs[..i])
    {
      assert xs[..i + 1][..i] == xs[..i];
      slots[idx] := xs[i].name;
      idx := idx + 1;
      assert slots[..idx] == slots[..idx - 1] + [xs[i].name];
    }
    assert xs[..|xs|] == xs;
  }

  /** Sends each pod employee's name to one slice or the other by LifecycleReady; others are skipped. */
  method FillByReadiness(xs: seq<Employee>, toAdd: array<string>, addStart: nat, toDelete: array<string>, deleteStart: nat)
    returns (addIdx: nat, deleteIdx: nat)
    requires toAdd != toDelete
    requires addStart + |xs| <= toAdd.Length && deleteStart + |xs| <= toDelete.Length
    modifies toAdd, toDelete
    ensures addStart <= addIdx <= addStart + |xs| && deleteStart <= deleteIdx <= deleteStart + |xs|
    ensures toAdd[..addIdx] == old(toAdd[..addStart]) + NamesWhere(xs, true)
    ensures toDelete[..deleteIdx] == old(toDelete[..deleteStart]) + NamesWhere(xs, false)
  {
    addIdx, deleteIdx := addStart, deleteStart;
    for i := 0 to |xs|
      invariant addStart <= addIdx <= addStart + i && deleteStart <= deleteIdx <= deleteStart + i
      invariant toAdd[..addIdx] == old(toAdd[..addStart]) + NamesWhere(xs[..i], true)
      invariant toDelete[..deleteIdx] == old(toDelete[..deleteStart]) + NamesWhere(xs[..i], false)
    {
      assert xs[..i + 1][..i] == xs[..i];
      if xs[i].status.OtherStatus? {
        continue;
      }
      if xs[i].status.lifecycleReady {
        toAdd[addIdx] := xs[i].name;
        addIdx := addIdx + 1;
        assert toAdd[..addIdx] == toAdd[..addIdx - 1] + [xs[i].name];
        continue;
      }
      toDelete[deleteIdx] := xs[i].name;
      deleteIdx := deleteIdx + 1;
      assert toDelete[..deleteIdx] == toDelete[..deleteIdx - 1] + [xs[i].name];
    }
    assert xs[..|xs|] == xs;
  }

  /** getToAddDeleteLifecycleFlzEmployees: two slices sized for the worst case, never overrun. */
  method GetToAddDelete(follow: bool, cud: Cud<Employee>) returns (toAdd: seq<string>, toDelete: seq<string>)
    ensures toAdd == AddNames(follow, cud) && toDelete == DeleteNames(follow, cud)
  {
    hide Names, NamesWhere;
    var adds := new string[|cud.succCreated| + |cud.succUpdated| + |cud.same|];
    var deletes := new string[|cud.succDeleted| + |cud.succUpdated| + |cud.same|];
    var addIdx: nat, deleteIdx: nat := 0, 0;
    if !follow {
      return adds[..addIdx], deletes[..deleteIdx];
    }
    addIdx := FillNames(cud.succCreated, adds, addIdx);
    addIdx, deleteIdx := FillByReadiness(cud.succUpdated, adds, addIdx, deletes, deleteIdx);
    deleteIdx := FillNames(cud.succDeleted, deletes, deleteIdx);
    addIdx, deleteIdx := FillByReadiness(cud.same, adds, addIdx, deletes, deleteIdx);
    toAdd, toDelete := adds[..addIdx], deletes[..deleteIdx];
  }
}
