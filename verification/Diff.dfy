/**
 The diff between what is expected of the backend provider and what it currently holds.
 The same code runs over employers and over employees, so it is written once over a type
 `T` with an identifier and an equality that can fail.
 */
module Diff {
  import opened Basics

  /** The answer of EmployerEqual / EmployeeEqual: a boolean, or an error. */
  datatype Equality = Equal | Unequal | Failed

  datatype Plan<T> = Plan(create: seq<T>, update: seq<T>, delete: seq<T>, same: seq<T>)

  // ----- lists as maps -----

  /** The map a list is read into, entry by entry: the last entry with an id wins. */
  function ById<T>(id: T -> string, xs: seq<T>): (m: map<string, T>)
    ensures |m.Keys| <= |xs|
    ensures Keyed(id, m)
  {
    if xs == [] then map[]
    else ById(id, xs[..|xs| - 1])[id(xs[|xs| - 1]) := xs[|xs| - 1]]
  }

  ghost predicate Keyed<T>(id: T -> string, m: map<string, T>) {
    forall k :: k in m ==> id(m[k]) == k
  }

  ghost function Ids<T>(id: T -> string, xs: seq<T>): set<string> {
    set i | 0 <= i < |xs| :: id(xs[i])
  }

  /** xs lists the entries of `source` with the given keys, each once, in some order. */
  ghost predicate Lists<T>(id: T -> string, xs: seq<T>, source: map<string, T>, keys: set<string>) {
    && (forall i :: 0 <= i < |xs| ==> id(xs[i]) in source && source[id(xs[i])] == xs[i])
    && (forall i, j :: 0 <= i < j < |xs| ==> id(xs[i]) != id(xs[j]))
    && Ids(id, xs) == keys
  }

  lemma IdsAppend<T>(id: T -> string, a: seq<T>, b: seq<T>)
    ensures Ids(id, a + b) == Ids(id, a) + Ids(id, b)
  {
    forall k | k in Ids(id, a) ensures k in Ids(id, a + b) {
      var i :| 0 <= i < |a| && id(a[i]) == k;
      assert (a + b)[i] == a[i];
    }
    forall k | k in Ids(id, b) ensures k in Ids(id, a + b) {
      var i :| 0 <= i < |b| && id(b[i]) == k;
      assert (a + b)[|a| + i] == b[i];
    }
  }

  lemma ListsSnoc<T>(id: T -> string, xs: seq<T>, source: map<string, T>, keys: set<string>, k: string)
    requires Keyed(id, source) && Lists(id, xs, source, keys) && k in source && k !in keys
    ensures Lists(id, xs + [source[k]], source, keys + {k})
  {
    IdsSnoc(id, xs, source[k]);
    forall i | 0 <= i < |xs| ensures id(xs[i]) != k {
      assert id(xs[i]) in Ids(id, xs);
    }
  }

  lemma ListsCard<T>(id: T -> string, xs: seq<T>, source: map<string, T>, keys: set<string>)
    requires Lists(id, xs, source, keys)
    ensures |xs| == |keys|
  {
    var names := seq(|xs|, i requires 0 <= i < |xs| => id(xs[i]));
    assert Elems(names) == Ids(id, xs) by {
      forall k | k in Ids(id, xs) ensures k in names {
        var i :| 0 <= i < |xs| && id(xs[i]) == k;
        assert names[i] == k;
      }
    }
    NoDupCard(names);
  }

  lemma {:induction false} ByIdAt<T>(id: T -> string, xs: seq<T>, i: nat)
    requires i < |xs|
    requires forall i, j :: 0 <= i < j < |xs| ==> id(xs[i]) != id(xs[j])
    ensures id(xs[i]) in ById(id, xs) && ById(id, xs)[id(xs[i])] == xs[i]
  {
    if i < |xs| - 1 {
      ByIdAt(id, xs[..|xs| - 1], i);
    }
  }

  /** Of entries with the same id the last one counts. */
  lemma {:induction false} LastOneWins<T>(id: T -> string, xs: seq<T>, i: nat)
    requires i < |xs| && forall j :: i < j < |xs| ==> id(xs[j]) != id(xs[i])
    ensures id(xs[i]) in ById(id, xs) && ById(id, xs)[id(xs[i])] == xs[i]
  {
    if i < |xs| - 1 {
      LastOneWins(id, xs[..|xs| - 1], i);
    }
  }

  lemma IdsSnoc<T>(id: T -> string, xs: seq<T>, x: T)
    ensures Ids(id, xs + [x]) == Ids(id, xs) + {id(x)}
  {
    IdsAppend(id, xs, [x]);
    assert [x][0] == x && Ids(id, [x]) == {id(x)};
  }

  lemma {:induction false} ByIdKeys<T>(id: T -> string, xs: seq<T>)
    ensures ById(id, xs).Keys == Ids(id, xs)
  {
    if xs == [] {
      assert ById(id, xs).Keys == {} == Ids(id, xs);
    } else {
      var front, x := xs[..|xs| - 1], xs[|xs| - 1];
      assert ById(id, xs) == ById(id, front)[id(x) := x];
      hide Ids, ById;
      ByIdKeys(id, front);
      IdsSnoc(id, front, x);
      assert xs == front + [x];
      assert ById(id, xs).Keys == ById(id, front).Keys + {id(x)};
    }
  }

  /** A listing read back by id: the entries of its source with its keys. */
  lemma ListsById<T>(id: T -> string, xs: seq<T>, source: map<string, T>, keys: set<string>)
    requires Lists(id, xs, source, keys)
    ensures keys <= source.Keys
    ensures ById(id, xs).Keys == keys
    ensures forall k :: k in keys ==> ById(id, xs)[k] == source[k]
  {
    ByIdKeys(id, xs);
    forall k | k in keys ensures k in source && ById(id, xs)[k] == source[k] {
      var i :| 0 <= i < |xs| && id(xs[i]) == k;
      ByIdAt(id, xs, i);
    }
  }

  lemma ListsCount<T>(id: T -> string, xs: seq<T>, source: map<string, T>, keys: set<string>, x: T)
    requires Lists(id, xs, source, keys)
    ensures multiset(xs)[x] == if id(x) in keys && id(x) in source && source[id(x)] == x then 1 else 0
  {
    if id(x) in keys && id(x) in source && source[id(x)] == x {
      var i :| 0 <= i < |xs| && id(xs[i]) == id(x);
      OccursOnce(xs, i);
    } else {
      forall i | 0 <= i < |xs| ensures xs[i] != x {
        assert id(xs[i]) in Ids(id, xs) && source[id(xs[i])] == xs[i];
      }
      assert x !in multiset(xs);
    }
  }

  /** Two listings of the same entries are permutations of each other: the order of map iteration does not matter. */
  lemma ListsUnique<T>(id: T -> string, xs: seq<T>, ys: seq<T>, source: map<string, T>, keys: set<string>)
    requires Lists(id, xs, source, keys) && Lists(id, ys, source, keys)
    ensures multiset(xs) == multiset(ys)
  {
    forall x ensures multiset(xs)[x] == multiset(ys)[x] {
      ListsCount(id, xs, source, keys, x);
      ListsCount(id, ys, source, keys, x);
    }
  }

  lemma OccursOnce<T>(xs: seq<T>, i: nat)
    requires i < |xs| && forall j :: 0 <= j < |xs| && j != i ==> xs[j] != xs[i]
    ensures multiset(xs)[xs[i]] == 1
  {
    var before, after := xs[..i], xs[i + 1..];
    assert xs == before + [xs[i]] + after;
    assert xs[i] !in before && xs[i] !in after;
    assert xs[i] !in multiset(before) && xs[i] !in multiset(after);
    assert multiset(xs) == multiset(before) + multiset{xs[i]} + multiset(after);
  }

  // ----- the four parts of a diff -----

  function Compare<T>(equal: (T, T) -> Equality, a: T, b: T): Equality {
    equal(a, b)
  }

  /** Shared ids whose expected entry compares to the current one as `eq`. */
  function Shared<T>(expected: map<string, T>, current: map<string, T>, equal: (T, T) -> Equality, eq: Equality)
    : set<string>
  {
    set k | k in expected && k in current && Compare(equal, expected[k], current[k]) == eq
  }

  ghost predicate Comparable<T>(expected: map<string, T>, current: map<string, T>, equal: (T, T) -> Equality) {
    forall k :: k in expected && k in current ==> Compare(equal, expected[k], current[k]) != Failed
  }

  /** The plan is a diff: ids split into expected only, shared and unequal, current only, shared and equal. */
  ghost predicate IsDiff<T>(id: T -> string, equal: (T, T) -> Equality, expected: map<string, T>,
                            current: map<string, T>, plan: Plan<T>) {
    && Lists(id, plan.create, expected, expected.Keys - current.Keys)
    && Lists(id, plan.update, expected, Shared(expected, current, equal, Unequal))
    && Lists(id, plan.delete, current, current.Keys - expected.Keys)
    && Lists(id, plan.same, expected, Shared(expected, current, equal, Equal))
  }

  lemma SubsetCard(a: set<string>, b: set<string>)
    requires a <= b
    ensures |a| <= |b|
  {
    assert b == a + (b - a);
  }

  // ----- reading a list into a map -----

  method IntoMap<T>(id: T -> string, xs: seq<T>) returns (m: map<string, T>)
    ensures m == ById(id, xs)
  {
    m := map[];
    for i := 0 to |xs|
      invariant m == ById(id, xs[..i])
    {
      assert xs[..i + 1][..i] == xs[..i];
      m := m[id(xs[i]) := xs[i]];
    }
    assert xs[..|xs|] == xs;
  }

  /**
   One slot of a pre-sized slice: the listing so far of the part of `keys` in `done` gains the
   entry of the fresh key k, and there was room for it.
   */
  lemma SlotFilled<T>(id: T -> string, filled: seq<T>, source: map<string, T>, keys: set<string>, done: set<string>,
                      k: string, bound: set<string>)
    requires Keyed(id, source) && keys <= bound
    requires k in source && k in keys && k !in done && Lists(id, filled, source, keys * done)
    ensures |filled| < |bound|
    ensures Lists(id, filled + [source[k]], source, keys * (done + {k}))
  {
    ListsSnoc(id, filled, source, keys * done, k);
    assert keys * (done + {k}) == keys * done + {k};
    ListsCard(id, filled, source, keys * done);
    SubsetCard(keys * done, bound - {k});
  }

  lemma SlotSkipped(keys: set<string>, done: set<string>, k: string)
    requires k !in keys
    ensures keys * (done + {k}) == keys * done
  {
  }

  /** The ids of the current map that the expected one lacks, listed into a slice sized by the current list. */
  method ToDelete<T(0)>(id: T -> string, expectedMap: map<string, T>, currentMap: map<string, T>, size: nat)
    returns (toDelete: seq<T>)
    requires Keyed(id, currentMap) && |currentMap.Keys| <= size
    ensures Lists(id, toDelete, currentMap, currentMap.Keys - expectedMap.Keys)
  {
    var slots := new T[size];
    var idx := 0;
    var todo := currentMap.Keys;
    ghost var extra := currentMap.Keys - expectedMap.Keys;
    while todo != {}
      invariant todo <= currentMap.Keys && 0 <= idx <= size
      invariant Lists(id, slots[..idx], currentMap, extra * (currentMap.Keys - todo))
    {
      var k :| k in todo;
      ghost var done := currentMap.Keys - todo;
      ghost var filled := slots[..idx];
      assert currentMap.Keys - (todo - {k}) == done + {k};
      if k !in expectedMap {
        SlotFilled(id, filled, currentMap, extra, done, k, currentMap.Keys);
        slots[idx] := currentMap[k];
        idx := idx + 1;
        assert slots[..idx] == filled + [currentMap[k]];
      } else {
        SlotSkipped(extra, done, k);
      }
      todo := todo - {k};
    }
    assert extra * currentMap.Keys == extra;
    toDelete := slots[..idx];
  }

  /** What the three slices filled from the expected map hold once the ids in `done` are classified. */
  ghost predicate Classified<T>(id: T -> string, equal: (T, T) -> Equality, expected: map<string, T>,
                                current: map<string, T>, done: set<string>, plan: Plan<T>) {
    && Lists(id, plan.create, expected, (expected.Keys - current.Keys) * done)
    && Lists(id, plan.update, expected, Shared(expected, current, equal, Unequal) * done)
    && Lists(id, plan.same, expected, Shared(expected, current, equal, Equal) * done)
    && forall k :: k in done && k in expected && k in current ==> Compare(equal, expected[k], current[k]) != Failed
  }

  lemma ClassifyStep<T>(id: T -> string, equal: (T, T) -> Equality, expected: map<string, T>,
                        current: map<string, T>, done: set<string>, plan: Plan<T>, k: string)
    requires Keyed(id, expected) && Classified(id, equal, expected, current, done, plan) == true
    requires k in expected && k !in done
    ensures k !in current ==>
      && |plan.create| < |expected.Keys|
      && Classified(id, equal, expected, current, done + {k}, plan.(create := plan.create + [expected[k]]))
    ensures k in current && Compare(equal, expected[k], current[k]) == Unequal ==>
      && |plan.update| < |current.Keys|
      && Classified(id, equal, expected, current, done + {k}, plan.(update := plan.update + [expected[k]]))
    ensures k in current && Compare(equal, expected[k], current[k]) == Equal ==>
      && |plan.same| < |current.Keys|
      && Classified(id, equal, expected, current, done + {k}, plan.(same := plan.same + [expected[k]]))
  {
    hide Lists;
    var missing := expected.Keys - current.Keys;
    var unequal := Shared(expected, current, equal, Unequal);
    var same := Shared(expected, current, equal, Equal);
    if k !in current {
      SlotFilled(id, plan.create, expected, missing, done, k, expected.Keys);
    } else {
      SlotSkipped(missing, done, k);
    }
    if k in unequal {
      SlotFilled(id, plan.update, expected, unequal, done, k, current.Keys);
    } else {
      SlotSkipped(unequal, done, k);
    }
    if k in same {
      SlotFilled(id, plan.same, expected, same, done, k, current.Keys);
    } else {
      SlotSkipped(same, done, k);
    }
  }

  lemma ClassifiedAll<T>(id: T -> string, equal: (T, T) -> Equality, expected: map<string, T>,
                         current: map<string, T>, plan: Plan<T>)
    requires Classified(id, equal, expected, current, expected.Keys, plan)
    requires Lists(id, plan.delete, current, current.Keys - expected.Keys)
    ensures Comparable(expected, current, equal)
    ensures IsDiff(id, equal, expected, current, plan)
  {
  }

  lemma NothingClassified<T>(id: T -> string, equal: (T, T) -> Equality, expected: map<string, T>,
                             current: map<string, T>)
    ensures Classified(id, equal, expected, current, {}, Plan([], [], [], []))
  {
  }

  lemma NotComparable<T>(expected: map<string, T>, current: map<string, T>, equal: (T, T) -> Equality, k: string)
    requires k in expected && k in current && Compare(equal, expected[k], current[k]) == Failed
    ensures !Comparable(expected, current, equal)
  {
  }

  /** The loop over the expected map: fills the three slices, or stops at a pair that cannot be compared. */
  method ClassifyExpected<T(0)>(id: T -> string, equal: (T, T) -> Equality, expectedMap: map<string, T>,
                                currentMap: map<string, T>, expectedLen: nat, currentLen: nat)
    returns (plan: Plan<T>, err: bool)
    requires Keyed(id, expectedMap) && |expectedMap.Keys| <= expectedLen && |currentMap.Keys| <= currentLen
    ensures err ==> !Comparable(expectedMap, currentMap, equal)
    ensures !err ==> Classified(id, equal, expectedMap, currentMap, expectedMap.Keys, plan)
  {
    hide *; // the lemmas about no id and about one more say all that is needed
    var toCreate := new T[expectedLen];
    var toUpdate := new T[currentLen];
    var unchangedOnes := new T[currentLen];
    var toCreateIdx, toUpdateIdx, unchangedIdx := 0, 0, 0;
    plan := Plan([], [], [], []);

    var todo := expectedMap.Keys;
    assert expectedMap.Keys - todo == {};
    NothingClassified(id, equal, expectedMap, currentMap);
    while todo != {}
      invariant todo <= expectedMap.Keys
      invariant 0 <= toCreateIdx <= expectedLen && plan.create == toCreate[..toCreateIdx]
      invariant 0 <= toUpdateIdx <= currentLen && plan.update == toUpdate[..toUpdateIdx]
      invariant 0 <= unchangedIdx <= currentLen && plan.same == unchangedOnes[..unchangedIdx]
      invariant Classified(id, equal, expectedMap, currentMap, expectedMap.Keys - todo, plan) == true
    {
      var k :| k in todo;
      ClassifyStep(id, equal, expectedMap, currentMap, expectedMap.Keys - todo, plan, k);
      assert expectedMap.Keys - (todo - {k}) == expectedMap.Keys - todo + {k};
      todo := todo - {k};
      var wanted := expectedMap[k];
      if k !in currentMap {
        toCreate[toCreateIdx] := wanted;
        toCreateIdx := toCreateIdx + 1;
        plan := plan.(create := plan.create + [wanted]);
        continue;
      }
      var eq := Compare(equal, wanted, currentMap[k]);
      if eq == Failed {
        NotComparable(expectedMap, currentMap, equal, k);
        return plan, true;
      }
      if eq == Unequal {
        toUpdate[toUpdateIdx] := wanted;
        toUpdateIdx := toUpdateIdx + 1;
        plan := plan.(update := plan.update + [wanted]);
        continue;
      }
      unchangedOnes[unchangedIdx] := wanted;
      unchangedIdx := unchangedIdx + 1;
      plan := plan.(same := plan.same + [wanted]);
    }
    assert expectedMap.Keys - todo == expectedMap.Keys;
    err := false;
  }

  /** diffEmployer and diffEmployees. */
  method Diff<T(0)>(id: T -> string, equal: (T, T) -> Equality, expected: seq<T>, current: seq<T>)
    returns (plan: Plan<T>, err: bool)
    ensures err <==> !Comparable(ById(id, expected), ById(id, current), equal)
    ensures !err ==> IsDiff(id, equal, ById(id, expected), ById(id, current), plan)
  {
    var expectedMap := IntoMap(id, expected);
    var currentMap := IntoMap(id, current);
    plan, err := ClassifyExpected(id, equal, expectedMap, currentMap, |expected|, |current|);
    if err {
      return;
    }
    var toDelete := ToDelete(id, expectedMap, currentMap, |current|);
    plan := plan.(delete := toDelete);
    ClassifiedAll(id, equal, expectedMap, currentMap, plan);
  }
}
