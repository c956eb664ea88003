/**
 The backend provider as the framework uses it: an id-indexed store changed through three
 adapter calls per sync, each of which may refuse part of its request or fail outright.
 */
module Provider {
  import opened Basics
  import opened Diff

  /** CUDEmployerResults / CUDEmployeeResults. */
  datatype Cud<T> = Cud(succCreated: seq<T>, failCreated: seq<T>, succUpdated: seq<T>, failUpdated: seq<T>,
                        succDeleted: seq<T>, failDeleted: seq<T>, same: seq<T>)

  /** What an adapter does with one request: which ids it carries out, and whether the call then errors. */
  datatype Reply = Reply(accepts: string -> bool, fails: bool)

  datatype Replies = Replies(create: Reply, update: Reply, delete: Reply)

  ghost predicate AcceptsAll(reply: Reply) {
    forall id: string :: reply.accepts(id)
  }

  /** The adapter carries out everything it is asked. */
  ghost predicate Accepting(replies: Replies) {
    AcceptsAll(replies.create) && AcceptsAll(replies.update) && AcceptsAll(replies.delete)
  }

  ghost predicate RefusesAll(reply: Reply) {
    forall id: string :: !reply.accepts(id)
  }

  /** The adapter carries out nothing it is asked. */
  ghost predicate Declining(replies: Replies) {
    RefusesAll(replies.create) && RefusesAll(replies.update) && RefusesAll(replies.delete)
  }

  /** The results are the adapter's: what succeeded it accepted, and what failed in a call that was made it did not. */
  ghost predicate Obeys<T>(id: T -> string, replies: Replies, cud: Cud<T>) {
    && Divided(id, replies.create, cud.succCreated, cud.failCreated)
    && (if replies.create.fails then cud.succUpdated == []
        else Divided(id, replies.update, cud.succUpdated, cud.failUpdated))
    && (if replies.create.fails || replies.update.fails then cud.succDeleted == []
        else Divided(id, replies.delete, cud.succDeleted, cud.failDeleted))
  }

  /** One request, divided by what the adapter accepts. */
  ghost predicate Divided<T>(id: T -> string, reply: Reply, succ: seq<T>, fail: seq<T>) {
    && (forall i :: 0 <= i < |succ| ==> reply.accepts(id(succ[i])))
    && (forall i :: 0 <= i < |fail| ==> !reply.accepts(id(fail[i])))
  }

  lemma DividedMeans<T>(id: T -> string, reply: Reply, succ: seq<T>, fail: seq<T>)
    requires Divided(id, reply, succ, fail)
    ensures (AcceptsAll(reply) ==> fail == []) && (RefusesAll(reply) ==> succ == [])
  {
    assert fail != [] ==> !reply.accepts(id(fail[0]));
    assert succ != [] ==> reply.accepts(id(succ[0]));
  }

  /** A willing adapter fails nothing, a declining one does nothing, and after an error nothing more is done. */
  lemma WhatItObeys<T>(id: T -> string, replies: Replies, cud: Cud<T>)
    requires Obeys(id, replies, cud)
    ensures Accepting(replies) && !replies.create.fails && !replies.update.fails ==> !FailedExist(cud)
    ensures Declining(replies) ==> cud.succCreated == [] && cud.succUpdated == [] && cud.succDeleted == []
    ensures replies.create.fails ==> cud.succUpdated == []
    ensures replies.create.fails || replies.update.fails ==> cud.succDeleted == []
  {
    DividedMeans(id, replies.create, cud.succCreated, cud.failCreated);
    if !replies.create.fails {
      DividedMeans(id, replies.update, cud.succUpdated, cud.failUpdated);
      if !replies.update.fails {
        DividedMeans(id, replies.delete, cud.succDeleted, cud.failDeleted);
      }
    }
  }

  // ----- the adapter contract -----

  function Stored<T>(id: T -> string, store: map<string, T>, xs: seq<T>): map<string, T> {
    store + ById(id, xs)
  }

  function Dropped<T>(id: T -> string, store: map<string, T>, xs: seq<T>): map<string, T> {
    store - ById(id, xs).Keys
  }

  /** The two answers share out the request. */
  ghost predicate SharesOut<T>(request: seq<T>, succ: seq<T>, fail: seq<T>) {
    multiset(request) == multiset(succ) + multiset(fail)
  }

  /** The store after the successes of a sync: creates and updates stored, deletes dropped. */
  function Applied<T>(id: T -> string, store: map<string, T>, cud: Cud<T>): map<string, T> {
    Dropped(id, Stored(id, Stored(id, store, cud.succCreated), cud.succUpdated), cud.succDeleted)
  }

  /** A create or update call: the store changes for exactly the entries reported as successes. */
  ghost predicate FaithfulStore<T>(id: T -> string, before: map<string, T>, request: seq<T>,
                                   succ: seq<T>, fail: seq<T>, after: map<string, T>) {
    SharesOut(request, succ, fail) && after == Stored(id, before, succ)
  }

  /** A delete call. */
  ghost predicate FaithfulDrop<T>(id: T -> string, before: map<string, T>, request: seq<T>,
                                  succ: seq<T>, fail: seq<T>, after: map<string, T>) {
    SharesOut(request, succ, fail) && after == Dropped(id, before, succ)
  }

  /** An adapter that carries out what it accepts and reports it faithfully. */
  method Carry<T>(id: T -> string, request: seq<T>, reply: Reply) returns (succ: seq<T>, fail: seq<T>)
    ensures SharesOut(request, succ, fail)
    ensures Divided(id, reply, succ, fail)
  {
    succ, fail := [], [];
    for i := 0 to |request|
      invariant Divided(id, reply, succ, fail)
      invariant multiset(request[..i]) == multiset(succ) + multiset(fail)
    {
      assert request[..i + 1] == request[..i] + [request[i]];
      if reply.accepts(id(request[i])) {
        succ := succ + [request[i]];
      } else {
        fail := fail + [request[i]];
      }
    }
    assert request[..|request|] == request;
  }

  // ----- one sync -----

  /**
   The three calls of a sync: what was asked for is the diff of `expected` against `before`,
   each request is shared out, and the store changed by exactly the successes. A call that
   was never made, because an earlier one errored, counts as having refused everything.
   */
  ghost predicate Synced<T>(id: T -> string, equal: (T, T) -> Equality, expected: map<string, T>,
                            before: map<string, T>, after: map<string, T>, cud: Cud<T>) {
    && Comparable(expected, before, equal)
    && Lists(id, cud.succCreated + cud.failCreated, expected, expected.Keys - before.Keys)
    && Lists(id, cud.succUpdated + cud.failUpdated, expected, Shared(expected, before, equal, Unequal))
    && Lists(id, cud.succDeleted + cud.failDeleted, before, before.Keys - expected.Keys)
    && Lists(id, cud.same, expected, Shared(expected, before, equal, Equal))
    && after == Applied(id, before, cud)
  }

  function IsClean<T(==)>(cud: Cud<T>): bool {
    && cud.same == [] && cud.succCreated + cud.failCreated == [] && cud.succUpdated + cud.failUpdated == []
    && cud.failDeleted == []
  }

  function FailedExist<T>(cud: Cud<T>): bool {
    |cud.failCreated| > 0 || |cud.failUpdated| > 0 || |cud.failDeleted| > 0
  }

  /** A listing stays one under permutation. */
  lemma ListsPermuted<T>(id: T -> string, xs: seq<T>, ys: seq<T>, source: map<string, T>, keys: set<string>)
    requires Lists(id, xs, source, keys) && multiset(xs) == multiset(ys)
    ensures Lists(id, ys, source, keys)
  {
    forall i | 0 <= i < |ys| ensures id(ys[i]) in keys && id(ys[i]) in source && source[id(ys[i])] == ys[i] {
      assert ys[i] in multiset(xs);
      var j :| 0 <= j < |xs| && xs[j] == ys[i];
      assert id(xs[j]) in Ids(id, xs);
    }
    forall i, j | 0 <= i < j < |ys| ensures id(ys[i]) != id(ys[j]) {
      if ys[i] == ys[j] {
        ListsCount(id, xs, source, keys, ys[i]);
        TwiceCounted(ys, i, j);
      }
    }
    forall k | k in keys ensures k in Ids(id, ys) {
      var i :| 0 <= i < |xs| && id(xs[i]) == k;
      assert xs[i] in multiset(ys);
      var j :| 0 <= j < |ys| && ys[j] == xs[i];
    }
    assert Ids(id, ys) == keys;
  }

  lemma SharedOutLists<T>(id: T -> string, request: seq<T>, succ: seq<T>, fail: seq<T>,
                          source: map<string, T>, keys: set<string>)
    requires Lists(id, request, source, keys) && SharesOut(request, succ, fail)
    ensures Lists(id, succ + fail, source, keys)
  {
    ListsPermuted(id, request, succ + fail, source, keys);
  }

  lemma SharesNothing<T>(request: seq<T>)
    ensures SharesOut(request, [], request)
  {
  }

  lemma DiffSynced<T>(id: T -> string, equal: (T, T) -> Equality, expected: map<string, T>,
                      before: map<string, T>, plan: Plan<T>, cud: Cud<T>)
    requires Comparable(expected, before, equal) && IsDiff(id, equal, expected, before, plan)
    requires SharesOut(plan.create, cud.succCreated, cud.failCreated)
    requires SharesOut(plan.update, cud.succUpdated, cud.failUpdated)
    requires SharesOut(plan.delete, cud.succDeleted, cud.failDeleted)
    requires cud.same == plan.same
    ensures Synced(id, equal, expected, before, Applied(id, before, cud), cud)
  {
    hide Lists;
    SharedOutLists(id, plan.create, cud.succCreated, cud.failCreated, expected, expected.Keys - before.Keys);
    SharedOutLists(id, plan.update, cud.succUpdated, cud.failUpdated, expected, Shared(expected, before, equal, Unequal));
    SharedOutLists(id, plan.delete, cud.succDeleted, cud.failDeleted, before, before.Keys - expected.Keys);
  }

  lemma StoredOneMore<T>(id: T -> string, store: map<string, T>, xs: seq<T>, x: T)
    ensures Stored(id, store, xs + [x]) == Stored(id, store, xs)[id(x) := x]
    ensures Dropped(id, store, xs + [x]) == Dropped(id, store, xs) - {id(x)}
  {
    assert (xs + [x])[..|xs|] == xs;
    assert ById(id, xs + [x]) == ById(id, xs)[id(x) := x];
    MapUpdates(store, ById(id, xs), id(x), x);
  }

  lemma MapUpdates<T>(store: map<string, T>, m: map<string, T>, k: string, x: T)
    ensures store + m[k := x] == (store + m)[k := x]
    ensures store - m[k := x].Keys == store - m.Keys - {k}
  {
  }

  lemma StoredNothing<T>(id: T -> string, store: map<string, T>)
    ensures Stored(id, store, []) == store && Dropped(id, store, []) == store
  {
  }

  /**
   The common part of syncEmployer and syncEmployees: diff, then create, update, delete.
   `current` is what the adapter reports of the store, whatever that is; the sync is one against it, and it is one of
   the store if the report was faithful. An error stops before the next call; what the failing call had
   carried out stays carried out.
   */
  method SyncStore<T(0)>(id: T -> string, equal: (T, T) -> Equality, expected: seq<T>, current: seq<T>,
                         store: map<string, T>, replies: Replies)
    returns (after: map<string, T>, cud: Cud<T>, err: Err)
    ensures !Comparable(ById(id, expected), ById(id, current), equal) ==> err.Error? && after == store
    ensures Comparable(ById(id, expected), ById(id, current), equal) ==>
      && Synced(id, equal, ById(id, expected), ById(id, current), Applied(id, ById(id, current), cud), cud)
      && after == Applied(id, store, cud)
      && (err.Error? <==> replies.create.fails || replies.update.fails || replies.delete.fails)
      && Obeys(id, replies, cud)
  {
    hide *;
    after := store;
    var plan, diffErr := Diff.Diff(id, equal, expected, current);
    cud := Cud([], plan.create, [], plan.update, [], plan.delete, plan.same);
    if diffErr {
      return after, cud, Error("diff failed");
    }
    cud, err := CallAdapter(id, plan, replies);
    DiffSynced(id, equal, ById(id, expected), ById(id, current), plan, cud);
    after := Applied(id, store, cud);
  }

  /** The three adapter calls of a plan, each made only if the ones before did not error. */
  method CallAdapter<T>(id: T -> string, plan: Plan<T>, replies: Replies) returns (cud: Cud<T>, err: Err)
    ensures SharesOut(plan.create, cud.succCreated, cud.failCreated)
    ensures SharesOut(plan.update, cud.succUpdated, cud.failUpdated)
    ensures SharesOut(plan.delete, cud.succDeleted, cud.failDeleted)
    ensures cud.same == plan.same
    ensures Obeys(id, replies, cud)
    ensures err.Error? <==> replies.create.fails || replies.update.fails || replies.delete.fails
  {
    cud := Cud([], plan.create, [], plan.update, [], plan.delete, plan.same);
    err := Nil;
    SharesNothing(plan.update);
    SharesNothing(plan.delete);
    var succ, fail := Carry(id, plan.create, replies.create);
    cud := cud.(succCreated := succ, failCreated := fail);
    if replies.create.fails {
      return cud, Error("syncCreate failed");
    }
    succ, fail := Carry(id, plan.update, replies.update);
    cud := cud.(succUpdated := succ, failUpdated := fail);
    if replies.update.fails {
      return cud, Error("syncUpdate failed");
    }
    succ, fail := Carry(id, plan.delete, replies.delete);
    cud := cud.(succDeleted := succ, failDeleted := fail);
    if replies.delete.fails {
      err := Error("syncDelete failed");
    }
  }

  // ----- what a sync leaves to do -----

  lemma HalvesApart<T>(id: T -> string, a: seq<T>, b: seq<T>)
    requires forall i, j :: 0 <= i < j < |a + b| ==> id((a + b)[i]) != id((a + b)[j])
    ensures Ids(id, a) !! Ids(id, b)
  {
    forall k | k in Ids(id, a) ensures k !in Ids(id, b) {
      var i :| 0 <= i < |a| && id(a[i]) == k;
      forall j | 0 <= j < |b| ensures id(b[j]) != k {
        assert (a + b)[i] == a[i] && (a + b)[|a| + j] == b[j];
      }
    }
  }

  /** The two halves of a shared-out request list disjoint key sets that make up the request's. */
  lemma SplitIds<T>(id: T -> string, succ: seq<T>, fail: seq<T>, source: map<string, T>, keys: set<string>)
    requires Lists(id, succ + fail, source, keys)
    ensures Lists(id, succ, source, Ids(id, succ)) && Lists(id, fail, source, Ids(id, fail))
    ensures Ids(id, succ) !! Ids(id, fail) && Ids(id, succ) + Ids(id, fail) == keys
    ensures ById(id, succ).Keys == Ids(id, succ)
    ensures forall k :: k in ById(id, succ) ==> k in source && ById(id, succ)[k] == source[k]
    ensures |succ| == |Ids(id, succ)| && |fail| == |Ids(id, fail)|
  {
    HalvesApart(id, succ, fail);
    HalvesList(id, succ, fail, source, keys);
    IdsAppend(id, succ, fail);
    hide *;
    ByIdKeys(id, succ);
    ListsById(id, succ, source, Ids(id, succ));
    ListsCard(id, succ, source, Ids(id, succ));
    ListsCard(id, fail, source, Ids(id, fail));
  }

  lemma HalvesList<T>(id: T -> string, a: seq<T>, b: seq<T>, source: map<string, T>, keys: set<string>)
    requires Lists(id, a + b, source, keys)
    ensures Lists(id, a, source, Ids(id, a)) && Lists(id, b, source, Ids(id, b))
    ensures Ids(id, a + b) == keys
  {
    forall i | 0 <= i < |a| ensures a[i] == (a + b)[i] { }
    forall i | 0 <= i < |b| ensures b[i] == (a + b)[|a| + i] { }
  }

  /** The entries after a sync: gone if their deletion succeeded, the expected ones if their create or update did. */
  lemma AfterSync<T>(id: T -> string, equal: (T, T) -> Equality, expected: map<string, T>,
                     before: map<string, T>, after: map<string, T>, cud: Cud<T>)
    requires Synced(id, equal, expected, before, after, cud)
    ensures var created, updated, deleted := Ids(id, cud.succCreated), Ids(id, cud.succUpdated), Ids(id, cud.succDeleted);
      && created <= expected.Keys - before.Keys && updated <= Shared(expected, before, equal, Unequal)
      && deleted <= before.Keys - expected.Keys
      && after.Keys == before.Keys + created - deleted
      && Overwritten(before, expected, created + updated, after)
  {
    hide Lists, Ids, ById;
    SplitIds(id, cud.succCreated, cud.failCreated, expected, expected.Keys - before.Keys);
    SplitIds(id, cud.succUpdated, cud.failUpdated, expected, Shared(expected, before, equal, Unequal));
    SplitIds(id, cud.succDeleted, cud.failDeleted, before, before.Keys - expected.Keys);
    assert Shared(expected, before, equal, Unequal) <= before.Keys;
    hide *;
    Merge(before, expected, ById(id, cud.succCreated), ById(id, cud.succUpdated), ById(id, cud.succDeleted).Keys);
  }

  /** after keeps the entries of before, except that those in `keys` are the expected ones. */
  ghost predicate Overwritten<T>(before: map<string, T>, expected: map<string, T>, keys: set<string>, after: map<string, T>) {
    forall k :: k in after ==>
      if k in keys then k in expected && after[k] == expected[k] else k in before && after[k] == before[k]
  }

  lemma Merge<T>(before: map<string, T>, expected: map<string, T>, c: map<string, T>, u: map<string, T>, d: set<string>)
    requires c.Keys <= expected.Keys && u.Keys <= expected.Keys
    requires forall k :: k in c ==> c[k] == expected[k]
    requires forall k :: k in u ==> u[k] == expected[k]
    requires u.Keys <= before.Keys && c.Keys !! d
    ensures (before + c + u - d).Keys == before.Keys + c.Keys - d
    ensures Overwritten(before, expected, c.Keys + u.Keys, before + c + u - d)
  {
  }

  /** How far the store is from what is expected: missing, unequal and extra ids. */
  function Gap<T>(expected: map<string, T>, store: map<string, T>, equal: (T, T) -> Equality): nat {
    |expected.Keys - store.Keys| + |Shared(expected, store, equal, Unequal)| + |store.Keys - expected.Keys|
  }

  ghost predicate Reflexive<T>(equal: (T, T) -> Equality, m: map<string, T>) {
    forall k :: k in m ==> Compare(equal, m[k], m[k]) == Equal
  }

  /**
   What a sync leaves to do is exactly what its adapter calls failed to do: the next diff against
   the same expectation asks for the three fail lists again and for nothing else.
   */
  lemma RemainingDiff<T>(id: T -> string, equal: (T, T) -> Equality, expected: map<string, T>,
                         before: map<string, T>, after: map<string, T>, cud: Cud<T>)
    requires Synced(id, equal, expected, before, after, cud) && Reflexive(equal, expected)
    ensures Comparable(expected, after, equal)
    ensures Lists(id, cud.failCreated, expected, expected.Keys - after.Keys)
    ensures Lists(id, cud.failUpdated, expected, Shared(expected, after, equal, Unequal))
    ensures Lists(id, cud.failDeleted, before, after.Keys - expected.Keys)
  {
    hide Lists, Ids, ById;
    AfterSync(id, equal, expected, before, after, cud);
    SplitIds(id, cud.succCreated, cud.failCreated, expected, expected.Keys - before.Keys);
    SplitIds(id, cud.succUpdated, cud.failUpdated, expected, Shared(expected, before, equal, Unequal));
    SplitIds(id, cud.succDeleted, cud.failDeleted, before, before.Keys - expected.Keys);
    RemainingShared(equal, expected, before, after, Ids(id, cud.succCreated), Ids(id, cud.succUpdated), Ids(id, cud.succDeleted));
    RemainingKeys(expected.Keys, before.Keys, after.Keys, Ids(id, cud.succCreated), Ids(id, cud.failCreated),
                  Ids(id, cud.succDeleted), Ids(id, cud.failDeleted));
    Complement(Shared(expected, before, equal, Unequal), Ids(id, cud.succUpdated), Ids(id, cud.failUpdated));
    HalvesList(id, cud.succCreated, cud.failCreated, expected, expected.Keys - before.Keys);
  }

  lemma Complement(whole: set<string>, a: set<string>, b: set<string>)
    requires a + b == whole && a !! b
    ensures whole - a == b
  {
  }

  lemma RemainingKeys(expected: set<string>, before: set<string>, after: set<string>,
                      created: set<string>, notCreated: set<string>, deleted: set<string>, notDeleted: set<string>)
    requires created + notCreated == expected - before && created !! notCreated
    requires deleted + notDeleted == before - expected && deleted !! notDeleted
    requires after == before + created - deleted
    ensures expected - after == notCreated
    ensures after - expected == notDeleted
  {
  }

  lemma RemainingShared<T>(equal: (T, T) -> Equality, expected: map<string, T>, before: map<string, T>,
                           after: map<string, T>, created: set<string>, updated: set<string>, deleted: set<string>)
    requires Comparable(expected, before, equal) && Reflexive(equal, expected)
    requires created <= expected.Keys - before.Keys && updated <= Shared(expected, before, equal, Unequal)
    requires deleted <= before.Keys - expected.Keys
    requires after.Keys == before.Keys + created - deleted
    requires Overwritten(before, expected, created + updated, after)
    ensures Comparable(expected, after, equal)
    ensures Shared(expected, after, equal, Unequal) == Shared(expected, before, equal, Unequal) - updated
  {
  }

  /** The convergence measure drops by exactly the number of successes, to the sizes of the fail lists. */
  lemma GapDrops<T>(id: T -> string, equal: (T, T) -> Equality, expected: map<string, T>,
                    before: map<string, T>, after: map<string, T>, cud: Cud<T>)
    requires Synced(id, equal, expected, before, after, cud) && Reflexive(equal, expected)
    ensures Gap(expected, after, equal) == |cud.failCreated| + |cud.failUpdated| + |cud.failDeleted|
    ensures Gap(expected, before, equal)
         == Gap(expected, after, equal) + |cud.succCreated| + |cud.succUpdated| + |cud.succDeleted|
  {
    hide Lists, Ids, ById;
    RemainingDiff(id, equal, expected, before, after, cud);
    ListsCard(id, cud.failCreated, expected, expected.Keys - after.Keys);
    ListsCard(id, cud.failUpdated, expected, Shared(expected, after, equal, Unequal));
    ListsCard(id, cud.failDeleted, before, after.Keys - expected.Keys);
    ListsCard(id, cud.succCreated + cud.failCreated, expected, expected.Keys - before.Keys);
    ListsCard(id, cud.succUpdated + cud.failUpdated, expected, Shared(expected, before, equal, Unequal));
    ListsCard(id, cud.succDeleted + cud.failDeleted, before, before.Keys - expected.Keys);
  }

  /** A sync reports failures exactly when the store still differs from what is expected. */
  lemma TruthfulFailures<T>(id: T -> string, equal: (T, T) -> Equality, expected: map<string, T>,
                            before: map<string, T>, after: map<string, T>, cud: Cud<T>)
    requires Synced(id, equal, expected, before, after, cud) && Reflexive(equal, expected)
    ensures FailedExist(cud) <==> Gap(expected, after, equal) > 0
  {
    GapDrops(id, equal, expected, before, after, cud);
  }

  /** No gap: the same ids, all equal. */
  lemma GapZero<T>(expected: map<string, T>, store: map<string, T>, equal: (T, T) -> Equality)
    requires Comparable(expected, store, equal)
    ensures Gap(expected, store, equal) == 0 <==>
      && store.Keys == expected.Keys
      && forall k :: k in expected && k in store ==> Compare(equal, expected[k], store[k]) == Equal
  {
  }

  /**
   From any store, a pass without failures reaches the expectation, and whatever pass follows
   asks for nothing and changes nothing.
   */
  lemma NextPassIdle<T>(id: T -> string, equal: (T, T) -> Equality, expected: map<string, T>, before: map<string, T>,
                        after: map<string, T>, cud: Cud<T>, later: map<string, T>, nextCud: Cud<T>)
    requires Synced(id, equal, expected, before, after, cud) && Reflexive(equal, expected)
    requires !FailedExist(cud)
    requires Synced(id, equal, expected, after, later, nextCud)
    ensures after.Keys == expected.Keys
    ensures forall k :: k in expected && k in after ==> Compare(equal, expected[k], after[k]) == Equal
    ensures nextCud == Cud([], [], [], [], [], [], nextCud.same) && later == after
  {
    hide Lists, Ids, ById;
    GapDrops(id, equal, expected, before, after, cud);
    GapDrops(id, equal, expected, after, later, nextCud);
    RemainingDiff(id, equal, expected, before, after, cud);
    GapZero(expected, after, equal);
    StoredNothing(id, after);
  }

  /**
   The diff is a correct edit script: carrying out all of it on the current store leaves the expected ids, each entry
   the expected one or one that compared equal to it.
   */
  lemma EditScript<T>(id: T -> string, equal: (T, T) -> Equality, expected: map<string, T>, current: map<string, T>,
                      plan: Plan<T>)
    requires IsDiff(id, equal, expected, current, plan) && Comparable(expected, current, equal)
    requires Reflexive(equal, expected)
    ensures var after := Applied(id, current, Cud(plan.create, [], plan.update, [], plan.delete, [], plan.same));
      && after.Keys == expected.Keys
      && forall k :: k in after && k in expected ==>
           && Compare(equal, expected[k], after[k]) == Equal
           && (k !in current || Compare(equal, expected[k], current[k]) != Equal ==> after[k] == expected[k])
  {
    hide Lists, Ids, ById, Applied;
    var cud := Cud(plan.create, [], plan.update, [], plan.delete, [], plan.same);
    var after := Applied(id, current, cud);
    DiffSynced(id, equal, expected, current, plan, cud);
    GapDrops(id, equal, expected, current, after, cud);
    RemainingDiff(id, equal, expected, current, after, cud);
    GapZero(expected, after, equal);
    AfterSync(id, equal, expected, current, after, cud);
    SplitIds(id, plan.update, [], expected, Shared(expected, current, equal, Unequal));
    SplitIds(id, plan.create, [], expected, expected.Keys - current.Keys);
    NoIds<T>(id);
  }

  lemma NoIds<T>(id: T -> string)
    ensures Ids(id, []) == {}
  {
  }

  /** isClean says exactly that nothing is expected and nothing is left in the store. */
  lemma CleanIffEmpty<T>(id: T -> string, equal: (T, T) -> Equality, expected: map<string, T>,
                         before: map<string, T>, after: map<string, T>, cud: Cud<T>)
    requires Synced(id, equal, expected, before, after, cud)
    ensures IsClean(cud) <==> expected == map[] && after == map[]
  {
    hide Lists, Ids, ById;
    AfterSync(id, equal, expected, before, after, cud);
    SplitIds(id, cud.succDeleted, cud.failDeleted, before, before.Keys - expected.Keys);
    ListsCard(id, cud.succCreated + cud.failCreated, expected, expected.Keys - before.Keys);
    ListsCard(id, cud.succUpdated + cud.failUpdated, expected, Shared(expected, before, equal, Unequal));
    ListsCard(id, cud.same, expected, Shared(expected, before, equal, Equal));
    SplitIds(id, cud.succCreated, cud.failCreated, expected, expected.Keys - before.Keys);
    RemainingKeys(expected.Keys, before.Keys, after.Keys, Ids(id, cud.succCreated), Ids(id, cud.failCreated),
                  Ids(id, cud.succDeleted), Ids(id, cud.failDeleted));
    PartsOfExpected(expected, before, equal);
  }

  lemma PartsOfExpected<T>(expected: map<string, T>, before: map<string, T>, equal: (T, T) -> Equality)
    requires Comparable(expected, before, equal)
    ensures expected.Keys == (expected.Keys - before.Keys)
      + Shared(expected, before, equal, Unequal) + Shared(expected, before, equal, Equal)
  {
  }

  /** A listing of the store, in any order: the adapter's GetCurrent over a ranged map. */
  method Current<T>(id: T -> string, store: map<string, T>) returns (current: seq<T>)
    requires Keyed(id, store)
    ensures Lists(id, current, store, store.Keys) && ById(id, current) == store
  {
    current := [];
    var todo := store.Keys;
    while todo != {}
      invariant todo <= store.Keys
      invariant Lists(id, current, store, store.Keys - todo)
    {
      var k :| k in todo;
      ListsSnoc(id, current, store, store.Keys - todo, k);
      assert store.Keys - (todo - {k}) == store.Keys - todo + {k};
      todo := todo - {k};
      current := current + [store[k]];
    }
    assert store.Keys - todo == store.Keys;
    ListsById(id, current, store, store.Keys);
    assert ById(id, current) == store;
  }

  /** The store stays keyed by id. */
  lemma StaysKeyed<T>(id: T -> string, equal: (T, T) -> Equality, expected: map<string, T>,
                      before: map<string, T>, after: map<string, T>, cud: Cud<T>)
    requires Synced(id, equal, expected, before, after, cud) && Keyed(id, expected) && Keyed(id, before)
    ensures Keyed(id, after)
  {
  }
}
