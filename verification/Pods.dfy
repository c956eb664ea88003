/**
 Pods as the API server stores them, and the four kinds of pod write, each run as a batch:
 adding and deleting the lifecycle finalizer, adding and deleting an employer's entry in the
 expected-finalizer annotation.
 */
module Pods {
  import opened Basics
  import opened SlowStart

  /** The decoded available-conditions annotation. */
  datatype Available = Absent | Malformed | Decoded(expected: map<string, string>)

  datatype Pod = Pod(deleting: bool, finalizers: seq<string>, available: Available)

  type PodStore = map<string, Pod>

  /** What the API server does with the calls one batch index makes: answer, fail the read, or refuse the write. */
  datatype Fault = NoFault | GetFails | WriteFails

  type Faults = nat -> Fault

  /** The API server answers every call of the batch over these names. */
  ghost predicate Undisturbed(names: seq<string>, faults: Faults) {
    forall i: nat :: i < |names| ==> faults(i).NoFault?
  }

  // ----- lifecycle finalizer -----

  function Without(finalizers: seq<string>, flz: string): (r: seq<string>)
    ensures flz !in r
    ensures forall f :: f != flz ==> (f in r <==> f in finalizers)
    ensures flz !in finalizers ==> r == finalizers
  {
    if finalizers == [] then []
    else if finalizers[0] == flz then Without(finalizers[1..], flz)
    else [finalizers[0]] + Without(finalizers[1..], flz)
  }

  lemma {:induction false} WithoutAppend(a: seq<string>, b: seq<string>, flz: string)
    ensures Without(a + b, flz) == Without(a, flz) + Without(b, flz)
  {
    if a == [] {
      assert [] + b == b;
    } else {
      assert (a + b)[1..] == a[1..] + b;
      WithoutAppend(a[1..], b, flz);
    }
  }

  lemma WithoutNothing(flz: string)
    ensures Without([], flz) == []
  {
  }

  lemma WithoutSnoc(finalizers: seq<string>, f: string, flz: string)
    ensures f == flz ==> Without(finalizers + [f], flz) == Without(finalizers, flz)
    ensures f != flz ==> Without(finalizers + [f], flz) == Without(finalizers, flz) + [f]
  {
    WithoutAppend(finalizers, [f], flz);
    assert [f][1..] == [] && Without([f], flz) == if f == flz then [] else [f];
  }

  /** One call of the add half of ensureLifecycleFinalizer. */
  function AddFinalizer(pods: PodStore, name: string, flz: string, fault: Fault): (PodStore, Err) {
    if fault.GetFails? then (pods, Error("get failed"))
    else if name !in pods then (pods, Nil)
    else if flz in pods[name].finalizers then (pods, Nil)
    else if fault.WriteFails? then (pods, Error("update failed"))
    else (pods[name := pods[name].(finalizers := pods[name].finalizers + [flz])], Nil)
  }

  /** One call of the delete half. */
  function DeleteFinalizer(pods: PodStore, name: string, flz: string, fault: Fault): (PodStore, Err) {
    if fault.GetFails? then (pods, Error("get failed"))
    else if name !in pods then (pods, Nil)
    else if flz !in pods[name].finalizers then (pods, Nil)
    else if fault.WriteFails? then (pods, Error("update failed"))
    else (Settle(pods, name, pods[name].(finalizers := Without(pods[name].finalizers, flz))), Nil)
  }

  /** Storing a pod: a deleting object left without finalizers is gone. */
  function Settle(pods: PodStore, name: string, pod: Pod): PodStore {
    if pod.deleting && pod.finalizers == [] then pods - {name} else pods[name := pod]
  }

  /** The add closure as written: scan for the finalizer, append it if absent. */
  method AddFinalizerBody(pods: PodStore, name: string, flz: string, fault: Fault) returns (after: PodStore, err: Err)
    ensures (after, err) == AddFinalizer(pods, name, flz, fault)
  {
    after, err := pods, Nil;
    if fault.GetFails? {
      return after, Error("get failed");
    }
    if name !in pods {
      return;
    }
    var employee := pods[name];
    var alreadyAdd := false;
    for i := 0 to |employee.finalizers|
      invariant !alreadyAdd && flz !in employee.finalizers[..i]
    {
      if employee.finalizers[i] == flz {
        alreadyAdd := true;
        break;
      }
    }
    if alreadyAdd {
      return;
    }
    if fault.WriteFails? {
      return after, Error("update failed");
    }
    after := pods[name := employee.(finalizers := employee.finalizers + [flz])];
  }

  /** The delete closure as written: copy the list without the finalizer. */
  method DeleteFinalizerBody(pods: PodStore, name: string, flz: string, fault: Fault) returns (after: PodStore, err: Err)
    ensures (after, err) == DeleteFinalizer(pods, name, flz, fault)
  {
    hide Without;
    after, err := pods, Nil;
    if fault.GetFails? {
      return after, Error("get failed");
    }
    if name !in pods {
      return;
    }
    var employee := pods[name];
    var alreadyDeleted := true;
    var finalizers: seq<string> := [];
    WithoutNothing(flz);
    for i := 0 to |employee.finalizers|
      invariant alreadyDeleted <==> flz !in employee.finalizers[..i]
      invariant finalizers == Without(employee.finalizers[..i], flz)
    {
      assert employee.finalizers[..i + 1] == employee.finalizers[..i] + [employee.finalizers[i]];
      WithoutSnoc(employee.finalizers[..i], employee.finalizers[i], flz);
      if employee.finalizers[i] == flz {
        alreadyDeleted := false;
        continue;
      }
      finalizers := finalizers + [employee.finalizers[i]];
    }
    assert employee.finalizers[..|employee.finalizers|] == employee.finalizers;
    if alreadyDeleted {
      return;
    }
    if fault.WriteFails? {
      return after, Error("update failed");
    }
    after := Settle(pods, name, employee.(finalizers := finalizers));
  }

  /** The pods once the named ones carry the finalizer; those that had it keep their list as it was. */
  function WithFinalizer(pods: PodStore, flz: string, names: set<string>): PodStore {
    map n | n in pods :: n := if n in names then Carrying(pods[n], flz) else pods[n]
  }

  function Carrying(pod: Pod, flz: string): Pod {
    if flz in pod.finalizers then pod else pod.(finalizers := pod.finalizers + [flz])
  }

  /** A deleting pod that only this finalizer still holds. */
  predicate HeldOnlyBy(pod: Pod, flz: string) {
    flz in pod.finalizers && pod.deleting && Without(pod.finalizers, flz) == []
  }

  /** The pods once the named ones lack the finalizer. */
  function WithoutFinalizer(pods: PodStore, flz: string, names: set<string>): PodStore {
    map n | n in pods && !(n in names && HeldOnlyBy(pods[n], flz)) ::
      n := if n in names then pods[n].(finalizers := Without(pods[n].finalizers, flz)) else pods[n]
  }

  /** The names whose call has answered nil. */
  function Answered(calls: seq<Call>, names: seq<string>): set<string> {
    if calls == [] then {}
    else
      var call := calls[|calls| - 1];
      Answered(calls[..|calls| - 1], names)
      + if call.result.Nil? && call.index < |names| then {names[call.index]} else {}
  }

  lemma {:induction false} AnsweredAll(calls: seq<Call>, names: seq<string>)
    ensures Answered(calls, names) <= Elems(names)
    ensures forall k :: 0 <= k < |calls| && calls[k].result.Nil? && calls[k].index < |names| ==>
      names[calls[k].index] in Answered(calls, names)
  {
    if calls != [] {
      AnsweredAll(calls[..|calls| - 1], names);
    }
  }

  /** A full run in which no call failed has answered every name. */
  lemma CleanRunAnswersAll(waves: seq<Wave>, names: seq<string>)
    requires WaveByWave(waves) && Doubled(waves, |names|, 1) && Left(waves, |names|, 1).1 <= 0
    requires Clean(Flatten(waves))
    ensures Answered(Flatten(waves), names) == Elems(names)
  {
    var calls := Flatten(waves);
    FullRunCallsEveryIndex(waves, |names|, 1);
    AnsweredAll(calls, names);
    forall n | n in names ensures n in Answered(calls, names) {
      var i :| 0 <= i < |names| && names[i] == n;
      assert i in Indices(calls);
      var k :| 0 <= k < |calls| && calls[k].index == i;
      assert calls[k].result.Nil?;
    }
  }

  function AddCall(flz: string, names: seq<string>, faults: Faults): (PodStore, nat, Err) -> (PodStore, Err) {
    (pods: PodStore, i: nat, _: Err) =>
      if i < |names| then AddFinalizer(pods, names[i], flz, faults(i)) else (pods, Nil)
  }

  function DeleteCall(flz: string, names: seq<string>, faults: Faults): (PodStore, nat, Err) -> (PodStore, Err) {
    (pods: PodStore, i: nat, _: Err) =>
      if i < |names| then DeleteFinalizer(pods, names[i], flz, faults(i)) else (pods, Nil)
  }

  lemma AddStep(pods: PodStore, flz: string, done: set<string>, name: string, fault: Fault)
    ensures var (after, err) := AddFinalizer(WithFinalizer(pods, flz, done), name, flz, fault);
      after == WithFinalizer(pods, flz, done + if err.Nil? then {name} else {})
  {
  }

  lemma DeleteStep(pods: PodStore, flz: string, done: set<string>, name: string, fault: Fault)
    ensures var (after, err) := DeleteFinalizer(WithoutFinalizer(pods, flz, done), name, flz, fault);
      after == WithoutFinalizer(pods, flz, done + if err.Nil? then {name} else {})
  {
  }

  lemma CleanSnoc(calls: seq<Call>, call: Call)
    ensures Clean(calls + [call]) <==> Clean(calls) && call.result.Nil?
  {
    assert (calls + [call])[|calls|] == call;
    assert forall k :: 0 <= k < |calls| ==> (calls + [call])[k] == calls[k];
  }

  lemma AddOneMore(pods: PodStore, flz: string, names: seq<string>, faults: Faults, front: seq<Call>, call: Call)
    requires call.result == Invoke(AddCall(flz, names, faults), WithFinalizer(pods, flz, Answered(front, names)), call.index, call.seen).1
    ensures Invoke(AddCall(flz, names, faults), WithFinalizer(pods, flz, Answered(front, names)), call.index, call.seen).0
         == WithFinalizer(pods, flz, Answered(front + [call], names))
    ensures Undisturbed(names, faults) ==> call.result.Nil?
  {
    assert (front + [call])[..|front|] == front;
    if call.index < |names| {
      AddStep(pods, flz, Answered(front, names), names[call.index], faults(call.index));
    }
    hide WithFinalizer;
  }

  /** Whatever the order of the calls, an add run changes exactly the pods whose call answered nil. */
  lemma {:induction false} AddRun(pods: PodStore, flz: string, names: seq<string>, faults: Faults, calls: seq<Call>)
    requires Honest(AddCall(flz, names, faults), pods, calls)
    ensures After(AddCall(flz, names, faults), pods, calls) == WithFinalizer(pods, flz, Answered(calls, names))
    ensures Undisturbed(names, faults) ==> Clean(calls)
  {
    var fn := AddCall(flz, names, faults);
    if calls == [] {
      assert Answered(calls, names) == {};
    } else {
      var front, call := calls[..|calls| - 1], calls[|calls| - 1];
      assert calls == front + [call] && Honest(fn, pods, front);
      assert call.result == Invoke(fn, After(fn, pods, front), call.index, call.seen).1;
      assert After(fn, pods, calls) == Invoke(fn, After(fn, pods, front), call.index, call.seen).0;
      hide *;
      AddRun(pods, flz, names, faults, front);
      AddOneMore(pods, flz, names, faults, front, call);
      CleanSnoc(front, call);
    }
  }

  lemma DeleteOneMore(pods: PodStore, flz: string, names: seq<string>, faults: Faults, front: seq<Call>, call: Call)
    requires call.result == Invoke(DeleteCall(flz, names, faults), WithoutFinalizer(pods, flz, Answered(front, names)), call.index, call.seen).1
    ensures Invoke(DeleteCall(flz, names, faults), WithoutFinalizer(pods, flz, Answered(front, names)), call.index, call.seen).0
         == WithoutFinalizer(pods, flz, Answered(front + [call], names))
    ensures Undisturbed(names, faults) ==> call.result.Nil?
  {
    assert (front + [call])[..|front|] == front;
    if call.index < |names| {
      DeleteStep(pods, flz, Answered(front, names), names[call.index], faults(call.index));
    }
    hide WithoutFinalizer;
  }

  lemma {:induction false} DeleteRun(pods: PodStore, flz: string, names: seq<string>, faults: Faults, calls: seq<Call>)
    requires Honest(DeleteCall(flz, names, faults), pods, calls)
    ensures After(DeleteCall(flz, names, faults), pods, calls) == WithoutFinalizer(pods, flz, Answered(calls, names))
    ensures Undisturbed(names, faults) ==> Clean(calls)
  {
    var fn := DeleteCall(flz, names, faults);
    if calls == [] {
      assert Answered(calls, names) == {};
    } else {
      var front, call := calls[..|calls| - 1], calls[|calls| - 1];
      assert calls == front + [call] && Honest(fn, pods, front);
      assert call.result == Invoke(fn, After(fn, pods, front), call.index, call.seen).1;
      assert After(fn, pods, calls) == Invoke(fn, After(fn, pods, front), call.index, call.seen).0;
      hide *;
      DeleteRun(pods, flz, names, faults, front);
      DeleteOneMore(pods, flz, names, faults, front, call);
      CleanSnoc(front, call);
    }
  }

  method AddFinalizers(pods: PodStore, flz: string, names: seq<string>, faults: Faults)
    returns (after: PodStore, err: Err, ghost added: set<string>)
    ensures added <= Elems(names) && (err.Nil? ==> added == Elems(names))
    ensures after == WithFinalizer(pods, flz, added)
    ensures Undisturbed(names, faults) ==> err.Nil?
  {
    var _, gotErr, state, waves := SlowStartBatch(|names|, 1, false, AddCall(flz, names, faults), pods);
    after, err := state, gotErr;
    added := Answered(Flatten(waves), names);
    AddRun(pods, flz, names, faults, Flatten(waves));
    AnsweredAll(Flatten(waves), names);
    HeldNilIffClean(waves);
    if err.Nil? {
      CleanRunAnswersAll(waves, names);
    }
  }

  method DeleteFinalizers(pods: PodStore, flz: string, names: seq<string>, faults: Faults)
    returns (after: PodStore, err: Err, ghost removed: set<string>)
    ensures removed <= Elems(names) && (err.Nil? ==> removed == Elems(names))
    ensures after == WithoutFinalizer(pods, flz, removed)
    ensures Undisturbed(names, faults) ==> err.Nil?
  {
    var _, gotErr, state, waves := SlowStartBatch(|names|, 1, false, DeleteCall(flz, names, faults), pods);
    after, err := state, gotErr;
    removed := Answered(Flatten(waves), names);
    DeleteRun(pods, flz, names, faults, Flatten(waves));
    AnsweredAll(Flatten(waves), names);
    HeldNilIffClean(waves);
    if err.Nil? {
      CleanRunAnswersAll(waves, names);
    }
  }

  /** ensureLifecycleFinalizer: the delete half runs only when the add half reported no error. */
  method EnsureLifecycleFinalizer(pods: PodStore, flz: string, toAdd: seq<string>, toDelete: seq<string>,
                                  addFaults: Faults, deleteFaults: Faults)
    returns (after: PodStore, err: Err, ghost added: set<string>, ghost removed: set<string>)
    ensures after == WithoutFinalizer(WithFinalizer(pods, flz, added), flz, removed)
    ensures added <= Elems(toAdd) && removed <= Elems(toDelete)
    ensures err.Nil? ==> added == Elems(toAdd) && removed == Elems(toDelete)
    ensures added != Elems(toAdd) ==> removed == {}
    ensures Undisturbed(toAdd, addFaults) && Undisturbed(toDelete, deleteFaults) ==> err.Nil?
  {
    after, err, added := AddFinalizers(pods, flz, toAdd, addFaults);
    removed := {};
    if err.Error? {
      assert WithoutFinalizer(after, flz, {}) == after;
      return;
    }
    after, err, removed := DeleteFinalizers(after, flz, toDelete, deleteFaults);
  }

  lemma CarryingWithout(pod: Pod, flz: string)
    ensures Without(Carrying(pod, flz).finalizers, flz) == Without(pod.finalizers, flz)
  {
    WithoutAppend(pod.finalizers, [flz], flz);
  }

  /** What one surviving pod looks like after both halves have run for the given names. */
  lemma EnsuredPod(pods: PodStore, flz: string, toAdd: set<string>, toDelete: set<string>, n: string)
    requires n in pods
    ensures var after := WithoutFinalizer(WithFinalizer(pods, flz, toAdd), flz, toDelete);
      && (n !in after <==>
            n in toDelete && pods[n].deleting && Without(pods[n].finalizers, flz) == []
            && (n in toAdd || flz in pods[n].finalizers))
      && (n in after ==>
           && (n in toDelete ==> flz !in after[n].finalizers)
           && (n in toAdd && n !in toDelete && flz in pods[n].finalizers ==> after[n].finalizers == pods[n].finalizers)
           && (n in toAdd && n !in toDelete ==> flz in after[n].finalizers)
           && (n in toAdd && n !in toDelete && flz !in pods[n].finalizers ==> after[n].finalizers == pods[n].finalizers + [flz])
           && (n !in toAdd && n !in toDelete ==> after[n] == pods[n])
           && Without(after[n].finalizers, flz) == Without(pods[n].finalizers, flz)
           && after[n].deleting == pods[n].deleting && after[n].available == pods[n].available)
  {
    CarryingWithout(pods[n], flz);
  }

  /**
   What a nil answer of ensureLifecycleFinalizer means, with duplicate and overlapping names allowed:
   surviving pods named in toDelete lack the finalizer, those named only in toAdd carry it, every foreign
   finalizer keeps its place, no other pod changed, and the pods gone are exactly the deleting ones that
   only this finalizer still held.
   */
  lemma LifecycleEnsured(pods: PodStore, flz: string, toAdd: set<string>, toDelete: set<string>)
    ensures var after := WithoutFinalizer(WithFinalizer(pods, flz, toAdd), flz, toDelete);
      && after.Keys <= pods.Keys
      && (forall n :: n in after && n in toDelete ==> flz !in after[n].finalizers)
      && (forall n :: n in after && n in toAdd && n !in toDelete ==>
            after[n].finalizers == pods[n].finalizers + if flz in pods[n].finalizers then [] else [flz])
      && (forall n :: n in after ==> Without(after[n].finalizers, flz) == Without(pods[n].finalizers, flz))
      && (forall n :: n in pods && n !in toAdd && n !in toDelete ==> n in after && after[n] == pods[n])
      && (forall n :: n in pods ==> (n !in after <==>
            n in toDelete && pods[n].deleting && Without(pods[n].finalizers, flz) == []
            && (n in toAdd || flz in pods[n].finalizers)))
  {
    forall n | n in pods {
      EnsuredPod(pods, flz, toAdd, toDelete, n);
    }
  }

  /** Running it again with the same names changes nothing. */
  lemma LifecycleIdempotent(pods: PodStore, flz: string, toAdd: set<string>, toDelete: set<string>)
    ensures var after := WithoutFinalizer(WithFinalizer(pods, flz, toAdd), flz, toDelete);
      WithoutFinalizer(WithFinalizer(after, flz, toAdd), flz, toDelete) == after
  {
    var after := WithoutFinalizer(WithFinalizer(pods, flz, toAdd), flz, toDelete);
    forall n | n in after
      ensures n in WithoutFinalizer(WithFinalizer(after, flz, toAdd), flz, toDelete)
           && WithoutFinalizer(WithFinalizer(after, flz, toAdd), flz, toDelete)[n] == after[n]
    {
      CarryingWithout(after[n], flz);
      CarryingWithout(pods[n], flz);
    }
  }
}
