/**
 The expected-finalizer annotation of pods: the controller's batched adds and deletes of one
 employer's entry, and the webhook that writes the same entries on pod creation.
 */
module Expected {
  import opened Basics
  import opened SlowStart
  import opened Pods
  import Text

  /** utils.GenerateLifecycleFinalizerKey */
  function LifecycleFinalizerKey(kind: string, namespace: string, name: string): string {
    kind + "/" + namespace + "/" + name
  }

  /** Different employers have different keys; none of the three parts contains a slash. */
  lemma KeysDistinct(k1: string, ns1: string, n1: string, k2: string, ns2: string, n2: string)
    requires '/' !in k1 && '/' !in ns1 && '/' !in n1 && '/' !in k2 && '/' !in ns2 && '/' !in n2
    requires LifecycleFinalizerKey(k1, ns1, n1) == LifecycleFinalizerKey(k2, ns2, n2)
    ensures k1 == k2 && ns1 == ns2 && n1 == n2
  {
    KeyIsJoin(k1, ns1, n1);
    KeyIsJoin(k2, ns2, n2);
    Text.SplitJoin([k1, ns1, n1], '/');
    Text.SplitJoin([k2, ns2, n2], '/');
    var parts1, parts2 := [k1, ns1, n1], [k2, ns2, n2];
    assert parts1 == parts2;
    assert parts1[0] == parts2[0] && parts1[1] == parts2[1] && parts1[2] == parts2[2];
  }

  lemma KeyIsJoin(k: string, ns: string, n: string)
    ensures LifecycleFinalizerKey(k, ns, n) == Text.Join([k, ns, n], '/')
  {
    assert [k, ns, n][1..] == [ns, n] && [ns, n][1..] == [n];
    assert Text.Join([ns, n], '/') == ns + ['/'] + n;
    assert k + "/" + ns + "/" + n == k + ['/'] + (ns + ['/'] + n);
  }

  predicate Carries(pod: Pod, key: string) {
    pod.available.Decoded? && key in pod.available.expected
  }

  /** The annotation with the entry added; an unreadable one is left alone. */
  function Put(available: Available, key: string, flz: string): Available {
    match available
    case Absent => Decoded(map[key := flz])
    case Malformed => Malformed
    case Decoded(expected) => Decoded(expected[key := flz])
  }

  function Cut(available: Available, key: string): Available {
    match available
    case Decoded(expected) => Decoded(expected - {key})
    case _ => available
  }

  /** The batch state: the pods, and the operations whose Succeed flag is set. */
  datatype Marks = Marks(pods: PodStore, succeed: set<nat>)

  /** One call of patchAddPodExpectedFinalizer. */
  function AddEntry(m: Marks, i: nat, name: string, key: string, flz: string, fault: Fault): (Marks, Err) {
    if fault.GetFails? then (m, Error("get failed"))
    else if name !in m.pods || m.pods[name].deleting then (m, Nil)
    else
      var pod := m.pods[name];
      if pod.available.Malformed? then (m, Error("unmarshal failed"))
      else if Carries(pod, key) && pod.available.expected[key] == flz then (m.(succeed := m.succeed + {i}), Nil)
      else if fault.WriteFails? then (m, Error("patch failed"))
      else (Marks(m.pods[name := pod.(available := Put(pod.available, key, flz))], m.succeed + {i}), Nil)
  }

  /** One call of patchDeletePodExpectedFinalizer. */
  function DeleteEntry(m: Marks, i: nat, name: string, key: string, fault: Fault): (Marks, Err) {
    if fault.GetFails? then (m, Error("get failed"))
    else if name !in m.pods || m.pods[name].available.Absent? then (m.(succeed := m.succeed + {i}), Nil)
    else
      var pod := m.pods[name];
      if pod.available.Malformed? then (m, Error("unmarshal failed"))
      else if !Carries(pod, key) then (m.(succeed := m.succeed + {i}), Nil)
      else if fault.WriteFails? then (m, Error("patch failed"))
      else (Marks(m.pods[name := pod.(available := Cut(pod.available, key))], m.succeed + {i}), Nil)
  }

  function WithEntry(pods: PodStore, key: string, flz: string, names: set<string>): PodStore {
    map n | n in pods :: n := if n in names then pods[n].(available := Put(pods[n].available, key, flz)) else pods[n]
  }

  function WithoutEntry(pods: PodStore, key: string, names: set<string>): PodStore {
    map n | n in pods :: n := if n in names then pods[n].(available := Cut(pods[n].available, key)) else pods[n]
  }

  /** The names at the given indices. */
  function At(names: seq<string>, indices: set<nat>): set<string> {
    set i | i in indices && i < |names| :: names[i]
  }

  /** A pod the add can act on. */
  predicate Open(pods: PodStore, name: string) {
    name in pods && !pods[name].deleting && !pods[name].available.Malformed?
  }

  /** A pod the delete can act on, or one with nothing to delete. */
  predicate Readable(pods: PodStore, name: string) {
    name in pods ==> !pods[name].available.Malformed?
  }

  /** No pod's annotation is unreadable. */
  ghost predicate AllReadable(pods: PodStore) {
    forall n :: n in pods ==> Readable(pods, n)
  }

  /** An add call has an answer without error only if the pod was read, and what it would change is readable. */
  predicate AddAnswered(pods: PodStore, name: string, fault: Fault) {
    !fault.GetFails? && (name in pods && !pods[name].deleting ==> !pods[name].available.Malformed?)
  }

  predicate DeleteAnswered(pods: PodStore, name: string, fault: Fault) {
    !fault.GetFails? && Readable(pods, name)
  }

  ghost predicate AddMarks(pods: PodStore, key: string, flz: string, names: seq<string>, m: Marks) {
    && (forall i :: i in m.succeed ==> i < |names| && Open(pods, names[i]))
    && m.pods == WithEntry(pods, key, flz, At(names, m.succeed))
  }

  ghost predicate DeleteMarks(pods: PodStore, key: string, names: seq<string>, m: Marks) {
    && (forall i :: i in m.succeed ==> i < |names| && Readable(pods, names[i]))
    && m.pods == WithoutEntry(pods, key, At(names, m.succeed))
  }

  lemma AtMore(names: seq<string>, indices: set<nat>, i: nat)
    requires i < |names|
    ensures At(names, indices + {i}) == At(names, indices) + {names[i]}
  {
  }

  lemma AddEntryStep(pods: PodStore, key: string, flz: string, names: seq<string>, m: Marks, i: nat, fault: Fault)
    requires AddMarks(pods, key, flz, names, m) && i < |names|
    ensures var (after, err) := AddEntry(m, i, names[i], key, flz, fault);
      && AddMarks(pods, key, flz, names, after)
      && after.succeed == m.succeed + (if err.Nil? && Open(pods, names[i]) then {i} else {})
      && (err.Nil? ==> AddAnswered(pods, names[i], fault))
      && (fault.NoFault? && Readable(pods, names[i]) ==> err.Nil?)
  {
    AtMore(names, m.succeed, i);
    var (after, err) := AddEntry(m, i, names[i], key, flz, fault);
    assert m.succeed + {} == m.succeed;
    if err.Nil? && Open(pods, names[i]) {
      PutTwice(pods[names[i]].available, key, flz);
      PutTwice(m.pods[names[i]].available, key, flz);
      assert after.pods == WithEntry(pods, key, flz, At(names, m.succeed) + {names[i]});
    }
  }

  lemma PutTwice(available: Available, key: string, flz: string)
    ensures Put(Put(available, key, flz), key, flz) == Put(available, key, flz)
    ensures available.Decoded? && key in available.expected && available.expected[key] == flz ==>
      Put(available, key, flz) == available
  {
  }

  lemma CutTwice(available: Available, key: string)
    ensures Cut(Cut(available, key), key) == Cut(available, key)
    ensures available.Decoded? && key !in available.expected ==> Cut(available, key) == available
  {
  }

  lemma DeleteEntryStep(pods: PodStore, key: string, names: seq<string>, m: Marks, i: nat, fault: Fault)
    requires DeleteMarks(pods, key, names, m) && i < |names|
    ensures var (after, err) := DeleteEntry(m, i, names[i], key, fault);
      && DeleteMarks(pods, key, names, after)
      && after.succeed == m.succeed + (if err.Nil? then {i} else {})
      && (err.Nil? ==> DeleteAnswered(pods, names[i], fault))
      && (fault.NoFault? && Readable(pods, names[i]) ==> err.Nil?)
  {
    AtMore(names, m.succeed, i);
    var (after, err) := DeleteEntry(m, i, names[i], key, fault);
    assert m.succeed + {} == m.succeed;
    if err.Nil? {
      if names[i] in pods {
        CutTwice(pods[names[i]].available, key);
        CutTwice(m.pods[names[i]].available, key);
      }
      assert after.pods == WithoutEntry(pods, key, At(names, m.succeed) + {names[i]});
    }
  }

  type Fn = (Marks, nat, Err) -> (Marks, Err)

  function AddEntryCall(key: string, flz: string, names: seq<string>, faults: Faults): Fn {
    (m: Marks, i: nat, _: Err) => if i < |names| then AddEntry(m, i, names[i], key, flz, faults(i)) else (m, Nil)
  }

  function DeleteEntryCall(key: string, names: seq<string>, faults: Faults): Fn {
    (m: Marks, i: nat, _: Err) => if i < |names| then DeleteEntry(m, i, names[i], key, faults(i)) else (m, Nil)
  }

  /** An add run marks the open pods whose call answered nil, and changes exactly the marked ones. */
  lemma {:induction false} AddEntryRun(pods: PodStore, key: string, flz: string, names: seq<string>, faults: Faults,
                                       calls: seq<Call>)
    requires Honest(AddEntryCall(key, flz, names, faults), Marks(pods, {}), calls)
    ensures var m := After(AddEntryCall(key, flz, names, faults), Marks(pods, {}), calls);
      && AddMarks(pods, key, flz, names, m)
      && forall k :: 0 <= k < |calls| && calls[k].index < |names| && Open(pods, names[calls[k].index]) ==>
           && (calls[k].result.Nil? ==> calls[k].index in m.succeed)
           && (faults(calls[k].index).NoFault? ==> calls[k].result.Nil?)
    ensures forall k :: 0 <= k < |calls| && calls[k].index < |names| && calls[k].result.Nil? ==>
      AddAnswered(pods, names[calls[k].index], faults(calls[k].index))
    ensures Undisturbed(names, faults) && AllReadable(pods) ==> Clean(calls)
  {
    if calls == [] {
      assert At(names, {}) == {};
    } else {
      var front, call := calls[..|calls| - 1], calls[|calls| - 1];
      AddEntryRun(pods, key, flz, names, faults, front);
      if call.index < |names| {
        AddEntryStep(pods, key, flz, names, After(AddEntryCall(key, flz, names, faults), Marks(pods, {}), front),
                     call.index, faults(call.index));
      }
      forall k | 0 <= k < |front| ensures calls[k] == front[k] { }
    }
  }

  lemma {:induction false} DeleteEntryRun(pods: PodStore, key: string, names: seq<string>, faults: Faults,
                                          calls: seq<Call>)
    requires Honest(DeleteEntryCall(key, names, faults), Marks(pods, {}), calls)
    ensures var m := After(DeleteEntryCall(key, names, faults), Marks(pods, {}), calls);
      && DeleteMarks(pods, key, names, m)
      && forall k :: 0 <= k < |calls| && calls[k].index < |names| ==>
           && (calls[k].result.Nil? ==> calls[k].index in m.succeed)
           && (faults(calls[k].index).NoFault? && Readable(pods, names[calls[k].index]) ==> calls[k].result.Nil?)
    ensures forall k :: 0 <= k < |calls| && calls[k].index < |names| && calls[k].result.Nil? ==>
      DeleteAnswered(pods, names[calls[k].index], faults(calls[k].index))
    ensures Undisturbed(names, faults) && AllReadable(pods) ==> Clean(calls)
  {
    if calls == [] {
      assert At(names, {}) == {};
    } else {
      var front, call := calls[..|calls| - 1], calls[|calls| - 1];
      DeleteEntryRun(pods, key, names, faults, front);
      if call.index < |names| {
        DeleteEntryStep(pods, key, names, After(DeleteEntryCall(key, names, faults), Marks(pods, {}), front),
                        call.index, faults(call.index));
      }
      forall k | 0 <= k < |front| ensures calls[k] == front[k] { }
    }
  }

  /** Every index of a full run was called. */
  lemma FullRunCall(waves: seq<Wave>, count: nat, i: nat) returns (k: nat)
    requires WaveByWave(waves) && Doubled(waves, count, 1) && Left(waves, count, 1).1 <= 0
    requires i < count
    ensures k < |Flatten(waves)| && Flatten(waves)[k].index == i
  {
    FullRunCallsEveryIndex(waves, count, 1);
    assert i in Indices(Flatten(waves));
    k :| 0 <= k < |Flatten(waves)| && Flatten(waves)[k].index == i;
  }

  /** patchAddPodExpectedFinalizer over the named operations. */
  method AddEntries(pods: PodStore, key: string, flz: string, names: seq<string>, faults: Faults)
    returns (after: PodStore, succeed: set<nat>, err: Err)
    ensures AddMarks(pods, key, flz, names, Marks(after, succeed))
    // an operation on an open pod is marked whenever its calls met no fault, and every one is if no error came back
    ensures forall i: nat :: i < |names| && Open(pods, names[i]) && (faults(i).NoFault? || err.Nil?) ==> i in succeed
    ensures Undisturbed(names, faults) && AllReadable(pods) ==> err.Nil?
    // and no error comes back only if every pod was read and found readable
    ensures err.Nil? ==> forall i: nat :: i < |names| ==> AddAnswered(pods, names[i], faults(i))
  {
    var fn := AddEntryCall(key, flz, names, faults);
    var _, gotErr, state, waves := SlowStartBatch(|names|, 1, false, fn, Marks(pods, {}));
    AddEntryRun(pods, key, flz, names, faults, Flatten(waves));
    HeldNilIffClean(waves);
    forall i: nat | i < |names| && Open(pods, names[i]) && (faults(i).NoFault? || gotErr.Nil?)
      ensures i in state.succeed
    {
      var k := FullRunCall(waves, |names|, i);
      assert gotErr.Nil? ==> Flatten(waves)[k].result.Nil?;
    }
    if gotErr.Nil? {
      forall i: nat | i < |names| ensures AddAnswered(pods, names[i], faults(i)) {
        var k := FullRunCall(waves, |names|, i);
        assert Flatten(waves)[k].result.Nil?;
      }
    }
    after, succeed, err := state.pods, state.succeed, gotErr;
  }

  /** patchDeletePodExpectedFinalizer over the named operations. */
  method DeleteEntries(pods: PodStore, key: string, names: seq<string>, faults: Faults)
    returns (after: PodStore, succeed: set<nat>, err: Err)
    ensures DeleteMarks(pods, key, names, Marks(after, succeed))
    ensures forall i: nat :: i < |names| && ((faults(i).NoFault? && Readable(pods, names[i])) || err.Nil?) ==> i in succeed
    ensures Undisturbed(names, faults) && AllReadable(pods) ==> err.Nil?
    // and no error comes back only if every pod was read and found readable
    ensures err.Nil? ==> forall i: nat :: i < |names| ==> DeleteAnswered(pods, names[i], faults(i))
  {
    var fn := DeleteEntryCall(key, names, faults);
    var _, gotErr, state, waves := SlowStartBatch(|names|, 1, false, fn, Marks(pods, {}));
    DeleteEntryRun(pods, key, names, faults, Flatten(waves));
    HeldNilIffClean(waves);
    forall i: nat | i < |names| && ((faults(i).NoFault? && Readable(pods, names[i])) || gotErr.Nil?)
      ensures i in state.succeed
    {
      var k := FullRunCall(waves, |names|, i);
      assert gotErr.Nil? ==> Flatten(waves)[k].result.Nil?;
    }
    if gotErr.Nil? {
      forall i: nat | i < |names| ensures DeleteAnswered(pods, names[i], faults(i)) {
        var k := FullRunCall(waves, |names|, i);
        assert Flatten(waves)[k].result.Nil?;
      }
    }
    after, succeed, err := state.pods, state.succeed, gotErr;
  }

  // ----- webhook -----

  datatype EmployerRef = EmployerRef(kind: string, namespace: string, name: string)

  function KeyOf(e: EmployerRef): string {
    LifecycleFinalizerKey(e.kind, e.namespace, e.name)
  }

  /**
   PodResourceConsistWebhook.Mutating: on creation, every employer of the new pod gets its entry.
   `finalizerOf` stands for GenerateLifecycleFinalizer.
   */
  method Mutating(pod: Pod, create: bool, employers: Option<seq<EmployerRef>>, finalizerOf: string -> string)
    returns (mutated: Pod, err: Err)
    ensures !create ==> mutated == pod && err.Nil?
    ensures create ==> (err.Error? <==> employers.None? || pod.available.Malformed?)
    ensures err.Error? ==> mutated == pod
    ensures create && err.Nil? ==>
      && mutated == pod.(available := mutated.available) && mutated.available.Decoded?
      && Entered(Entries(pod.available), mutated.available.expected, employers.value, finalizerOf)
  {
    mutated, err := pod, Nil;
    if !create {
      return;
    }
    if employers.None? {
      return pod, Error("get employers failed");
    }
    if pod.available.Malformed? {
      return pod, Error("unmarshal failed");
    }
    var expectedFinalizers := Entries(pod.available);
    for i := 0 to |employers.value|
      invariant Entered(Entries(pod.available), expectedFinalizers, employers.value[..i], finalizerOf)
    {
      assert employers.value[..i + 1] == employers.value[..i] + [employers.value[i]];
      var employer := employers.value[i];
      expectedFinalizers := expectedFinalizers[KeyOf(employer) := finalizerOf(employer.name)];
    }
    assert employers.value[..|employers.value|] == employers.value;
    mutated := pod.(available := Decoded(expectedFinalizers));
  }

  function Entries(available: Available): map<string, string> {
    if available.Decoded? then available.expected else map[]
  }

  /** The keys of the employers are added to those there were, and every other entry is kept. */
  ghost predicate Entered(before: map<string, string>, after: map<string, string>, employers: seq<EmployerRef>,
                          finalizerOf: string -> string) {
    && after.Keys == before.Keys + (set e | e in employers :: KeyOf(e))
    && (forall k :: k in before && !(exists e :: e in employers && KeyOf(e) == k) ==> after[k] == before[k])
    && (forall k :: k in after && (exists e :: e in employers && KeyOf(e) == k) ==>
          exists e :: e in employers && KeyOf(e) == k && after[k] == finalizerOf(e.name))
  }

  /**
   After the webhook has seen a new pod, the controller's add for any of its employers succeeds without
   a write: it is marked even when every write would be refused, and the pods stay as they are.
   */
  lemma WebhookThenController(pods: PodStore, name: string, employers: seq<EmployerRef>, e: EmployerRef,
                              finalizerOf: string -> string, i: nat, before: map<string, string>)
    requires name in pods && !pods[name].deleting && pods[name].available.Decoded?
    requires Entered(before, pods[name].available.expected, employers, finalizerOf)
    requires e in employers
    requires forall d :: d in employers ==> '/' !in d.kind && '/' !in d.namespace && '/' !in d.name
    ensures AddEntry(Marks(pods, {}), i, name, KeyOf(e), finalizerOf(e.name), WriteFails) == (Marks(pods, {i}), Nil)
  {
    assert KeyOf(e) in pods[name].available.expected;
    var d :| d in employers && KeyOf(d) == KeyOf(e)
          && pods[name].available.expected[KeyOf(e)] == finalizerOf(d.name);
    KeysDistinct(d.kind, d.namespace, d.name, e.kind, e.namespace, e.name);
    assert {} + {i} == {i};
  }

  /** Adding an absent entry and deleting it again restores the decoded map. */
  lemma AddThenDelete(available: Available, key: string, flz: string)
    requires available.Decoded? && key !in available.expected
    ensures Cut(Put(available, key, flz), key) == available
  {
  }

  // ----- two employers on one pod -----

  /** One atomic step of an employer's batch: its call for one pod. */
  datatype Operation = AddOf(key: string, flz: string) | DeleteOf(key: string)

  /** The pods after the call, whether it set its Succeed flag, and its answer. */
  function Perform(op: Operation, pods: PodStore, name: string, fault: Fault): (PodStore, bool, Err) {
    var (m, err) := match op
      case AddOf(key, flz) => AddEntry(Marks(pods, {}), 0, name, key, flz, fault)
      case DeleteOf(key) => DeleteEntry(Marks(pods, {}), 0, name, key, fault);
    (m.pods, 0 in m.succeed, err)
  }

  lemma EntriesApart(available: Available, k1: string, f1: string, k2: string, f2: string)
    requires k1 != k2
    ensures Put(Put(available, k1, f1), k2, f2) == Put(Put(available, k2, f2), k1, f1)
    ensures Cut(Put(available, k1, f1), k2) == Put(Cut(available, k2), k1, f1)
    ensures Cut(Cut(available, k1), k2) == Cut(Cut(available, k2), k1)
  {
    if available.Decoded? {
      var m := available.expected;
      assert m[k1 := f1][k2 := f2] == m[k2 := f2][k1 := f1];
      assert m[k1 := f1] - {k2} == (m - {k2})[k1 := f1];
      assert m - {k1} - {k2} == m - {k2} - {k1};
    } else if available.Absent? {
      assert map[k1 := f1][k2 := f2] == map[k2 := f2][k1 := f1];
      assert map[k1 := f1] - {k2} == map[k1 := f1];
    }
  }

  /** What a step writes, if it writes. */
  function Written(op: Operation, available: Available): Available {
    match op
    case AddOf(key, flz) => Put(available, key, flz)
    case DeleteOf(key) => Cut(available, key)
  }

  /** A step writes its pod or nothing; whether it does, and what it answers, is decided by its own entry alone. */
  predicate Writes(op: Operation, pods: PodStore, name: string, fault: Fault) {
    && fault.NoFault? && name in pods && !pods[name].available.Malformed?
    && match op
       case AddOf(key, flz) =>
         !pods[name].deleting && !(Carries(pods[name], key) && pods[name].available.expected[key] == flz)
       case DeleteOf(key) => Carries(pods[name], key)
  }

  lemma PerformMeans(op: Operation, pods: PodStore, name: string, fault: Fault)
    ensures Perform(op, pods, name, fault).0 ==
      if Writes(op, pods, name, fault) then pods[name := pods[name].(available := Written(op, pods[name].available))] else pods
  {
  }

  /** What a step on another key does to a pod is not seen by this one's decision and answer. */
  lemma Unseen(op: Operation, pods: PodStore, name: string, fault: Fault, other: Operation, otherName: string, otherFault: Fault)
    requires op.key != other.key
    ensures var (after, marked, err) := Perform(op, pods, name, fault);
            var (_, marked', err') := Perform(op, Perform(other, pods, otherName, otherFault).0, name, fault);
      marked == marked' && err == err'
    ensures Writes(op, Perform(other, pods, otherName, otherFault).0, name, fault) == Writes(op, pods, name, fault)
  {
    PerformMeans(other, pods, otherName, otherFault);
  }

  lemma WrittenApart(op: Operation, other: Operation, available: Available)
    requires op.key != other.key
    ensures Written(op, Written(other, available)) == Written(other, Written(op, available))
  {
    var f1, f2 := if op.AddOf? then op.flz else "", if other.AddOf? then other.flz else "";
    EntriesApart(available, op.key, f1, other.key, f2);
    EntriesApart(available, other.key, f2, op.key, f1);
  }

  /**
   Atomic steps of employers with distinct keys commute, on the same pod or not, whatever faults they meet: either
   order leaves the same pods and gives each step the same flag and answer.
   */
  lemma DistinctKeysCommute(pods: PodStore, op1: Operation, n1: string, fault1: Fault,
                            op2: Operation, n2: string, fault2: Fault)
    requires op1.key != op2.key
    ensures var (first, marked1, err1) := Perform(op1, pods, n1, fault1);
            var (second, marked2, err2) := Perform(op2, pods, n2, fault2);
            var (both, marked2', err2') := Perform(op2, first, n2, fault2);
            var (both', marked1', err1') := Perform(op1, second, n1, fault1);
      both == both' && marked1 == marked1' && err1 == err1' && marked2 == marked2' && err2 == err2'
  {
    var first, second := Perform(op1, pods, n1, fault1).0, Perform(op2, pods, n2, fault2).0;
    PerformMeans(op1, pods, n1, fault1);
    PerformMeans(op2, pods, n2, fault2);
    PerformMeans(op2, first, n2, fault2);
    PerformMeans(op1, second, n1, fault1);
    Unseen(op2, pods, n2, fault2, op1, n1, fault1);
    Unseen(op1, pods, n1, fault1, op2, n2, fault2);
    hide Perform, Writes, Written;
    if n1 == n2 && n1 in pods {
      WrittenApart(op1, op2, pods[n1].available);
    }
  }

  /** A step leaves every other pod, every other key's entry, and everything but the annotation alone. */
  lemma OthersLeftAlone(pods: PodStore, op: Operation, name: string, fault: Fault, n: string, key: string)
    requires key != op.key
    ensures var after := Perform(op, pods, name, fault).0;
      && (n in after <==> n in pods)
      && (n in pods ==>
           && after[n] == pods[n].(available := after[n].available)
           && (n != name ==> after[n] == pods[n])
           && (Carries(after[n], key) <==> Carries(pods[n], key))
           && (Carries(pods[n], key) ==> after[n].available.expected[key] == pods[n].available.expected[key]))
  {
    PerformMeans(op, pods, name, fault);
  }
}
