/**
 The Consist reconciler as written: phases that read and write the API server and the
 provider, a local employer object changed in place and written back. Each phase is proved
 to be the corresponding step of the transition system, so every run theorem is about it.
 */
module Consist {
  import opened Basics
  import opened Pods
  import opened Expected
  import opened Diff
  import opened Provider
  import opened Adapter
  import opened Machine
  import opened Runs
  import opened Record
  import opened Pass
  import Text

  /** The in-memory employer object a pass works on. */
  class EmployerObject {
    var deleting: bool
    var finalizers: seq<string>
    var added: string
    var recorded: string

    constructor (e: Employer)
      ensures Value() == e
    {
      deleting, finalizers, added, recorded := e.deleting, e.finalizers, e.added, e.recorded;
    }

    function Value(): Employer
      reads this
    {
      Employer(deleting, finalizers, added, recorded)
    }

    /** Decoding a server answer into the object. */
    method Refresh(e: Employer)
      modifies this
      ensures Value() == e
    {
      deleting, finalizers, added, recorded := e.deleting, e.finalizers, e.added, e.recorded;
    }
  }

  class Consist {
    const cfg: Config
    var employer: Option<Employer>
    var pods: PodStore
    var vips: map<string, Vip>
    var backends: map<string, Employee>

    constructor (cfg: Config, w: World)
      ensures this.cfg == cfg && Now() == w
    {
      this.cfg := cfg;
      employer, pods, vips, backends := w.employer, w.pods, w.vips, w.backends;
    }

    function Now(): World
      reads this
    {
      World(employer, pods, vips, backends)
    }

    /** The backend store is indexed by the entries' own ids. */
    ghost predicate Valid()
      reads this
    {
      Keyed(VipId, vips) && Keyed(EmployeeId, backends)
    }

    // ----- the clean finalizer -----

    /** The filter loop of ensureEmployerCleanFlz: stops at once on a list that already holds the clean finalizer. */
    method KeepForEnsure(held: seq<string>) returns (found: bool, finalizers: seq<string>)
      ensures found <==> CLEAN in held
      ensures !found ==> finalizers == Without(held, OldClean(cfg.name))
    {
      hide Without;
      WithoutNothing(OldClean(cfg.name));
      found, finalizers := false, [];
      for i := 0 to |held|
        invariant !found && CLEAN !in held[..i]
        invariant finalizers == Without(held[..i], OldClean(cfg.name))
      {
        assert held[..i + 1] == held[..i] + [held[i]];
        WithoutSnoc(held[..i], held[i], OldClean(cfg.name));
        if held[i] == CLEAN {
          return true, finalizers;
        }
        if held[i] == OldClean(cfg.name) {
          continue;
        }
        finalizers := finalizers + [held[i]];
      }
      assert held[..|held|] == held;
    }

    /** ensureEmployerCleanFlz */
    method EnsureEmployerCleanFlz(local: EmployerObject, updateFails: bool) returns (updated: bool, err: Err)
      modifies this`employer, local`finalizers
      ensures updated <==> NeedsClean(old(local.Value()))
      ensures !updated ==> err.Nil? && Now() == old(Now()) && local.Value() == old(local.Value())
      ensures updated ==> CleanStep(cfg, old(Now()), old(local.Value()), err.Nil?, Now())
      ensures updated ==> (err.Nil? <==> !updateFails && old(employer) == Some(old(local.Value())))
    {
      updated, err := false, Nil;
      if local.deleting {
        return;
      }
      var found, finalizers := KeepForEnsure(local.finalizers);
      if found {
        return;
      }
      var stored := employer == Some(local.Value());
      local.finalizers := finalizers + [CLEAN];
      updated := true;
      if updateFails || !stored {
        err := Error("update conflict");
      } else {
        employer := Some(local.Value());
      }
    }

    /** The filter loop of cleanEmployerCleanFinalizer: the new and the legacy clean finalizer are both left out. */
    method KeepForClean(held: seq<string>) returns (alreadyDeleted: bool, finalizers: seq<string>)
      ensures alreadyDeleted <==> CLEAN !in held && OldClean(cfg.name) !in held
      ensures finalizers == Without(Without(held, OldClean(cfg.name)), CLEAN)
    {
      hide Without;
      WithoutNothing(OldClean(cfg.name));
      WithoutNothing(CLEAN);
      alreadyDeleted, finalizers := true, [];
      for i := 0 to |held|
        invariant alreadyDeleted <==> CLEAN !in held[..i] && OldClean(cfg.name) !in held[..i]
        invariant finalizers == Without(Without(held[..i], OldClean(cfg.name)), CLEAN)
      {
        var flz := held[i];
        assert held[..i + 1] == held[..i] + [flz];
        WithoutSnoc(held[..i], flz, OldClean(cfg.name));
        if flz != OldClean(cfg.name) {
          WithoutSnoc(Without(held[..i], OldClean(cfg.name)), flz, CLEAN);
        }
        if flz == OldClean(cfg.name) {
          alreadyDeleted := false;
          continue;
        }
        if flz == CLEAN {
          alreadyDeleted := false;
          continue;
        }
        finalizers := finalizers + [flz];
      }
      assert held[..|held|] == held;
    }

    /** cleanEmployerCleanFinalizer: the reconciled list, filtered, is written onto the latest object. */
    method CleanEmployerCleanFinalizer(local: EmployerObject, getFails: bool, updateFails: bool) returns (err: Err)
      modifies this`employer
      ensures GateStep(cfg, old(Now()), local.Value(), true, !getFails && !updateFails, Now())
      ensures err.Error? <==> (getFails || (updateFails && old(employer).Some?
        && (CLEAN in local.finalizers || OldClean(cfg.name) in local.finalizers)))
    {
      err := Nil;
      if getFails {
        return Error("get failed");
      }
      if employer.None? {
        return;
      }
      var alreadyDeleted, finalizers := KeepForClean(local.finalizers);
      if alreadyDeleted {
        return;
      }
      if updateFails {
        return Error("update failed");
      }
      employer := SettleEmployer(employer.value.(finalizers := finalizers));
    }

    // ----- expected finalizers -----

    /** patchPodExpectedFinalizer: the adds, then the deletes, whatever the adds reported. */
    method PatchPodExpectedFinalizer(toAdd: seq<string>, toDelete: seq<string>, addFaults: Faults, deleteFaults: Faults)
      returns (addOk: set<nat>, deleteOk: set<nat>, err: Err)
      modifies this`pods
      ensures forall i :: i in addOk ==> i < |toAdd| && Open(old(pods), toAdd[i])
      ensures forall i :: i in deleteOk ==> i < |toDelete| && Readable(old(pods), toDelete[i])
      ensures pods == WithoutEntry(WithEntry(old(pods), cfg.key, cfg.flz, At(toAdd, addOk)), cfg.key, At(toDelete, deleteOk))
      ensures forall i: nat :: i < |toAdd| && Open(old(pods), toAdd[i]) && (addFaults(i).NoFault? || err.Nil?) ==> i in addOk
      ensures forall i: nat :: i < |toDelete| && Readable(old(pods), toDelete[i]) && (deleteFaults(i).NoFault? || err.Nil?) ==>
        i in deleteOk
      ensures Undisturbed(toAdd, addFaults) && Undisturbed(toDelete, deleteFaults) && AllReadable(old(pods)) ==>
        err.Nil? && Covers(deleteOk, |toDelete|)
      ensures err.Nil? ==>
        && (forall i: nat :: i < |toAdd| ==> AddAnswered(old(pods), toAdd[i], addFaults(i)))
        && (forall i: nat :: i < |toDelete| ==> DeleteAnswered(old(pods), toDelete[i], deleteFaults(i)))
    {
      var afterAdd, ok1, errAdd := AddEntries(pods, cfg.key, cfg.flz, toAdd, addFaults);
      var afterDelete, ok2, errDelete := DeleteEntries(afterAdd, cfg.key, toDelete, deleteFaults);
      addOk, deleteOk, pods := ok1, ok2, afterDelete;
      err := if errAdd.Error? then errAdd else errDelete;
    }

    /** The names of xs missing from ys, collected into operations. */
    method CollectMissing(xs: seq<string>, ys: seq<string>) returns (missing: seq<string>)
      ensures missing == Unlisted(xs, ys)
    {
      var known := set y | y in ys;
      missing := [];
      for i := 0 to |xs|
        invariant missing == Unlisted(xs[..i], ys)
      {
        assert xs[..i + 1] == xs[..i] + [xs[i]];
        UnlistedSnoc(xs[..i], xs[i], ys);
        if xs[i] !in known {
          missing := missing + [xs[i]];
        }
      }
      assert xs[..|xs|] == xs;
    }

    /** The operations whose flag is set, and those whose flag is not, in order. */
    method Flagged(ops: seq<string>, succeed: set<nat>) returns (done: seq<string>, notDone: seq<string>)
      ensures done == Pick(ops, succeed) && notDone == PickNot(ops, succeed)
    {
      done, notDone := [], [];
      for i := 0 to |ops|
        invariant done == Pick(ops[..i], succeed) && notDone == PickNot(ops[..i], succeed)
      {
        assert ops[..i + 1][..i] == ops[..i];
        if i in succeed {
          done := done + [ops[i]];
        } else {
          notDone := notDone + [ops[i]];
        }
      }
      assert ops[..|ops|] == ops;
    }

    /** ensureExpectedFinalizerNotNeedRecord */
    method EnsureExpectedNotNeedRecord(local: EmployerObject, selected: seq<string>, addFaults: Faults,
                                       deleteFaults: Faults)
      returns (clean: bool, err: Err, ghost x: ExpectRun)
      requires !cfg.recordExpected
      modifies this`pods
      ensures x.selected == selected && ExpectStep(cfg, old(Now()), local.Value(), x, Now())
      ensures err.Error? == ExpectErr(cfg, local.Value(), x) && (err.Nil? ==> clean == ExpectClean(cfg, local.Value(), x))
      ensures x.patchOk && Served(old(pods), x, addFaults, deleteFaults)
      ensures Faultless(addFaults) && Faultless(deleteFaults) && AllReadable(old(pods)) ==>
        err.Nil? && !x.podErr && Covers(x.deleteOk, |x.toDelete|)
    {
      var toAdd := if local.deleting then [] else selected;
      var toDelete := if local.deleting then selected else [];
      var addOk, deleteOk, errPatch := PatchPodExpectedFinalizer(toAdd, toDelete, addFaults, deleteFaults);
      x := ExpectRun(selected, toAdd, toDelete, addOk, deleteOk, errPatch.Error?, true);
      err := errPatch;
      var _, notDone := Flagged(toDelete, deleteOk);
      clean := local.deleting && notDone == [];
    }

    /** Writes the record if its text changed; a successful patch refreshes the local object. */
    method PatchRecord(local: EmployerObject, names: seq<string>, patchFails: bool) returns (patched: bool, err: Err)
      modifies this`employer, local
      ensures var text := Text.Join(names, ',');
        && (text == old(local.added) ==>
              !patched && err.Nil? && Now() == old(Now()) && local.Value() == old(local.Value()))
        && (text != old(local.added) ==> patched && (err.Nil? <==> !patchFails && old(employer).Some?))
        && (patched && err.Nil? ==>
              && Now() == old(Now()).(employer := Some(old(employer).value.(added := text)))
              && local.Value() == employer.value)
        && (err.Error? ==> Now() == old(Now()))
    {
      var text := Text.Join(names, ',');
      patched, err := false, Nil;
      if local.added == text {
        return;
      }
      local.added := text;
      patched := true;
      if patchFails || employer.None? {
        return true, Error("patch failed");
      }
      employer := Some(employer.value.(added := text));
      local.Refresh(employer.value);
    }

    /** The first half of ensureExpectedFinalizerNeedRecord: the names to add and delete, and the pod patches. */
    method PatchPodsByRecord(local: EmployerObject, selected: seq<string>, addFaults: Faults, deleteFaults: Faults,
                             ghost patchOk: bool)
      returns (record: seq<string>, err: Err, ghost x: ExpectRun)
      requires cfg.recordExpected
      modifies this`pods
      ensures x.selected == selected && x.podErr == err.Error? && x.patchOk == patchOk
      ensures ExpectPlan(cfg, local.Value(), x) && record == ExpectRecord(local.Value(), x)
      ensures pods == ExpectPods(cfg, old(pods), x) && Served(old(pods), x, addFaults, deleteFaults)
      ensures forall i :: i in x.deleteOk ==> i < |x.toDelete| && Readable(old(pods), x.toDelete[i])
      ensures forall i :: i in x.addOk ==> i < |x.toAdd| && Open(old(pods), x.toAdd[i])
      ensures Faultless(addFaults) && Faultless(deleteFaults) && AllReadable(old(pods)) ==>
        err.Nil? && !x.podErr && Covers(x.deleteOk, |x.toDelete|)
    {
      var names := Text.Split(local.added, ',');
      var toAdd: seq<string> := [];
      var toDelete: seq<string>;
      if local.deleting {
        toDelete := Text.ListOf((set n | n in names) + (set n | n in selected));
      } else {
        toDelete := CollectMissing(names, selected);
        toAdd := CollectMissing(selected, names);
      }
      var addOk, deleteOk, errPatchEmployees := PatchPodExpectedFinalizer(toAdd, toDelete, addFaults, deleteFaults);
      record := NewRecord(local.deleting, names, toAdd, toDelete, addOk, deleteOk);
      err := errPatchEmployees;
      x := ExpectRun(selected, toAdd, toDelete, addOk, deleteOk, err.Error?, patchOk);
    }

    /** ensureExpectedFinalizerNeedRecord */
    method EnsureExpectedNeedRecord(local: EmployerObject, selected: seq<string>, addFaults: Faults,
                                    deleteFaults: Faults, patchFails: bool)
      returns (clean: bool, err: Err, ghost x: ExpectRun)
      requires cfg.recordExpected
      modifies this`pods, this`employer, local
      ensures x.selected == selected && ExpectStep(cfg, old(Now()), old(local.Value()), x, Now())
      ensures err.Error? == ExpectErr(cfg, old(local.Value()), x)
      ensures err.Nil? ==> clean == ExpectClean(cfg, old(local.Value()), x)
      ensures err.Nil? ==> local.Value() == ExpectLocal(cfg, old(local.Value()), x, Now())
      ensures x.patchOk == (!patchFails && old(employer).Some?) && Served(old(pods), x, addFaults, deleteFaults)
      ensures Faultless(addFaults) && Faultless(deleteFaults) && AllReadable(old(pods)) && x.patchOk ==>
        err.Nil? && !x.podErr && Covers(x.deleteOk, |x.toDelete|)
      ensures old(employer).Some? ==> employer.Some?
    {
      hide ExpectPlan, ExpectPods, ExpectRecord, Faultless, AllReadable, Served;
      var record, errPatchEmployees;
      record, errPatchEmployees, x :=
        PatchPodsByRecord(local, selected, addFaults, deleteFaults, !patchFails && employer.Some?);
      var wasDeleting := local.deleting;
      var patched, errPatch := PatchRecord(local, record, patchFails);
      clean, err := record == [], errPatch;
      if patched && err.Nil? && !wasDeleting {
        err := errPatchEmployees;
      }
    }

    /** The names to record: what was not deleted, and on a live employer also what was added. */
    method NewRecord(deleting: bool, names: seq<string>, toAdd: seq<string>, toDelete: seq<string>,
                     addOk: set<nat>, deleteOk: set<nat>)
      returns (record: seq<string>)
      ensures record == if deleting then PickNot(toDelete, deleteOk)
                        else Unlisted(names, Pick(toDelete, deleteOk)) + Pick(toAdd, addOk)
    {
      var deleted, notDeleted := Flagged(toDelete, deleteOk);
      if deleting {
        return notDeleted;
      }
      var kept := CollectMissing(names, deleted);
      var added, _ := Flagged(toAdd, addOk);
      record := kept + added;
    }

    /** ensureExpectedFinalizer, for pods as employees; `selected` is the adapter's answer, or its error. */
    method EnsureExpectedFinalizer(local: EmployerObject, selected: Option<seq<string>>, addFaults: Faults,
                                   deleteFaults: Faults, patchFails: bool)
      returns (clean: bool, err: Err, ghost x: ExpectRun)
      modifies this`pods, this`employer, local
      ensures !cfg.follow ==> clean && err.Nil? && Now() == old(Now()) && local.Value() == old(local.Value())
      ensures cfg.follow && selected.None? ==> err.Error? && Now() == old(Now())
      ensures cfg.follow && selected.Some? ==>
        && x.selected == selected.value && ExpectStep(cfg, old(Now()), old(local.Value()), x, Now())
        && x.patchOk == (!cfg.recordExpected || (!patchFails && old(employer).Some?))
        && Served(old(pods), x, addFaults, deleteFaults)
        && err.Error? == ExpectErr(cfg, old(local.Value()), x)
        && (err.Nil? ==>
              && clean == ExpectClean(cfg, old(local.Value()), x)
              && local.Value() == ExpectLocal(cfg, old(local.Value()), x, Now()))
      ensures (Faultless(addFaults) && Faultless(deleteFaults) && AllReadable(old(pods)) && selected.Some?
        && !patchFails && old(employer).Some?) ==> err.Nil? && employer.Some? && Flawless(Expect(x))
      ensures Undeterred(cfg, old(local.Value())) && selected.Some? && !patchFails && old(employer).Some? ==>
        err.Nil? && employer.Some?
    {
      clean, err, x := true, Nil, ExpectRun([], [], [], {}, {}, false, true);
      if !cfg.follow {
        return;
      }
      if selected.None? {
        clean, err := false, Error("get selected employees' names failed");
        return;
      }
      if cfg.recordExpected {
        clean, err, x := EnsureExpectedNeedRecord(local, selected.value, addFaults, deleteFaults, patchFails);
      } else {
        clean, err, x := EnsureExpectedNotNeedRecord(local, selected.value, addFaults, deleteFaults);
      }
    }

    // ----- the two syncs -----

    /** syncEmployer; `current` is what the adapter reports of the store. */
    method SyncEmployer(expected: seq<Vip>, current: seq<Vip>, replies: Replies)
      returns (isClean: bool, failedExist: bool, cud: Cud<Vip>, err: Err)
      modifies this`vips
      ensures !Comparable(ById(VipId, expected), ById(VipId, current), cfg.vipEqual) ==> err.Error? && vips == old(vips)
      ensures Comparable(ById(VipId, expected), ById(VipId, current), cfg.vipEqual) ==>
        && Synced(VipId, cfg.vipEqual, ById(VipId, expected), ById(VipId, current),
                  Applied(VipId, ById(VipId, current), cud), cud)
        && vips == Applied(VipId, old(vips), cud)
        && isClean == IsClean(cud) && failedExist == FailedExist(cud)
        && (err.Error? <==> CallFails(replies)) && Obeys(VipId, replies, cud)
    {
      hide Synced, ById, Comparable, IsClean, FailedExist, Applied, Obeys;
      vips, cud, err := SyncStore(VipId, cfg.vipEqual, expected, current, vips, replies);
      isClean, failedExist := IsClean(cud), FailedExist(cud);
    }

    /** The recorded names no longer selected; the adapter is asked for the selection only if there is a record. */
    method UnselectedRecorded(local: EmployerObject, selected: Option<seq<string>>)
      returns (unselected: seq<string>, err: Err)
      ensures err.Error? <==> selected.None? && NeedRecord(cfg) && local.recorded != ""
      ensures err.Nil? ==> unselected == Unselected(cfg, local.Value(), Answer(selected))
    {
      unselected, err := [], Nil;
      if cfg.follow && cfg.recordLifecycle && local.recorded != "" {
        if selected.None? {
          return [], Error("GetSelectedEmployeeNames failed");
        }
        var recordedEmployees := Text.Split(local.recorded, ',');
        unselected := CollectMissing(recordedEmployees, selected.value);
      }
    }

    /** The lifecycle record is rewritten only if it is not already a permutation of the add list. */
    method PatchLifecycleRecord(local: EmployerObject, toAdd: seq<string>, patchFails: bool) returns (err: Err)
      modifies this`employer, local
      ensures var patch := if NeedRecord(cfg) then RecordPatch(old(local.recorded), toAdd) else None;
        && (patch.None? ==> err.Nil? && Now() == old(Now()) && local.Value() == old(local.Value()))
        && (patch.Some? ==> (err.Nil? <==> !patchFails && old(employer).Some?))
        && (patch.Some? && err.Nil? ==>
              && Now() == old(Now()).(employer := Some(old(employer).value.(recorded := patch.value)))
              && local.Value() == employer.value)
        && (err.Error? ==> Now() == old(Now()))
    {
      err := Nil;
      if !(cfg.follow && cfg.recordLifecycle) {
        return;
      }
      var needUpdate := false;
      var toRecord := toAdd;
      if local.recorded == "" {
        needUpdate := |toAdd| != 0;
      } else {
        var recordedEmployees := Text.Split(local.recorded, ',');
        if |recordedEmployees| != |toAdd| {
          needUpdate := true;
        } else {
          recordedEmployees := Text.Sort(recordedEmployees);
          toRecord := Text.Sort(toAdd);
          needUpdate := recordedEmployees != toRecord;
        }
      }
      if needUpdate {
        local.recorded := Text.Join(toRecord, ',');
        if patchFails || employer.None? {
          return Error("patch lifecycleFinalizerRecordedAnno failed");
        }
        employer := Some(employer.value.(recorded := local.recorded));
        local.Refresh(employer.value);
      }
    }

    /** syncEmployees; `current` is what the adapter reports of the store. */
    method SyncEmployees(local: EmployerObject, expected: seq<Employee>, current: seq<Employee>, replies: Replies,
                         selected: Option<seq<string>>, addFaults: Faults, deleteFaults: Faults, patchFails: bool)
      returns (isClean: bool, failedExist: bool, cud: Cud<Employee>, err: Err, ghost b: BackendRun)
      modifies this`pods, this`backends, this`employer, local
      ensures !Comparable(ById(EmployeeId, expected), ById(EmployeeId, current), cfg.employeeEqual) ==>
        err.Error? && Now() == old(Now())
      ensures Comparable(ById(EmployeeId, expected), ById(EmployeeId, current), cfg.employeeEqual) ==>
        && b.expected == expected && b.cud == cud && (err.Nil? <==> b.stage.Done?)
        && Synced(EmployeeId, cfg.employeeEqual, ById(EmployeeId, expected), ById(EmployeeId, current),
                  Applied(EmployeeId, ById(EmployeeId, current), cud), cud)
        && backends == Applied(EmployeeId, old(backends), cud)
        && FinalizerStep(cfg, old(Now()).(backends := backends), old(local.Value()), b, Now(),
                         if err.Nil? then local.Value() else old(local.Value()))
        && isClean == IsClean(cud) && failedExist == FailedExist(cud)
        && Obeys(EmployeeId, replies, cud) && (b.stage.AdapterFailed? <==> CallFails(replies))
        && StageMeans(cfg, old(employer), old(local.Value()), selected, addFaults, deleteFaults, patchFails, b)
      ensures old(employer).Some? ==> employer.Some?
    {
      hide Synced, FinalizerStep, Comparable, ById, IsClean, FailedExist, Applied, Obeys, Faultless;
      backends, cud, err := SyncStore(EmployeeId, cfg.employeeEqual, expected, current, backends, replies);
      isClean, failedExist := IsClean(cud), FailedExist(cud);
      b := BackendRun(expected, cud, [], {}, {}, AdapterFailed);
      NothingWritten(cfg, Now(), local.Value(), b);
      if err.Nil? {
        err, b := FinalizersAndRecord(local, expected, cud, selected, addFaults, deleteFaults, patchFails);
      }
    }

    /** The rest of syncEmployees, after the adapter calls went through. */
    method FinalizersAndRecord(local: EmployerObject, ghost expected: seq<Employee>, cud: Cud<Employee>,
                               selected: Option<seq<string>>, addFaults: Faults, deleteFaults: Faults, patchFails: bool)
      returns (err: Err, ghost b: BackendRun)
      modifies this`pods, this`employer, local
      ensures b.expected == expected && b.cud == cud && (err.Nil? <==> b.stage.Done?)
      ensures FinalizerStep(cfg, old(Now()), old(local.Value()), b, Now(),
                            if err.Nil? then local.Value() else old(local.Value()))
      ensures !b.stage.AdapterFailed?
      ensures StageMeans(cfg, old(employer), old(local.Value()), selected, addFaults, deleteFaults, patchFails, b)
      ensures old(employer).Some? ==> employer.Some?
    {
      hide AddNames, DeleteNames, RecordPatch, WithFinalizer, WithoutFinalizer, Unselected;
      var toAdd, toDelete := GetToAddDelete(cfg.follow, cud);
      var unselected, errSelect := UnselectedRecorded(local, selected);
      b := BackendRun(expected, cud, Answer(selected), {}, {}, SelectionFailed);
      NoFinalizers(pods, cfg.flz);
      if errSelect.Error? {
        return errSelect, b;
      }
      toDelete := toDelete + unselected;
      assert toAdd == AllAdds(cfg, b) && toDelete == AllDeletes(cfg, local.Value(), b);
      var after, errFlz, added, removed := EnsureLifecycleFinalizer(pods, cfg.flz, toAdd, toDelete, addFaults, deleteFaults);
      pods := after;
      b := b.(added := added, removed := removed, stage := FinalizerFailed);
      if errFlz.Error? {
        return errFlz, b;
      }
      err := PatchLifecycleRecord(local, toAdd, patchFails);
      b := b.(stage := if err.Nil? then Done else PatchFailed);
    }

    // ----- the pass -----

    /** The run so far ends in the present world, at the given point of the pass, and heeds the answers of the pass. */
    ghost predicate Tracks(run: Run, pc: Pc, env: PassEnv)
      reads this
    {
      run.states != [] && IsRun(cfg, run) && Last(run).w == Now() && Last(run).pc == pc && AllHeeded(cfg, env, run)
    }

    /** Records one more step of the run. */
    ghost method Advance(run: Run, l: Label, pc: Pc, env: PassEnv) returns (run': Run)
      requires IsRun(cfg, run) && AllHeeded(cfg, env, run) && Takes(cfg, env, run, l, Now(), pc)
      ensures Tracks(run', pc, env) && Extends(run, run') && run'.labels == run.labels + [l]
    {
      hide Step, Heeds, AllHeeded;
      var s := Next(cfg, run, l, Now(), pc);
      run' := Extend(run, l, s);
      ExtendRun(cfg, run, l, s);
      ExtendHeeded(cfg, env, run, l, s);
    }

    lemma Tracked(run: Run, pc: Pc, env: PassEnv)
      requires Tracks(run, pc, env)
      ensures run.states != [] && IsRun(cfg, run) && Last(run).w == Now() && Last(run).pc == pc && AllHeeded(cfg, env, run)
    {
    }

    /** Everybody else's moves between two phases. */
    method Interfere(moves: seq<Move>, ghost env: PassEnv, ghost k: nat, ghost run: Run, ghost pc: Pc)
      returns (ghost run': Run)
      requires Tracks(run, pc, env) && Valid()
      requires moves == Between(env, k)
      modifies this
      ensures Tracks(run', pc, env) && Valid() && Extends(run, run')
      ensures vips == old(vips) && backends == old(backends)
      ensures moves == [] ==> Now() == old(Now()) && run' == run
    {
      hide IsRun, AllHeeded, Takes, Step, Disturb;
      run' := run;
      for i := 0 to |moves|
        invariant Tracks(run', pc, env) && Valid() && Extends(run, run')
        invariant vips == old(vips) && backends == old(backends)
        invariant i == 0 ==> Now() == old(Now()) && run' == run
      {
        var w := Disturb(cfg, Now(), moves[i]);
        MoveKeepsStores(cfg, Now(), moves[i]);
        TakesMove(cfg, env, k, run', moves[i], w, pc);
        employer, pods := w.employer, w.pods;
        run' := Advance(run', Env(moves[i]), pc, env);
      }
    }

    lemma MoveKeepsStores(cfg: Config, w: World, move: Move)
      ensures Disturb(cfg, w, move).vips == w.vips && Disturb(cfg, w, move).backends == w.backends
    {
    }

    method EnsurePhase(local: EmployerObject, env: PassEnv, ghost run: Run)
      returns (updated: bool, err: Err, ghost run': Run)
      requires Tracks(run, Fetched(local.Value()), env) && Valid()
      modifies this`employer, local`finalizers
      ensures Tracks(run', if updated then Idle else Ensured(local.Value()), env)
      ensures Valid() && Extends(run, run') && !ReachedGate(run')
      ensures err.Error? ==> updated
      ensures updated <==> NeedsClean(old(local.Value()))
      ensures !updated ==> Now() == old(Now()) && local.Value() == old(local.Value())
      ensures run'.labels == run.labels + [EnsureClean(err.Nil?)] && (err.Nil? ==> Went(run, run', 1))
      ensures updated && !env.updateFails && old(employer) == Some(old(local.Value())) ==> err.Nil?
    {
      hide IsRun, AllHeeded, Takes, Step, CleanStep;
      updated, err := EnsureEmployerCleanFlz(local, env.updateFails);
      TakesEnsure(cfg, env, run, old(local.Value()), err.Nil?, Now());
      run' := Advance(run, EnsureClean(err.Nil?), if updated then Idle else Ensured(local.Value()), env);
    }

    /** The early return of a phase whose inputs could not be read. */
    ghost method GiveUp(run: Run, pc: Pc, env: PassEnv) returns (run': Run)
      requires Tracks(run, pc, env) && GivesUp(cfg, env, State(Now(), Last(run).written, pc))
      ensures Tracks(run', Idle, env) && Extends(run, run') && Underway(run')
    {
      assert Last(run) == State(Now(), Last(run).written, pc);
      TakesAbort(cfg, env, run, Now());
      hide Takes, Step, AllHeeded;
      run' := Advance(run, Abort, Idle, env);
    }

    method ExpectPhase(local: EmployerObject, env: PassEnv, ghost run: Run)
      returns (clean: bool, err: Err, ghost run': Run)
      requires Tracks(run, Ensured(local.Value()), env) && Valid()
      modifies this`pods, this`employer, local
      ensures Tracks(run', if err.Error? then Idle else Marked(local.Value(), clean), env)
      ensures Valid() && Extends(run, run') && Underway(run')
      ensures Smooth(env) && Markable(env, old(pods)) && old(employer).Some? ==>
        err.Nil? && employer.Some? && Went(run, run', 1)
      ensures Smooth(env) && Undeterred(cfg, old(local.Value())) && old(employer).Some? ==> err.Nil? && employer.Some?
    {
      hide ExpectStep, ExpectErr, ExpectClean, ExpectLocal, ExpectPatches, AllReadable, IsRun, AllHeeded, Takes, Step,
           Faultless, Covers;
      ghost var x;
      clean, err, x := EnsureExpectedFinalizer(local, env.selected, env.addFaults, env.deleteFaults, env.patchFails);
      if cfg.follow && env.selected.None? {
        run' := GiveUp(run, old(Ensured(local.Value())), env);
      } else {
        ghost var pc := if err.Error? then Idle else Marked(local.Value(), clean);
        TakesExpect(cfg, env, run, old(local.Value()), x, Now(), pc);
        run' := Advance(run, Expect(x), pc, env);
      }
    }

    /** Reconcile, lines "Sync employer". */
    method VipPhase(local: EmployerObject, expectedClean: bool, env: PassEnv, ghost run: Run)
      returns (isClean: bool, failedExist: bool, err: Err, ghost expected: map<string, Vip>, ghost run': Run)
      requires Tracks(run, Marked(local.Value(), expectedClean), env) && Valid()
      modifies this`vips
      ensures Tracks(run', if err.Error? then Idle else VipsSynced(local.Value(), expectedClean, isClean), env)
      ensures Valid() && Extends(run, run') && Underway(run')
      ensures err.Nil? ==> Truthful(cfg.vipEqual, expected, vips, failedExist) && VipsMeasured(env, run', expected)
      ensures Smooth(env) && VipsCompare(cfg, env, old(vips)) ==> err.Nil?
      ensures err.Nil? && Accepting(env.vipReplies) ==> !failedExist && Went(run, run', 1)
    {
      hide Synced, ById, IsClean, FailedExist, Accepting, Applied, IsRun, AllHeeded, Takes, Step, Truthful,
           Comparable, Lists, Tracks;
      Tracked(run, Marked(local.Value(), expectedClean), env);
      var answer := ExpectedVips(env, local.Value());
      isClean, failedExist, expected := false, false, map[];
      if answer.None? || env.listVipsFails {
        err := Error("get expect or current employer failed");
        run' := GiveUp(run, Marked(local.Value(), expectedClean), env);
        return;
      }
      expected := ById(VipId, answer.value);
      var current := Current(VipId, vips);
      var cud;
      isClean, failedExist, cud, err := SyncEmployer(answer.value, current, env.vipReplies);
      if !Comparable(expected, old(vips), cfg.vipEqual) {
        run' := GiveUp(run, old(Marked(local.Value(), expectedClean)), env);
      } else {
        VipsTaken(cfg, env, run, local.Value(), expectedClean, answer.value, cud, err.Nil?, Now());
        ghost var l := SyncVips(answer.value, cud, err.Nil?);
        run' := Advance(run, l, if err.Error? then Idle else VipsSynced(local.Value(), expectedClean, isClean), env);
        JustMeasured(cfg, env, run, l, run');
        WentOne(run, l, run');
      }
    }

    /** Reconcile, lines "Sync employees". */
    method BackendPhase(local: EmployerObject, expectedClean: bool, vipsClean: bool, env: PassEnv, ghost run: Run)
      returns (isClean: bool, failedExist: bool, err: Err, ghost expected: map<string, Employee>, ghost run': Run)
      requires Tracks(run, VipsSynced(local.Value(), expectedClean, vipsClean), env) && Valid()
      modifies this`pods, this`backends, this`employer, local
      ensures Tracks(run', if err.Error? then Idle else BackendsSynced(local.Value(), expectedClean, vipsClean, isClean),
                     env)
      ensures Valid() && Extends(run, run') && Underway(run')
      ensures err.Nil? ==>
        Truthful(cfg.employeeEqual, expected, backends, failedExist) && EmployeesMeasured(env, run', expected)
      ensures Smooth(env) && old(employer).Some? && EmployeesCompare(cfg, env, old(backends)) ==> err.Nil?
      ensures err.Nil? && Accepting(env.backendReplies) ==> !failedExist && Went(run, run', 1)
    {
      hide Synced, ById, IsClean, FailedExist, Accepting, Applied, IsRun, AllHeeded, Takes, Step, Truthful,
           Comparable, Lists, FinalizerStep, BackendStep, Faultless, Tracks;
      ghost var pc, fetched := VipsSynced(local.Value(), expectedClean, vipsClean), local.Value();
      Tracked(run, pc, env);
      var answer := ExpectedEmployees(env, local.Value());
      isClean, failedExist, expected := false, false, map[];
      if answer.None? || env.listBackendsFails {
        err := Error("get expect or current employees failed");
        run' := GiveUp(run, pc, env);
        return;
      }
      isClean, failedExist, err, expected, run' := SyncAnswered(local, expectedClean, vipsClean, answer.value, env, run);
    }

    /** ... once the adapter has answered what it expects and what there is. */
    method SyncAnswered(local: EmployerObject, expectedClean: bool, vipsClean: bool, listed: seq<Employee>, env: PassEnv,
                        ghost run: Run)
      returns (isClean: bool, failedExist: bool, err: Err, ghost expected: map<string, Employee>, ghost run': Run)
      requires Tracks(run, VipsSynced(local.Value(), expectedClean, vipsClean), env) && Valid()
      requires ExpectedEmployees(env, local.Value()) == Some(listed) && !env.listBackendsFails
      modifies this`pods, this`backends, this`employer, local
      ensures Tracks(run', if err.Error? then Idle else BackendsSynced(local.Value(), expectedClean, vipsClean, isClean),
                     env)
      ensures Valid() && Extends(run, run') && Underway(run')
      ensures err.Nil? ==>
        Truthful(cfg.employeeEqual, expected, backends, failedExist) && EmployeesMeasured(env, run', expected)
      ensures Smooth(env) && old(employer).Some? && EmployeesCompare(cfg, env, old(backends)) ==> err.Nil?
      ensures err.Nil? && Accepting(env.backendReplies) ==> !failedExist && Went(run, run', 1)
    {
      hide Synced, ById, IsClean, FailedExist, Accepting, Applied, IsRun, AllHeeded, Takes, Step, Truthful,
           Comparable, Lists, FinalizerStep, BackendStep, Faultless, Tracks;
      ghost var pc, fetched := VipsSynced(local.Value(), expectedClean, vipsClean), local.Value();
      Tracked(run, pc, env);
      expected := ById(EmployeeId, listed);
      var current := Current(EmployeeId, backends);
      var cud;
      ghost var b;
      isClean, failedExist, cud, err, b := SyncEmployees(local, listed, current, env.backendReplies,
        env.selectedLater, env.flzAddFaults, env.flzDeleteFaults, env.recordPatchFails);
      if !Comparable(expected, old(backends), cfg.employeeEqual) {
        run' := GiveUp(run, pc, env);
      } else {
        BackendsTaken(cfg, env, run, fetched, expectedClean, vipsClean, b, old(Now()).(backends := backends), Now(),
                      local.Value());
        run' := Advance(run, SyncBackends(b),
                        if err.Error? then Idle else BackendsSynced(local.Value(), expectedClean, vipsClean, isClean), env);
        JustMeasured(cfg, env, run, SyncBackends(b), run');
        WentOne(run, SyncBackends(b), run');
      }
    }

    /** The clean gate. */
    method GatePhase(local: EmployerObject, expectedClean: bool, vipsClean: bool, backendsClean: bool, env: PassEnv,
                     ghost run: Run)
      returns (err: Err, ghost run': Run)
      requires Tracks(run, BackendsSynced(local.Value(), expectedClean, vipsClean, backendsClean), env)
      requires Valid()
      modifies this`employer
      ensures Tracks(run', Idle, env) && Valid() && Extends(run, run')
      ensures ReachedGate(run') && |run'.labels| <= |run'.states|
      ensures err.Error? <==> DropErrs(cfg, env, BeforeLast(run'))
      ensures !env.cleanGetFails && !env.cleanUpdateFails ==> err.Nil? && Went(run, run', 1)
    {
      ghost var before := Last(run);
      assert |run.states| == |run.labels| + 1;
      hide IsRun, AllHeeded, Takes, Step;
      err := Nil;
      if vipsClean && backendsClean && expectedClean && local.deleting {
        err := CleanEmployerCleanFinalizer(local, env.cleanGetFails, env.cleanUpdateFails);
      }
      ghost var ok := !env.cleanGetFails && !env.cleanUpdateFails;
      TakesGate(cfg, env, run, local.Value(), expectedClean, vipsClean, backendsClean, Now());
      run' := Advance(run, Gate(ok), Idle, env);
      assert BeforeLast(run') == before;
    }

    /** The fetched object and the first step of the run. */
    ghost method Fetching(written: set<string>, local: EmployerObject, env: PassEnv) returns (run: Run)
      requires employer == Some(local.Value()) && !env.getFails
      ensures Tracks(run, Fetched(local.Value()), env) && run.states[0] == State(Now(), written, Idle)
      ensures run.labels == [Fetch] && Went(Run([], []), run, 1)
    {
      run := Run([State(Now(), written, Idle)], []);
      NothingDone(cfg, env, run);
      TakesFetch(cfg, env, run, Now());
      hide IsRun, AllHeeded, Takes, Step;
      run := Advance(run, Fetch, Fetched(local.Value()), env);
    }

    /** The pass over a fetched employer. */
    method Pass(local: EmployerObject, env: PassEnv, ghost run: Run)
      returns (outcome: Outcome, ghost run': Run, ghost verdict: Verdict)
      requires Tracks(run, Fetched(local.Value()), env) && Valid() && employer == Some(local.Value())
      modifies this, local
      ensures Tracks(run', Idle, env) && Valid() && Extends(run, run')
      ensures Settled(cfg, Now(), verdict, outcome) && Accounted(cfg, env, run', verdict, outcome)
      ensures Clear(cfg, env, old(Now())) && Undeterred(cfg, old(local.Value())) ==> Ended(env, run', verdict, outcome)
      ensures Clear(cfg, env, old(Now())) && Markable(env, old(pods)) ==>
        if NeedsClean(old(local.Value())) then outcome == FINISHED && run'.labels == run.labels + [EnsureClean(true)]
        else Completed(env, run, 5, run', verdict, outcome)
    {
      hide Tracks, Settled, Accounted, ReachedGate, Smooth, Completed, Ended, Went, Clear, Markable, Willing,
           Extends;
      ClearMeans(cfg, env, Now(), 0);
      run' := Interfere(Between(env, 0), env, 0, run, Fetched(local.Value()));
      ghost var moved := run';
      var updated, err;
      updated, err, run' := EnsurePhase(local, env, run');
      ExtendsOn(run, moved, run');
      if updated {
        outcome := if err.Error? then Failure("add employer clean finalizer failed") else FINISHED;
        verdict := Undecided;
        NoVerdict(cfg, env, Now(), run', outcome);
        return;
      }
      ghost var mid := run';
      outcome, run', verdict := Sync(local, env, run');
      ExtendsOn(run, mid, run');
      WentOn(env, run, 1, mid, 4, run', verdict, outcome);
    }

    /** The pass after the clean finalizer was ensured. */
    method Sync(local: EmployerObject, env: PassEnv, ghost run: Run)
      returns (outcome: Outcome, ghost run': Run, ghost verdict: Verdict)
      requires Tracks(run, Ensured(local.Value()), env) && Valid()
      modifies this, local
      ensures Tracks(run', Idle, env) && Valid() && Extends(run, run')
      ensures Settled(cfg, Now(), verdict, outcome) && Accounted(cfg, env, run', verdict, outcome)
      ensures Clear(cfg, env, old(Now())) && Undeterred(cfg, old(local.Value())) ==> Ended(env, run', verdict, outcome)
      ensures Clear(cfg, env, old(Now())) && Markable(env, old(pods)) ==> Completed(env, run, 4, run', verdict, outcome)
    {
      hide Tracks, Settled, Accounted, ReachedGate, Underway, Smooth, Completed, Ended, Went, Clear, Markable,
           Willing, Extends;
      ClearMeans(cfg, env, Now(), 1);
      verdict := Undecided;
      var err;
      var expectedClean;
      run' := Interfere(Between(env, 1), env, 1, run, Ensured(local.Value()));
      ghost var moved := run';
      expectedClean, err, run' := ExpectPhase(local, env, run');
      ExtendsOn(run, moved, run');
      if err.Error? {
        outcome := Failure("ensure employees expected finalizer failed");
        CutShort(cfg, env, Now(), run', outcome);
        return;
      }
      ghost var mid := run';
      ClearStays(cfg, env, old(Now()), Now());
      outcome, run', verdict := SyncStores(local, expectedClean, env, run');
      ExtendsOn(run, mid, run');
      WentOn(env, run, 1, mid, 3, run', verdict, outcome);
    }

    /** From the sync of the employer on. */
    method SyncStores(local: EmployerObject, expectedClean: bool, env: PassEnv, ghost run: Run)
      returns (outcome: Outcome, ghost run': Run, ghost verdict: Verdict)
      requires Tracks(run, Marked(local.Value(), expectedClean), env) && Valid()
      modifies this, local
      ensures Tracks(run', Idle, env) && Valid() && Extends(run, run')
      ensures Settled(cfg, Now(), verdict, outcome) && Accounted(cfg, env, run', verdict, outcome)
      ensures Clear(cfg, env, old(Now())) ==> Completed(env, run, 3, run', verdict, outcome)
    {
      hide Tracks, Truthful, VipsMeasured, Settled, Accounted, ReachedGate, Underway, Smooth, Completed, Ended, Went, Extends;
      ClearMeans(cfg, env, Now(), 2);
      verdict := Undecided;
      var vipsClean, vipsFailed, err;
      ghost var wantedVips;
      run' := Interfere(Between(env, 2), env, 2, run, Marked(local.Value(), expectedClean));
      ghost var moved := run';
      vipsClean, vipsFailed, err, wantedVips, run' := VipPhase(local, expectedClean, env, run');
      ExtendsOn(run, moved, run');
      if err.Error? {
        outcome := Failure("sync employer failed");
        CutShort(cfg, env, Now(), run', outcome);
        return;
      }
      ghost var mid := run';
      outcome, run', verdict := Finish(local, expectedClean, vipsClean, vipsFailed, env, run', wantedVips);
      ExtendsOn(run, mid, run');
      WentOn(env, run, 1, mid, 2, run', verdict, outcome);
    }

    /** From the sync of employees on. */
    method Finish(local: EmployerObject, expectedClean: bool, vipsClean: bool, vipsFailed: bool, env: PassEnv,
                  ghost run: Run, ghost wantedVips: map<string, Vip>)
      returns (outcome: Outcome, ghost run': Run, ghost verdict: Verdict)
      requires Tracks(run, VipsSynced(local.Value(), expectedClean, vipsClean), env) && Valid()
      requires Truthful(cfg.vipEqual, wantedVips, vips, vipsFailed) && VipsMeasured(env, run, wantedVips)
      modifies this, local
      ensures Tracks(run', Idle, env) && Valid() && Extends(run, run')
      ensures Settled(cfg, Now(), verdict, outcome) && Accounted(cfg, env, run', verdict, outcome)
      ensures (Smooth(env) && old(employer).Some? && EmployeesCompare(cfg, env, old(backends))
        && (Willing(env) ==> !vipsFailed)) ==> Completed(env, run, 2, run', verdict, outcome)
    {
      hide Tracks, Truthful, VipsMeasured, EmployeesMeasured, Settled, Accounted, ReachedGate, Underway, Smooth,
           Completed, Ended, Went, Extends, EmployeesCompare;
      SmoothMeans(env, 3);
      verdict := Undecided;
      var err, backendsClean, backendsFailed;
      ghost var wantedEmployees;
      run' := Interfere(Between(env, 3), env, 3, run, VipsSynced(local.Value(), expectedClean, vipsClean));
      ghost var moved := run';
      backendsClean, backendsFailed, err, wantedEmployees, run' :=
        BackendPhase(local, expectedClean, vipsClean, env, run');
      ExtendsOn(run, moved, run');
      if err.Error? {
        outcome := Failure("sync employees failed");
        CutShort(cfg, env, Now(), run', outcome);
        return;
      }
      ghost var mid := run';
      outcome, run', verdict := Close(local, expectedClean, vipsClean, backendsClean, vipsFailed, backendsFailed, env,
                                      run, run', wantedVips, wantedEmployees);
      ExtendsOn(run, mid, run');
      WentOn(env, run, 1, mid, 1, run', verdict, outcome);
    }

    /** The clean gate, the recording of statuses, and the requeue decision. */
    method Close(local: EmployerObject, expectedClean: bool, vipsClean: bool, backendsClean: bool, vipsFailed: bool,
                 backendsFailed: bool, env: PassEnv, ghost before: Run, ghost run: Run,
                 ghost wantedVips: map<string, Vip>, ghost wantedEmployees: map<string, Employee>)
      returns (outcome: Outcome, ghost run': Run, ghost verdict: Verdict)
      requires Tracks(run, BackendsSynced(local.Value(), expectedClean, vipsClean, backendsClean), env) && Valid()
      requires Truthful(cfg.vipEqual, wantedVips, vips, vipsFailed) && VipsMeasured(env, before, wantedVips)
      requires Truthful(cfg.employeeEqual, wantedEmployees, backends, backendsFailed)
      requires EmployeesMeasured(env, run, wantedEmployees) && Extends(before, run)
      modifies this, local
      ensures Tracks(run', Idle, env) && Valid() && Extends(run, run')
      ensures Settled(cfg, Now(), verdict, outcome) && Accounted(cfg, env, run', verdict, outcome)
      ensures Smooth(env) && (Willing(env) ==> !vipsFailed && !backendsFailed) ==>
        Completed(env, run, 1, run', verdict, outcome)
    {
      hide Tracks, Truthful, VipsMeasured, EmployeesMeasured, Settled, Accounted, ReachedGate, Underway, Smooth,
           Went, Extends, Willing;
      SmoothMeans(env, 4);
      verdict := Undecided;
      var err;
      run' := Interfere(Between(env, 4), env, 4, run, BackendsSynced(local.Value(), expectedClean, vipsClean, backendsClean));
      ghost var moved := run';
      err, run' := GatePhase(local, expectedClean, vipsClean, backendsClean, env, run');
      ExtendsOn(run, moved, run');
      if err.Error? {
        outcome := CleanFailure;
        LateFailure(cfg, env, Now(), run', outcome);
        return;
      }
      if env.statusFails {
        outcome := StatusFailure;
        LateFailure(cfg, env, Now(), run', outcome);
        return;
      }
      outcome := Decide(vipsFailed, backendsFailed);
      verdict := Decided(wantedVips, wantedEmployees);
      ExtendsOn(before, run, run');
      Concluded(cfg, env, Now(), before, run, run', verdict, outcome, vipsFailed, backendsFailed);
    }

    /** The requeue decision. */
    method Decide(vipsFailed: bool, backendsFailed: bool) returns (outcome: Outcome)
      ensures Requeues(cfg.requeueAfter, vipsFailed || backendsFailed, outcome)
    {
      if vipsFailed || backendsFailed {
        if cfg.requeueAfter.Some? {
          return Result(cfg.requeueAfter.value);
        }
        return Failure("employer or employees synced failed exist");
      }
      outcome := FINISHED;
    }

    /**
     Reconcile. The reported run is a run of the transition system from the state the pass met, with the
     others' moves between its phases; `Reports` says all that is known of it.
     */
    method Reconcile(env: PassEnv, ghost written: set<string>)
      returns (outcome: Outcome, ghost run: Run, ghost verdict: Verdict)
      requires Valid()
      modifies this
      ensures Valid() && Reports(cfg, env, written, old(Now()), Now(), outcome, run, verdict)
    {
      hide Tracks, IsRun, AllHeeded, Settled, Accounted, Clear, Completed, Ended, Went, Markable, Extends, Reports;
      run, verdict := Run([State(Now(), written, Idle)], []), Undecided;
      if env.getFails {
        outcome := Failure("get employer failed");
        ReportsAtOnce(cfg, env, written, Now(), outcome, run);
        return;
      }
      if employer.None? {
        outcome := FINISHED;
        ReportsAtOnce(cfg, env, written, Now(), outcome, run);
        return;
      }
      var local := new EmployerObject(employer.value);
      run := Fetching(written, local, env);
      ghost var first := run;
      outcome, run, verdict := Pass(local, env, run);
      Tracked(run, Idle, env);
      ReportsInFull(cfg, env, written, old(Now()), Now(), outcome, first, run, verdict);
    }
  }
}
