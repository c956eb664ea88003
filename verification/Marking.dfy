/**
 What the expected-finalizer phase does to the pods themselves, with and without a record: who gets the entry, who loses
 it, whose name is kept on record, and when a failure is seen.
 */
module Marking {
  import opened Basics
  import opened Pods
  import opened Expected
  import opened Machine
  import opened Runs
  import opened Record
  import opened Pass
  import Text

  /** The pod carries the employer's entry with the finalizer in it. */
  ghost predicate Entered(cfg: Config, pods: PodStore, n: string) {
    n in pods && Carries(pods[n], cfg.key) && pods[n].available.expected[cfg.key] == cfg.flz
  }

  /** No pod of the name carries the employer's entry. */
  ghost predicate Cleared(cfg: Config, pods: PodStore, n: string) {
    n in pods ==> !Carries(pods[n], cfg.key)
  }

  lemma AtIndex(xs: seq<string>, indices: set<nat>, i: nat)
    requires i < |xs| && i in indices
    ensures xs[i] in At(xs, indices)
  {
  }

  lemma NotAt(xs: seq<string>, indices: set<nat>, n: string)
    requires n !in xs
    ensures n !in At(xs, indices)
  {
  }

  lemma EnteredByAdd(cfg: Config, pods: PodStore, x: ExpectRun, n: string)
    requires n in At(x.toAdd, x.addOk) && n !in At(x.toDelete, x.deleteOk) && Open(pods, n)
    ensures Entered(cfg, ExpectPods(cfg, pods, x), n)
  {
    hide At;
  }

  lemma ClearedByDelete(cfg: Config, pods: PodStore, x: ExpectRun, n: string)
    requires n in At(x.toDelete, x.deleteOk)
    ensures Cleared(cfg, ExpectPods(cfg, pods, x), n)
  {
    hide At;
  }

  /** The pods after the phase. */
  lemma PodsAfter(cfg: Config, w: World, local: Employer, x: ExpectRun, w': World)
    requires ExpectStep(cfg, w, local, x, w')
    ensures w'.pods == ExpectPods(cfg, w.pods, x)
    ensures forall i :: i in x.addOk ==> i < |x.toAdd| && Open(w.pods, x.toAdd[i])
    ensures forall i :: i in x.deleteOk ==> i < |x.toDelete| && Readable(w.pods, x.toDelete[i])
  {
    hide ExpectPods, ExpectPlan, ExpectText;
  }

  // ----- without a record -----

  /** On a live employer every selected pod that the write can work on gets the entry, if its calls met no fault. */
  lemma SelectedIsEntered(cfg: Config, env: PassEnv, w: World, local: Employer, x: ExpectRun, w': World, i: nat)
    requires !cfg.recordExpected && !local.deleting && ExpectStep(cfg, w, local, x, w') && HeedsExpect(cfg, env, w, x)
    requires i < |x.selected| && Open(w.pods, x.selected[i]) && env.addFaults(i).NoFault?
    ensures Entered(cfg, w'.pods, x.selected[i])
  {
    PodsAfter(cfg, w, local, x, w');
    assert x.toAdd == x.selected && x.toDelete == [];
    AtIndex(x.toAdd, x.addOk, i);
    NotAt(x.toDelete, x.deleteOk, x.selected[i]);
    hide ExpectStep, At, ExpectPods, Open;
    EnteredByAdd(cfg, w.pods, x, x.selected[i]);
  }

  /** On a deleting employer every selected readable pod loses the entry, if its calls met no fault. */
  lemma SelectedIsCleared(cfg: Config, env: PassEnv, w: World, local: Employer, x: ExpectRun, w': World, i: nat)
    requires !cfg.recordExpected && local.deleting && ExpectStep(cfg, w, local, x, w') && HeedsExpect(cfg, env, w, x)
    requires i < |x.selected| && Readable(w.pods, x.selected[i]) && env.deleteFaults(i).NoFault?
    ensures Cleared(cfg, w'.pods, x.selected[i])
  {
    PodsAfter(cfg, w, local, x, w');
    assert x.toDelete == x.selected;
    AtIndex(x.toDelete, x.deleteOk, i);
    hide ExpectStep, At, ExpectPods;
    ClearedByDelete(cfg, w.pods, x, x.selected[i]);
  }

  /** A clean answer on a deleting employer means that no selected pod carries the entry. */
  lemma CleanMeansCleared(cfg: Config, w: World, local: Employer, x: ExpectRun, w': World, n: string)
    requires !cfg.recordExpected && local.deleting && ExpectStep(cfg, w, local, x, w') && ExpectClean(cfg, local, x)
    requires n in x.selected
    ensures Cleared(cfg, w'.pods, n)
  {
    PodsAfter(cfg, w, local, x, w');
    assert x.toDelete == x.selected;
    var i :| 0 <= i < |x.selected| && x.selected[i] == n;
    PickElems(x.toDelete, x.deleteOk);
    assert i in x.deleteOk;
    AtIndex(x.toDelete, x.deleteOk, i);
    hide ExpectStep, At, ExpectPods;
    ClearedByDelete(cfg, w.pods, x, n);
  }

  /**
   Without a record no failure is swallowed: if the pass goes on, every selected pod was read and found readable, and
   has the entry, or on a deleting employer lacks it.
   */
  lemma GoingOnMeansDone(cfg: Config, env: PassEnv, w: World, local: Employer, x: ExpectRun, w': World, i: nat)
    requires !cfg.recordExpected && ExpectStep(cfg, w, local, x, w') && HeedsExpect(cfg, env, w, x)
    requires !ExpectErr(cfg, local, x) && i < |x.selected|
    ensures !(if local.deleting then env.deleteFaults(i) else env.addFaults(i)).GetFails?
    ensures local.deleting ==> Readable(w.pods, x.selected[i]) && Cleared(cfg, w'.pods, x.selected[i])
    ensures !local.deleting && x.selected[i] in w.pods && !w.pods[x.selected[i]].deleting ==>
      Open(w.pods, x.selected[i]) && Entered(cfg, w'.pods, x.selected[i])
  {
    PodsAfter(cfg, w, local, x, w');
    assert AllServed(w.pods, x, env.addFaults, env.deleteFaults);
    if local.deleting {
      assert x.toDelete == x.selected && DeleteAnswered(w.pods, x.toDelete[i], env.deleteFaults(i));
      AtIndex(x.toDelete, x.deleteOk, i);
      hide ExpectStep, At, ExpectPods;
      ClearedByDelete(cfg, w.pods, x, x.selected[i]);
    } else {
      assert x.toAdd == x.selected && x.toDelete == [] && AddAnswered(w.pods, x.toAdd[i], env.addFaults(i));
      NotAt(x.toDelete, x.deleteOk, x.selected[i]);
      hide ExpectStep, At, ExpectPods;
      if Open(w.pods, x.selected[i]) {
        AtIndex(x.toAdd, x.addOk, i);
        EnteredByAdd(cfg, w.pods, x, x.selected[i]);
      }
    }
  }

  // ----- with a record -----

  /** A name newly put on record belongs to a pod that was really given the entry: a failed add is retried. */
  lemma RecordedWasEntered(cfg: Config, w: World, local: Employer, x: ExpectRun, w': World, n: string)
    requires cfg.recordExpected && !local.deleting && ExpectStep(cfg, w, local, x, w')
    requires n in ExpectRecord(local, x) && n !in Text.Split(local.added, ',')
    ensures n in x.selected && Entered(cfg, w'.pods, n)
  {
    PodsAfter(cfg, w, local, x, w');
    PickElems(x.toAdd, x.addOk);
    assert n in At(x.toAdd, x.addOk);
    assert n in x.toAdd && n !in x.toDelete;
    NotAt(x.toDelete, x.deleteOk, n);
    assert Open(w.pods, n);
    hide ExpectStep, At, ExpectPods, Open;
    EnteredByAdd(cfg, w.pods, x, n);
  }

  /**
   A name leaves the record of a live employer only when it is no longer selected, and its pod lost the entry; and one
   that stays although it is no longer selected had its delete fail.
   */
  lemma OffRecordWasCleared(cfg: Config, w: World, local: Employer, x: ExpectRun, w': World, n: string)
    requires cfg.recordExpected && !local.deleting && ExpectStep(cfg, w, local, x, w')
    requires n in Text.Split(local.added, ',') && n !in ExpectRecord(local, x)
    ensures n !in x.selected && Cleared(cfg, w'.pods, n)
  {
    PodsAfter(cfg, w, local, x, w');
    PickElems(x.toDelete, x.deleteOk);
    assert n in Pick(x.toDelete, x.deleteOk);
    hide ExpectStep, At, ExpectPods;
    ClearedByDelete(cfg, w.pods, x, n);
  }

  /** Without faults every selected pod that is not yet on record, and that the write can work on, gets the entry and is put on record. */
  lemma NewlySelectedIsEntered(cfg: Config, env: PassEnv, w: World, local: Employer, x: ExpectRun, w': World, n: string)
    requires cfg.recordExpected && !local.deleting && ExpectStep(cfg, w, local, x, w') && HeedsExpect(cfg, env, w, x)
    requires n in x.selected && n !in Text.Split(local.added, ',') && Open(w.pods, n) && Faultless(env.addFaults)
    ensures Entered(cfg, w'.pods, n) && n in ExpectRecord(local, x)
  {
    assert n in x.toAdd;
    var i :| 0 <= i < |x.toAdd| && x.toAdd[i] == n;
    assert i in x.addOk;
    PickElems(x.toAdd, x.addOk);
    assert n in ExpectRecord(local, x);
    RecordedWasEntered(cfg, w, local, x, w', n);
  }

  /** Without faults every recorded name that is no longer selected, if readable, loses the entry and leaves the record. */
  lemma UnselectedIsCleared(cfg: Config, env: PassEnv, w: World, local: Employer, x: ExpectRun, w': World, n: string)
    requires cfg.recordExpected && !local.deleting && ExpectStep(cfg, w, local, x, w') && HeedsExpect(cfg, env, w, x)
    requires n !in x.selected && n in Text.Split(local.added, ',') && Readable(w.pods, n) && Faultless(env.deleteFaults)
    ensures Cleared(cfg, w'.pods, n) && n !in ExpectRecord(local, x)
  {
    assert n in x.toDelete;
    var i :| 0 <= i < |x.toDelete| && x.toDelete[i] == n;
    assert i in x.deleteOk;
    PickElems(x.toDelete, x.deleteOk);
    PickElems(x.toAdd, x.addOk);
    assert n in Pick(x.toDelete, x.deleteOk) && n !in x.toAdd;
    assert n !in ExpectRecord(local, x);
    OffRecordWasCleared(cfg, w, local, x, w', n);
  }

  /** On a deleting employer every recorded or selected name, if readable, loses the entry and leaves the record, without faults. */
  lemma DeletingClears(cfg: Config, env: PassEnv, w: World, local: Employer, x: ExpectRun, w': World, n: string)
    requires cfg.recordExpected && local.deleting && ExpectStep(cfg, w, local, x, w') && HeedsExpect(cfg, env, w, x)
    requires n in x.selected || n in Text.Split(local.added, ',')
    requires Readable(w.pods, n) && Faultless(env.deleteFaults)
    ensures Cleared(cfg, w'.pods, n) && n !in ExpectRecord(local, x)
  {
    PodsAfter(cfg, w, local, x, w');
    assert n in Elems(x.toDelete);
    var i :| 0 <= i < |x.toDelete| && x.toDelete[i] == n;
    assert i in x.deleteOk;
    AtIndex(x.toDelete, x.deleteOk, i);
    OnceListed(x.toDelete, x.deleteOk, i);
    hide ExpectPods, At, ExpectStep;
    ClearedByDelete(cfg, w.pods, x, n);
  }

  /** In a list without duplicates a flagged operation is not among the unflagged. */
  lemma {:induction false} OnceListed(xs: seq<string>, indices: set<nat>, i: nat)
    requires NoDup(xs) && i < |xs| && i in indices
    ensures xs[i] !in PickNot(xs, indices)
  {
    var front := xs[..|xs| - 1];
    if i < |front| {
      OnceListed(front, indices, i);
    } else {
      PickElems(front, indices);
      assert xs[i] !in front;
    }
  }

  /** With a record a failure is seen if the record changes: a pass on a live employer that goes on after a patch did everything. */
  lemma GoingOnAfterPatch(cfg: Config, env: PassEnv, w: World, local: Employer, x: ExpectRun, w': World, n: string)
    requires cfg.recordExpected && !local.deleting && ExpectStep(cfg, w, local, x, w') && HeedsExpect(cfg, env, w, x)
    requires ExpectPatches(cfg, local, x) && !ExpectErr(cfg, local, x)
    ensures n in x.selected && n !in Text.Split(local.added, ',') && n in w.pods && !w.pods[n].deleting ==>
      Open(w.pods, n) && Entered(cfg, w'.pods, n)
    ensures n !in x.selected && n in Text.Split(local.added, ',') ==> Readable(w.pods, n) && Cleared(cfg, w'.pods, n)
  {
    assert AllServed(w.pods, x, env.addFaults, env.deleteFaults);
    PodsAfter(cfg, w, local, x, w');
    if n in x.selected && n !in Text.Split(local.added, ',') && n in w.pods && !w.pods[n].deleting {
      assert n in x.toAdd && n !in x.toDelete;
      var i :| 0 <= i < |x.toAdd| && x.toAdd[i] == n;
      assert AddAnswered(w.pods, x.toAdd[i], env.addFaults(i));
      AtIndex(x.toAdd, x.addOk, i);
      NotAt(x.toDelete, x.deleteOk, n);
      hide ExpectStep, At, ExpectPods;
      EnteredByAdd(cfg, w.pods, x, n);
    }
    if n !in x.selected && n in Text.Split(local.added, ',') {
      assert n in x.toDelete;
      var i :| 0 <= i < |x.toDelete| && x.toDelete[i] == n;
      assert DeleteAnswered(w.pods, x.toDelete[i], env.deleteFaults(i));
      AtIndex(x.toDelete, x.deleteOk, i);
      hide ExpectStep, At, ExpectPods;
      ClearedByDelete(cfg, w.pods, x, n);
    }
  }

  /** No pass goes on past a record it could not write: if it goes on, the stored record and the local one are the new one. */
  lemma GoingOnMeansRecorded(cfg: Config, w: World, local: Employer, x: ExpectRun, w': World)
    requires cfg.recordExpected && ExpectStep(cfg, w, local, x, w') && !ExpectErr(cfg, local, x)
    requires w.employer.Some? && w.employer.value.added == local.added
    ensures w'.employer.Some? && w'.employer.value.added == Text.Join(ExpectRecord(local, x), ',')
    ensures ExpectLocal(cfg, local, x, w').added == Text.Join(ExpectRecord(local, x), ',')
  {
    hide ExpectPlan, ExpectPods, ExpectRecord;
  }

  /** A record that reads the same is not patched, and then nothing is reported either, on whatever employer. */
  lemma SameRecordGoesOn(cfg: Config, w: World, local: Employer, x: ExpectRun, w': World)
    requires cfg.recordExpected && ExpectStep(cfg, w, local, x, w')
    requires Text.Join(ExpectRecord(local, x), ',') == local.added
    ensures w'.employer == w.employer && !ExpectErr(cfg, local, x)
  {
  }
}
