/**
 The expected-finalizer record over runs: every pod carrying an entry that this controller wrote is named in it, exactly
 as long as a refused record patch cost nothing.
 */
module Record {
  import opened Basics
  import opened Pods
  import opened Expected
  import opened Diff
  import opened Provider
  import opened Machine
  import opened Runs
  import Text

  /** Every pod carrying an entry this controller wrote is named in the record of an existing employer. */
  ghost predicate OnRecord(s: State) {
    && (s.written != {} ==> HasClean(s.w))
    && (s.w.employer.Some? ==> s.written <= Elems(Text.Split(s.w.employer.value.added, ',')))
  }

  ghost predicate ExpectedFlag(s: State) {
    && (s.pc.Marked? && s.pc.expectedClean ==> s.written == {})
    && (s.pc.VipsSynced? && s.pc.expectedClean ==> s.written == {})
    && (s.pc.BackendsSynced? && s.pc.expectedClean ==> s.written == {})
  }

  ghost predicate Covered(s: State) {
    Sound(s) && OnRecord(s) && ExpectedFlag(s)
  }

  ghost predicate CommaFree(names: seq<string>) {
    forall i :: 0 <= i < |names| ==> ',' !in names[i]
  }

  /** Recording is on, and selected names contain no comma. */
  ghost predicate Recordable(cfg: Config, l: Label) {
    && cfg.follow && cfg.recordExpected
    && (l.Expect? ==> CommaFree(l.x.selected))
  }

  /** ... and a record patch on a stored employer succeeds when attempted. */
  ghost predicate Patched(cfg: Config, s: State, l: Label) {
    && Recordable(cfg, l)
    && (l.Expect? && s.pc.Ensured? && ExpectPatches(cfg, s.pc.local, l.x) && s.w.employer.Some? ==> l.x.patchOk)
  }

  predicate AlreadyEntered(cfg: Config, pods: PodStore, name: string) {
    name in pods && Carries(pods[name], cfg.key) && pods[name].available.expected[cfg.key] == cfg.flz
  }

  /** A refused record patch came after adds that wrote nothing. */
  ghost predicate RefusedForFree(cfg: Config, s: State, l: Label) {
    l.Expect? && s.pc.Ensured? && ExpectPatches(cfg, s.pc.local, l.x) && !l.x.patchOk ==>
      forall i :: i in l.x.addOk && i < |l.x.toAdd| ==> AlreadyEntered(cfg, s.w.pods, l.x.toAdd[i])
  }

  // ----- one run of the phase -----

  lemma {:induction false} PickElems(xs: seq<string>, indices: set<nat>)
    ensures forall i: nat :: i < |xs| ==> xs[i] in (if i in indices then Pick(xs, indices) else PickNot(xs, indices))
    ensures forall x :: x in Pick(xs, indices) || x in PickNot(xs, indices) ==> x in xs
    ensures forall x :: x in Pick(xs, indices) ==> x in At(xs, indices)
  {
    if xs != [] {
      var front := xs[..|xs| - 1];
      PickElems(front, indices);
      forall x | x in At(front, indices) ensures x in At(xs, indices) {
        var i :| i in indices && i < |front| && front[i] == x;
        assert xs[i] == x;
      }
      assert |xs| - 1 in indices ==> xs[|xs| - 1] in At(xs, indices);
    }
  }

  /** An entry written by now, and still there after the run, belongs to a name the new record keeps. */
  lemma WrittenIsRecorded(cfg: Config, pods: PodStore, local: Employer, x: ExpectRun, written: set<string>, n: string)
    requires cfg.recordExpected && ExpectPlan(cfg, local, x)
    requires written <= Elems(Text.Split(local.added, ','))
    requires n in pods && Carries(ExpectPods(cfg, pods, x)[n], cfg.key)
    requires n in written || ExpectPods(cfg, pods, x)[n] != pods[n]
    ensures n in ExpectRecord(local, x)
    ensures local.deleting ==> n in written
  {
    PickElems(x.toAdd, x.addOk);
    PickElems(x.toDelete, x.deleteOk);
    assert n !in At(x.toDelete, x.deleteOk);
    if n in At(x.toAdd, x.addOk) {
      var i :| i in x.addOk && i < |x.toAdd| && x.toAdd[i] == n;
      assert n in Pick(x.toAdd, x.addOk);
    } else {
      assert n in Text.Split(local.added, ',');
      if local.deleting {
        var i :| 0 <= i < |x.toDelete| && x.toDelete[i] == n;
        assert i !in x.deleteOk;
      }
    }
  }

  /** Every name in the new record is free of commas, so the record reads back. */
  lemma RecordReadsBack(cfg: Config, local: Employer, x: ExpectRun)
    requires cfg.recordExpected && ExpectPlan(cfg, local, x)
    requires CommaFree(x.selected)
    ensures Elems(ExpectRecord(local, x)) <= Elems(Text.Split(ExpectText(local, x), ','))
  {
    PickElems(x.toAdd, x.addOk);
    PickElems(x.toDelete, x.deleteOk);
    var names := Text.Split(local.added, ',');
    assert forall n :: n in names ==> ',' !in n;
    assert forall n :: n in x.selected ==> ',' !in n;
    assert forall n :: n in x.toDelete ==> n in Elems(x.toDelete);
    var record := ExpectRecord(local, x);
    forall i | 0 <= i < |record| ensures ',' !in record[i] {
      assert record[i] in record;
    }
    Text.RecordNames(record);
  }

  /** Nothing is added on a deleting employer, and a live one is pinned by now. */
  lemma AddsArePinned(cfg: Config, s: State, x: ExpectRun)
    requires Sound(s) && s.pc.Ensured? && ExpectPlan(cfg, s.pc.local, x) && cfg.recordExpected
    ensures x.toAdd != [] ==> CLEAN in s.pc.local.finalizers
    ensures CLEAN in s.pc.local.finalizers ==> HasClean(s.w) && s.w.employer.value.added == s.pc.local.added
    ensures CLEAN !in s.pc.local.finalizers ==> s.pc.local.deleting && !HasClean(s.w)
  {
    hide Keyed, CleanFlags;
  }

  /** What was written by now and is still there is in the new record; on a deleting employer nothing is new. */
  lemma NewRecordCovers(cfg: Config, s: State, x: ExpectRun, s': State)
    requires Covered(s) && Step(cfg, s, Expect(x), s') && cfg.follow && cfg.recordExpected && CommaFree(x.selected)
    ensures s'.written <= Elems(ExpectRecord(s.pc.local, x)) && (s.pc.local.deleting ==> s'.written <= s.written)
    ensures s'.written <= Elems(Text.Split(ExpectText(s.pc.local, x), ','))
  {
    var local := s.pc.local;
    AddsArePinned(cfg, s, x);
    RecordReadsBack(cfg, local, x);
    assert s.written <= Elems(Text.Split(local.added, ','));
    forall n | n in s'.written ensures n in ExpectRecord(local, x) && (local.deleting ==> n in s.written) {
      assert s'.w.pods == ExpectPods(cfg, s.w.pods, x);
      WrittenIsRecorded(cfg, s.w.pods, local, x, s.written, n);
    }
  }

  lemma CoveredExpect(cfg: Config, s: State, x: ExpectRun, s': State)
    requires Covered(s) && Step(cfg, s, Expect(x), s') && cfg.follow && cfg.recordExpected && CommaFree(x.selected)
    requires ExpectPatches(cfg, s.pc.local, x) ==> x.patchOk
    ensures OnRecord(s') && ExpectedFlag(s')
  {
    AddsArePinned(cfg, s, x);
    NewRecordCovers(cfg, s, x, s');
    hide ExpectPlan, ExpectPods, ExpectRecord, ExpectText, WrittenAfter, Keyed, CleanFlags;
  }

  // ----- a refused patch -----

  lemma MarkedAdd(cfg: Config, s: State, x: ExpectRun, s': State, i: nat)
    requires Covered(s) && Step(cfg, s, Expect(x), s') && cfg.follow && cfg.recordExpected
    requires ExpectPatches(cfg, s.pc.local, x) && !x.patchOk
    requires i in x.addOk && i < |x.toAdd|
    ensures x.toAdd[i] !in Text.Split(s.pc.local.added, ',')
    ensures x.toAdd[i] in s'.written <==> !AlreadyEntered(cfg, s.w.pods, x.toAdd[i])
  {
    var n := x.toAdd[i];
    AddsArePinned(cfg, s, x);
    assert n in At(x.toAdd, x.addOk);
    assert n in x.selected && n !in Text.Split(s.pc.local.added, ',');
    assert n !in At(x.toDelete, x.deleteOk);
    assert n !in s.written;
    assert Open(s.w.pods, n);
    PutTwice(s.w.pods[n].available, cfg.key, cfg.flz);
    assert s'.w.pods[n] == s.w.pods[n].(available := Put(s.w.pods[n].available, cfg.key, cfg.flz));
  }

  lemma WrittenOrMarked(cfg: Config, s: State, x: ExpectRun, s': State, n: string)
    requires Covered(s) && Step(cfg, s, Expect(x), s') && cfg.follow && cfg.recordExpected
    requires ExpectPatches(cfg, s.pc.local, x) && !x.patchOk
    requires n in s'.written
    requires forall i :: i in x.addOk && i < |x.toAdd| ==> AlreadyEntered(cfg, s.w.pods, x.toAdd[i])
    ensures n in s.written && n in Text.Split(s.pc.local.added, ',')
  {
    AddsArePinned(cfg, s, x);
    if n in At(x.toAdd, x.addOk) {
      var i :| i in x.addOk && i < |x.toAdd| && x.toAdd[i] == n;
      MarkedAdd(cfg, s, x, s', i);
    } else {
      assert n in s.written;
    }
  }

  /**
   Exactly when a refused patch costs nothing: every pod marked as added already carried the entry, so the batch
   wrote nothing the old record misses. On a deleting employer nothing is added, so there it never does.
   */
  lemma RefusedPatchExactly(cfg: Config, s: State, x: ExpectRun, s': State)
    requires Covered(s) && Step(cfg, s, Expect(x), s') && cfg.follow && cfg.recordExpected
    requires ExpectPatches(cfg, s.pc.local, x) && !x.patchOk
    ensures OnRecord(s') <==>
      forall i :: i in x.addOk && i < |x.toAdd| ==> AlreadyEntered(cfg, s.w.pods, x.toAdd[i])
    ensures s.pc.local.deleting ==> OnRecord(s')
  {
    var names := Text.Split(s.pc.local.added, ',');
    AddsArePinned(cfg, s, x);
    assert s'.w.employer == s.w.employer;
    forall i | i in x.addOk && i < |x.toAdd|
      ensures x.toAdd[i] in s'.written <==> !AlreadyEntered(cfg, s.w.pods, x.toAdd[i])
      ensures x.toAdd[i] !in names
    {
      MarkedAdd(cfg, s, x, s', i);
    }
    if forall i :: i in x.addOk && i < |x.toAdd| ==> AlreadyEntered(cfg, s.w.pods, x.toAdd[i]) {
      forall n | n in s'.written ensures n in s.written && n in names {
        WrittenOrMarked(cfg, s, x, s', n);
      }
    } else {
      var i :| i in x.addOk && i < |x.toAdd| && !AlreadyEntered(cfg, s.w.pods, x.toAdd[i]);
      assert x.toAdd[i] in s'.written && x.toAdd[i] !in Elems(names);
    }
  }

  /** The pass ends there. */
  lemma RefusedPatchStops(cfg: Config, s: State, x: ExpectRun, s': State)
    requires Step(cfg, s, Expect(x), s') && cfg.follow && ExpectPatches(cfg, s.pc.local, x) && !x.patchOk
    ensures ExpectedFlag(s')
  {
    hide ExpectStep, ExpectText, WrittenAfter;
    assert ExpectErr(cfg, s.pc.local, x);
  }

  // ----- the other steps -----

  lemma WrittenShrinks(cfg: Config, s: State, l: Label, s': State)
    requires Step(cfg, s, l, s') && !l.Expect?
    ensures s'.written <= s.written
  {
  }

  /** Only the expected-finalizer phase writes the record. */
  lemma RecordKept(cfg: Config, s: State, l: Label, s': State)
    requires Step(cfg, s, l, s') && !l.Expect? && s.w.employer.Some? && s'.w.employer.Some?
    ensures s'.w.employer.value.added == s.w.employer.value.added
  {
    hide Synced, IsClean, WrittenAfter, Settle, AllAdds, AllDeletes, RecordPatch, WithFinalizer, WithoutFinalizer;
  }

  /** The flag of a clean answer is handed on unchanged. */
  lemma FlagKept(cfg: Config, s: State, l: Label, s': State)
    requires ExpectedFlag(s) && Step(cfg, s, l, s') && (!l.Expect?) && s'.written <= s.written
    ensures ExpectedFlag(s')
  {
    hide Synced, IsClean, WrittenAfter, Disturb, FinalizerStep, CleanStep, GateStep;
  }

  lemma CoveredOther(cfg: Config, s: State, l: Label, s': State)
    requires Covered(s) && Step(cfg, s, l, s') && !l.Expect?
    ensures OnRecord(s') && ExpectedFlag(s')
  {
    hide Step, Sound, HasClean;
    WrittenShrinks(cfg, s, l, s');
    FlagKept(cfg, s, l, s');
    if HasClean(s.w) && !HasClean(s'.w) {
      OnlyTheGateDrops(cfg, s, l, s');
    }
    if s.w.employer.Some? && s'.w.employer.Some? {
      RecordKept(cfg, s, l, s');
    }
    CleanIsSome(s.w);
  }

  lemma CleanIsSome(w: World)
    ensures HasClean(w) ==> w.employer.Some?
  {
  }

  /** When a step keeps the record cover: exactly if a refused record patch wrote nothing new. */
  lemma CoveredStep(cfg: Config, s: State, l: Label, s': State)
    requires Covered(s) && Step(cfg, s, l, s') && Recordable(cfg, l)
    ensures Sound(s') && ExpectedFlag(s')
    ensures OnRecord(s') <==> RefusedForFree(cfg, s, l)
  {
    SoundStep(cfg, s, l, s');
    hide Step, Sound, OnRecord, ExpectedFlag, CommaFree;
    if l.Expect? {
      if ExpectPatches(cfg, s.pc.local, l.x) && !l.x.patchOk {
        RefusedPatchExactly(cfg, s, l.x, s');
        RefusedPatchStops(cfg, s, l.x, s');
      } else {
        CoveredExpect(cfg, s, l.x, s');
      }
    } else {
      CoveredOther(cfg, s, l, s');
    }
  }

  // ----- runs -----

  ghost predicate AllRecordable(cfg: Config, run: Run) {
    forall i :: 0 <= i < |run.labels| ==> Recordable(cfg, run.labels[i])
  }

  ghost predicate AllPatched(cfg: Config, run: Run) {
    forall i :: 0 <= i < |run.labels| && i < |run.states| ==> Patched(cfg, run.states[i], run.labels[i])
  }

  ghost predicate FreeUpTo(cfg: Config, run: Run, k: nat) {
    forall i :: 0 <= i < k && i < |run.labels| && i < |run.states| ==> RefusedForFree(cfg, run.states[i], run.labels[i])
  }

  lemma StartsCovered(cfg: Config, s: State)
    requires Start(cfg, s)
    ensures Covered(s)
  {
  }

  lemma {:induction false} CoveredUpTo(cfg: Config, run: Run, k: nat)
    requires IsRun(cfg, run) && Start(cfg, run.states[0]) && AllRecordable(cfg, run) && k < |run.states|
    requires FreeUpTo(cfg, run, k)
    ensures Covered(run.states[k])
  {
    hide Step, RefusedForFree, Recordable, Covered, Start;
    if k > 0 {
      CoveredUpTo(cfg, run, k - 1);
      CoveredOneMore(cfg, run.states[k - 1], run.labels[k - 1], run.states[k]);
    } else {
      StartsCovered(cfg, run.states[0]);
    }
  }

  lemma CoveredOneMore(cfg: Config, s: State, l: Label, s': State)
    requires Covered(s) && Step(cfg, s, l, s') && Recordable(cfg, l)
    ensures RefusedForFree(cfg, s, l) <==> Covered(s')
    ensures RefusedForFree(cfg, s, l) <==> OnRecord(s')
  {
    CoveredStep(cfg, s, l, s');
    hide Step, RefusedForFree, Recordable, Sound, OnRecord, ExpectedFlag;
  }

  lemma {:induction false} FreeAlong(cfg: Config, run: Run, k: nat)
    requires IsRun(cfg, run) && Start(cfg, run.states[0]) && AllRecordable(cfg, run) && k <= |run.labels|
    requires forall i :: 0 <= i < |run.states| ==> OnRecord(run.states[i])
    ensures FreeUpTo(cfg, run, k)
  {
    hide Step, RefusedForFree, Recordable, Covered, Start, OnRecord;
    if k > 0 {
      FreeAlong(cfg, run, k - 1);
      CoveredUpTo(cfg, run, k - 1);
      CoveredOneMore(cfg, run.states[k - 1], run.labels[k - 1], run.states[k]);
    }
  }

  /**
   Record cover, exactly: with recording on and nothing assumed of the adapter or of others, in every state of a run
   each pod carrying an entry this controller wrote is on the record of an employer that exists, if and only if each
   refused record patch came after adds that wrote nothing.
   */
  lemma RecordCoverExactly(cfg: Config, run: Run)
    requires IsRun(cfg, run) && Start(cfg, run.states[0]) && AllRecordable(cfg, run)
    ensures (forall k :: 0 <= k < |run.states| ==> OnRecord(run.states[k])) <==> FreeUpTo(cfg, run, |run.labels|)
  {
    hide Step, RefusedForFree, Recordable, Start, OnRecord, Covered;
    if FreeUpTo(cfg, run, |run.labels|) {
      forall k | 0 <= k < |run.states| ensures OnRecord(run.states[k]) {
        CoveredUpTo(cfg, run, k);
        CoveredIsOnRecord(run.states[k]);
      }
    }
    if forall k :: 0 <= k < |run.states| ==> OnRecord(run.states[k]) {
      FreeAlong(cfg, run, |run.labels|);
    }
  }

  lemma CoveredIsOnRecord(s: State)
    requires Covered(s)
    ensures OnRecord(s)
  {
  }

  /** A patch is refused only where there is no employer to patch, and there nothing is added. */
  lemma PatchedIsFree(cfg: Config, s: State, l: Label, s': State)
    requires Sound(s) && Step(cfg, s, l, s') && Patched(cfg, s, l)
    ensures RefusedForFree(cfg, s, l)
  {
    if l.Expect? {
      AddsArePinned(cfg, s, l.x);
    }
  }

  lemma CoveredAlong(cfg: Config, run: Run, k: nat)
    requires IsRun(cfg, run) && AllPatched(cfg, run) && k < |run.states| && Start(cfg, run.states[0])
    ensures Covered(run.states[k])
  {
    assert AllRecordable(cfg, run) by { hide Recordable; }
    hide Step, Sound, Patched, Recordable, RefusedForFree, Start, Covered;
    forall i | 0 <= i < k ensures RefusedForFree(cfg, run.states[i], run.labels[i]) {
      SoundAlong(cfg, run, i);
      PatchedIsFree(cfg, run.states[i], run.labels[i], run.states[i + 1]);
    }
    CoveredUpTo(cfg, run, k);
  }

  lemma CoveredMeans(s: State, n: string)
    requires Covered(s) && n in s.written
    ensures s.w.employer.Some? && n in Text.Split(s.w.employer.value.added, ',')
  {
    assert n in Elems(Text.Split(s.w.employer.value.added, ','));
  }

  /**
   In particular, when record patches succeed: in every state of every run, under any pod-patch failures, selection
   churn and pod deletions, whatever the adapter expects and whoever takes the employer's name, each pod carrying an
   expected entry that this controller wrote is named in the record annotation of an employer that still exists.
   */
  lemma WrittenEntriesOnRecord(cfg: Config, run: Run, k: nat, n: string)
    requires IsRun(cfg, run) && AllPatched(cfg, run)
    requires k < |run.states| && Start(cfg, run.states[0])
    requires n in run.states[k].written
    ensures var w := run.states[k].w; w.employer.Some? && n in Text.Split(w.employer.value.added, ',')
  {
    hide *;
    CoveredAlong(cfg, run, k);
    CoveredMeans(run.states[k], n);
  }

  /**
   On a deleting employer, a clean answer of the expected-finalizer phase means that no pod recorded or selected
   carries the employer's entry any more, whoever wrote it.
   */
  lemma ExpectedCleanMeansGone(cfg: Config, w: World, local: Employer, x: ExpectRun, w': World, n: string)
    requires cfg.recordExpected && local.deleting && ExpectStep(cfg, w, local, x, w') && ExpectClean(cfg, local, x)
    requires n in Text.Split(local.added, ',') || n in x.selected
    ensures n in w'.pods ==> !Carries(w'.pods[n], cfg.key)
  {
    PickElems(x.toDelete, x.deleteOk);
    assert n in Elems(x.toDelete);
    var i :| 0 <= i < |x.toDelete| && x.toDelete[i] == n;
    assert i in x.deleteOk;
    assert n in At(x.toDelete, x.deleteOk);
  }
}
