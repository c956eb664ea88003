/**
 Safety over whole runs of the reconcile engine, under arbitrary interleaving of everybody else's moves between its
 phases: what holds in every run, when the provider is free of orphans, and what a deletion comes to.
 */
module Runs {
  import opened Basics
  import opened Pods
  import opened Expected
  import opened Diff
  import opened Provider
  import opened Adapter
  import opened Machine
  import Text

  ghost predicate HasClean(w: World) {
    w.employer.Some? && CLEAN in w.employer.value.finalizers
  }

  lemma SameEmployer(w: World, w': World)
    requires w.employer == w'.employer
    ensures HasClean(w') == HasClean(w)
  {
  }

  /** The provider holds nothing for an employer that is not pinned by the clean finalizer. */
  ghost predicate NoOrphan(w: World) {
    w.vips != map[] || w.backends != map[] ==> HasClean(w)
  }

  ghost predicate PastEnsure(pc: Pc) {
    !pc.Idle? && !pc.Fetched?
  }

  /** A run's start: nothing in the provider, nothing written, no pass in flight. */
  ghost predicate Start(cfg: Config, s: State) {
    && s.pc.Idle? && s.written == {} && s.w.vips == map[] && s.w.backends == map[]
    && forall n :: n in s.w.pods ==> cfg.flz !in s.w.pods[n].finalizers
  }

  // ----- what holds in every run -----

  /** The local copy against the stored employer. */
  ghost predicate LocalFits(w: World, local: Employer) {
    && HasClean(w)
    && (local.deleting ==> w.employer.value.deleting)
    && w.employer.value.added == local.added && w.employer.value.recorded == local.recorded
  }

  ghost predicate CleanFlags(w: World, pc: Pc) {
    && (pc.VipsSynced? && pc.vipsClean ==> w.vips == map[])
    && (pc.BackendsSynced? && pc.vipsClean ==> w.vips == map[])
    && (pc.BackendsSynced? && pc.backendsClean ==> w.backends == map[])
  }

  /**
   A local copy that shows the clean finalizer fits the stored employer; if it does not show it, the stored one lacks it
   too. Nobody but a pass adds or drops it, so this survives even another object under the same name.
   */
  ghost predicate Attuned(w: World, pc: Pc) {
    && (!pc.Idle? && CLEAN in pc.local.finalizers ==> LocalFits(w, pc.local))
    && (!pc.Idle? && CLEAN !in pc.local.finalizers ==> !HasClean(w))
    && (pc.Ensured? && !pc.local.deleting ==> CLEAN in pc.local.finalizers)
  }

  /** What holds in every run, whatever the adapter expects and whoever takes the employer's name. */
  ghost predicate Sound(s: State) {
    && Keyed(VipId, s.w.vips) && Keyed(EmployeeId, s.w.backends)
    && CleanFlags(s.w, s.pc) && Attuned(s.w, s.pc)
  }

  /** What others can do to the employer: create it, delete it, or edit its foreign finalizers. */
  lemma EnvKeeps(cfg: Config, s: State, move: Move, s': State)
    requires Moves(cfg, s, move, s')
    ensures s'.pc == s.pc && s'.w.vips == s.w.vips && s'.w.backends == s.w.backends
    ensures HasClean(s.w) <==> HasClean(s'.w)
    ensures s.w.employer.None? && s'.w.employer.Some? ==> move.CreateEmployer?
    ensures s.w.employer.Some? && s'.w.employer.Some? ==>
      && (s.w.employer.value.deleting ==> s'.w.employer.value.deleting)
      && s'.w.employer.value.added == s.w.employer.value.added
      && s'.w.employer.value.recorded == s.w.employer.value.recorded
  {
    hide Settle;
  }

  lemma StoreGrowsOnlyWithExpectation<T>(id: T -> string, equal: (T, T) -> Equality, expected: seq<T>,
                                         before: map<string, T>, after: map<string, T>, cud: Cud<T>)
    requires Synced(id, equal, ById(id, expected), before, after, cud) && Keyed(id, before)
    ensures Keyed(id, after)
    ensures expected == [] && before == map[] ==> after == map[]
    ensures IsClean(cud) ==> after == map[]
  {
    hide Synced;
    StaysKeyed(id, equal, ById(id, expected), before, after, cud);
    AfterSync(id, equal, ById(id, expected), before, after, cud);
    CleanIffEmpty(id, equal, ById(id, expected), before, after, cud);
  }

  /** What a sync of employees leaves of the employer and of the pass: all but the lifecycle record. */
  lemma BackendsKeep(cfg: Config, s: State, b: BackendRun, s': State)
    requires SyncsBackends(cfg, s, b, s')
    ensures s.pc.VipsSynced? && s'.w.vips == s.w.vips
    ensures s'.w.employer.Some? == s.w.employer.Some?
    ensures s.w.employer.Some? ==> s'.w.employer.value == s.w.employer.value.(recorded := s'.w.employer.value.recorded)
    ensures s'.pc.Idle? ||
      (s'.pc == BackendsSynced(s'.pc.local, s.pc.expectedClean, s.pc.vipsClean, IsClean(b.cud))
       && ((s'.pc.local == s.pc.local && s'.w.employer == s.w.employer) || s'.w.employer == Some(s'.pc.local)))
  {
    hide Synced, IsClean, AllAdds, AllDeletes, RecordPatch, WithFinalizer, WithoutFinalizer;
  }

  /** What a sync of employees does to the provider and to the pods. */
  lemma SyncUnfolded(cfg: Config, s: State, b: BackendRun, s': State)
    requires SyncsBackends(cfg, s, b, s')
    ensures Synced(EmployeeId, cfg.employeeEqual, ById(EmployeeId, b.expected), s.w.backends, s'.w.backends, b.cud)
    ensures s'.w.pods == WithoutFinalizer(WithFinalizer(s.w.pods, cfg.flz, b.added), cfg.flz, b.removed)
    ensures b.added <= Elems(AddNames(cfg.follow, b.cud))
    ensures b.stage.PatchFailed? || b.stage.Done? ==> Elems(DeleteNames(cfg.follow, b.cud)) <= b.removed
  {
    hide Synced, AddNames, DeleteNames, WithFinalizer, WithoutFinalizer, RecordPatch, IsClean;
  }

  lemma SoundVips(cfg: Config, s: State, l: Label, s': State)
    requires Sound(s) && Step(cfg, s, l, s') && l.SyncVips?
    ensures Sound(s')
  {
    StoreGrowsOnlyWithExpectation(VipId, cfg.vipEqual, l.expected, s.w.vips, s'.w.vips, l.cud);
    SameEmployer(s.w, s'.w);
    hide Synced, IsClean, HasClean, Keyed, WrittenAfter;
  }

  lemma SoundBackends(cfg: Config, s: State, l: Label, s': State)
    requires Sound(s) && Step(cfg, s, l, s') && l.SyncBackends?
    ensures Sound(s') && HasClean(s'.w) == HasClean(s.w)
  {
    BackendsKeep(cfg, s, l.b, s');
    SyncUnfolded(cfg, s, l.b, s');
    StoreGrowsOnlyWithExpectation(EmployeeId, cfg.employeeEqual, l.b.expected, s.w.backends, s'.w.backends, l.b.cud);
    hide Step, SyncsBackends, Synced, IsClean, Keyed, WithFinalizer, WithoutFinalizer, AddNames, DeleteNames;
  }

  lemma SoundEnv(cfg: Config, s: State, l: Label, s': State)
    requires Sound(s) && Step(cfg, s, l, s') && l.Env?
    ensures Sound(s')
  {
    EnvKeeps(cfg, s, l.move, s');
    hide Disturb, WrittenAfter, Keyed, CleanFlags;
  }

  lemma SoundOther(cfg: Config, s: State, l: Label, s': State)
    requires Sound(s) && Step(cfg, s, l, s') && !l.SyncVips? && !l.SyncBackends? && !l.Env?
    ensures Sound(s')
  {
    hide Keyed, WrittenAfter, ExpectPlan, ExpectPods, ExpectErr, ExpectClean, ExpectText;
  }

  lemma SoundStep(cfg: Config, s: State, l: Label, s': State)
    requires Sound(s) && Step(cfg, s, l, s')
    ensures Sound(s')
  {
    hide *;
    match l
    case SyncVips(_, _, _) => SoundVips(cfg, s, l, s');
    case SyncBackends(_) => SoundBackends(cfg, s, l, s');
    case Env(_) => SoundEnv(cfg, s, l, s');
    case _ => SoundOther(cfg, s, l, s');
  }

  lemma StartsSound(cfg: Config, s: State)
    requires Start(cfg, s)
    ensures Sound(s) && NoOrphan(s.w)
  {
  }

  lemma {:induction false} SoundAlong(cfg: Config, run: Run, k: nat)
    requires IsRun(cfg, run) && Start(cfg, run.states[0]) && k < |run.states|
    ensures Sound(run.states[k])
  {
    hide Step, Sound, Start;
    if k > 0 {
      SoundAlong(cfg, run, k - 1);
      SoundStep(cfg, run.states[k - 1], run.labels[k - 1], run.states[k]);
    } else {
      StartsSound(cfg, run.states[0]);
    }
  }

  // ----- orphans, exactly -----

  /** A sync that created something met the clean finalizer on the stored employer. */
  ghost predicate CreatesPinned(s: State, l: Label) {
    && (l.SyncVips? && l.cud.succCreated != [] ==> HasClean(s.w))
    && (l.SyncBackends? && l.b.cud.succCreated != [] ==> HasClean(s.w))
  }

  lemma CreatesFill<T>(id: T -> string, equal: (T, T) -> Equality, expected: seq<T>,
                       before: map<string, T>, after: map<string, T>, cud: Cud<T>)
    requires Synced(id, equal, ById(id, expected), before, after, cud) && Keyed(id, before)
    ensures Keyed(id, after) && (IsClean(cud) ==> after == map[])
    ensures before == map[] ==> (after == map[] <==> cud.succCreated == [])
  {
    StoreGrowsOnlyWithExpectation(id, equal, expected, before, after, cud);
    AfterSync(id, equal, ById(id, expected), before, after, cud);
    assert cud.succCreated != [] ==> id(cud.succCreated[0]) in Ids(id, cud.succCreated);
    hide Synced, Lists;
  }

  lemma OrphanVips(cfg: Config, s: State, l: Label, s': State)
    requires Sound(s) && NoOrphan(s.w) && Step(cfg, s, l, s') && l.SyncVips?
    ensures CreatesPinned(s, l) <==> NoOrphan(s'.w)
  {
    CreatesFill(VipId, cfg.vipEqual, l.expected, s.w.vips, s'.w.vips, l.cud);
    SameEmployer(s.w, s'.w);
    hide Synced, IsClean, HasClean, Keyed, WrittenAfter, Attuned;
  }

  lemma OrphanBackends(cfg: Config, s: State, l: Label, s': State)
    requires Sound(s) && NoOrphan(s.w) && Step(cfg, s, l, s') && l.SyncBackends?
    ensures CreatesPinned(s, l) <==> NoOrphan(s'.w)
  {
    BackendsKeep(cfg, s, l.b, s');
    SyncUnfolded(cfg, s, l.b, s');
    SoundBackends(cfg, s, l, s');
    CreatesFill(EmployeeId, cfg.employeeEqual, l.b.expected, s.w.backends, s'.w.backends, l.b.cud);
    hide Step, SyncsBackends, Synced, IsClean, HasClean, Keyed, WithFinalizer, WithoutFinalizer, AddNames, DeleteNames;
  }

  /** Only the gate drops the clean finalizer, only off an employer that is being deleted, and only once everything is clean. */
  lemma OnlyTheGateDrops(cfg: Config, s: State, l: Label, s': State)
    requires Sound(s) && Step(cfg, s, l, s') && HasClean(s.w) && !HasClean(s'.w)
    ensures l.Gate? && s.pc.BackendsSynced? && Opens(s.pc)
    ensures s.w.employer.value.deleting && s.w.vips == map[] && s.w.backends == map[]
  {
    if l.SyncBackends? {
      SoundBackends(cfg, s, l, s');
    } else if l.Env? {
      EnvKeeps(cfg, s, l.move, s');
    } else {
      hide Synced, IsClean, ExpectPlan, ExpectPods, ExpectText, ExpectErr, ExpectClean, WrittenAfter, Keyed, Disturb;
    }
  }

  /** Only the two syncs change what the provider holds. */
  lemma StoresLeft(cfg: Config, s: State, l: Label, s': State)
    requires Step(cfg, s, l, s')
    ensures !l.SyncVips? ==> s'.w.vips == s.w.vips
    ensures !l.SyncBackends? ==> s'.w.backends == s.w.backends
  {
    hide ExpectPlan, ExpectPods, ExpectErr, ExpectClean, ExpectText, ExpectLocal, Synced, IsClean, WrittenAfter,
         FinalizerStep;
  }

  lemma OrphanOther(cfg: Config, s: State, l: Label, s': State)
    requires Sound(s) && NoOrphan(s.w) && Step(cfg, s, l, s') && !l.SyncVips? && !l.SyncBackends?
    ensures NoOrphan(s'.w)
  {
    hide Step, Sound, HasClean;
    StoresLeft(cfg, s, l, s');
    if HasClean(s.w) && !HasClean(s'.w) {
      OnlyTheGateDrops(cfg, s, l, s');
    }
  }

  lemma OrphanStep(cfg: Config, s: State, l: Label, s': State)
    requires Sound(s) && NoOrphan(s.w) && Step(cfg, s, l, s')
    ensures CreatesPinned(s, l) <==> NoOrphan(s'.w)
  {
    assert !l.SyncVips? && !l.SyncBackends? ==> CreatesPinned(s, l);
    hide *;
    if l.SyncVips? {
      OrphanVips(cfg, s, l, s');
    } else if l.SyncBackends? {
      OrphanBackends(cfg, s, l, s');
    } else {
      OrphanOther(cfg, s, l, s');
    }
  }

  lemma {:induction false} NoOrphanAlong(cfg: Config, run: Run, k: nat)
    requires IsRun(cfg, run) && Start(cfg, run.states[0]) && k < |run.states|
    requires forall i :: 0 <= i < k ==> CreatesPinned(run.states[i], run.labels[i])
    ensures NoOrphan(run.states[k].w)
  {
    hide Step, CreatesPinned, Sound, NoOrphan, Start;
    if k > 0 {
      NoOrphanAlong(cfg, run, k - 1);
      SoundAlong(cfg, run, k - 1);
      OrphanStep(cfg, run.states[k - 1], run.labels[k - 1], run.states[k]);
    } else {
      StartsSound(cfg, run.states[0]);
    }
  }

  /**
   No orphan, exactly: with nothing assumed of the adapter or of anybody else, a run is free of orphans in all its
   states if and only if every sync that created something met the clean finalizer on the stored employer.
   */
  lemma NoOrphanExactly(cfg: Config, run: Run)
    requires IsRun(cfg, run) && Start(cfg, run.states[0])
    ensures (forall k :: 0 <= k < |run.states| ==> NoOrphan(run.states[k].w)) <==>
      (forall i :: 0 <= i < |run.labels| ==> CreatesPinned(run.states[i], run.labels[i]))
  {
    hide Step, CreatesPinned, NoOrphan, Start, Sound;
    if forall i :: 0 <= i < |run.labels| ==> CreatesPinned(run.states[i], run.labels[i]) {
      forall k | 0 <= k < |run.states| ensures NoOrphan(run.states[k].w) {
        NoOrphanAlong(cfg, run, k);
      }
    }
    if forall k :: 0 <= k < |run.states| ==> NoOrphan(run.states[k].w) {
      forall i | 0 <= i < |run.labels| ensures CreatesPinned(run.states[i], run.labels[i]) {
        SoundAlong(cfg, run, i);
        OrphanStep(cfg, run.states[i], run.labels[i], run.states[i + 1]);
      }
    }
  }

  // ----- orphans, from what is asked of the adapter and of others -----

  /** The adapter expects nothing of an employer that is being deleted. */
  ghost predicate Silent(s: State, l: Label) {
    && (l.SyncVips? && !s.pc.Idle? && s.pc.local.deleting ==> l.expected == [])
    && (l.SyncBackends? && !s.pc.Idle? && s.pc.local.deleting ==> l.b.expected == [])
  }

  /** Nobody takes a deleted employer's name again while a pass is in flight. */
  ghost predicate Unreplaced(s: State, l: Label) {
    l.Env? && l.move.CreateEmployer? ==> s.pc.Idle?
  }

  ghost predicate AllSilent(run: Run) {
    forall i :: 0 <= i < |run.labels| && i < |run.states| ==> Silent(run.states[i], run.labels[i])
  }

  ghost predicate AllUnreplaced(run: Run) {
    forall i :: 0 <= i < |run.labels| && i < |run.states| ==> Unreplaced(run.states[i], run.labels[i])
  }

  /** Past its first phase a pass on a live employer shows the clean finalizer, and deleting is for good. */
  ghost predicate Steady(s: State) {
    && (PastEnsure(s.pc) && !s.pc.local.deleting ==> CLEAN in s.pc.local.finalizers)
    && (!s.pc.Idle? && s.w.employer.Some? && s.pc.local.deleting ==> s.w.employer.value.deleting)
  }

  lemma SteadyEnv(cfg: Config, s: State, l: Label, s': State)
    requires Steady(s) && Step(cfg, s, l, s') && l.Env? && Unreplaced(s, l)
    ensures Steady(s')
  {
    EnvKeeps(cfg, s, l.move, s');
    hide Disturb, WrittenAfter;
  }

  lemma SteadyBackends(cfg: Config, s: State, l: Label, s': State)
    requires Sound(s) && Steady(s) && Step(cfg, s, l, s') && l.SyncBackends?
    ensures Steady(s')
  {
    BackendsKeep(cfg, s, l.b, s');
    hide Step, SyncsBackends, IsClean, Keyed;
  }

  lemma SteadyOther(cfg: Config, s: State, l: Label, s': State)
    requires Sound(s) && Steady(s) && Step(cfg, s, l, s') && !l.SyncBackends? && !l.Env?
    ensures Steady(s')
  {
    hide Keyed, WrittenAfter, ExpectPlan, ExpectPods, ExpectErr, ExpectClean, ExpectText, Synced, IsClean;
  }

  lemma SteadyStep(cfg: Config, s: State, l: Label, s': State)
    requires Sound(s) && Steady(s) && Step(cfg, s, l, s') && Unreplaced(s, l)
    ensures Steady(s')
  {
    hide *;
    match l
    case Env(_) => SteadyEnv(cfg, s, l, s');
    case SyncBackends(_) => SteadyBackends(cfg, s, l, s');
    case _ => SteadyOther(cfg, s, l, s');
  }

  lemma {:induction false} SteadyAlong(cfg: Config, run: Run, k: nat)
    requires IsRun(cfg, run) && Start(cfg, run.states[0]) && AllUnreplaced(run) && k < |run.states|
    ensures Steady(run.states[k])
  {
    hide Step, Unreplaced, Sound;
    if k > 0 {
      hide Steady, Start;
      SteadyAlong(cfg, run, k - 1);
      SoundAlong(cfg, run, k - 1);
      SteadyStep(cfg, run.states[k - 1], run.labels[k - 1], run.states[k]);
    }
  }

  lemma SteadyMeans(s: State)
    requires Sound(s) && Steady(s)
    ensures PastEnsure(s.pc) && !s.pc.local.deleting ==> HasClean(s.w)
  {
  }

  /**
   The finalizer is durable before the first provider call: as long as nobody takes the employer's name during a pass, a
   live pass past its first phase finds it stored.
   */
  lemma DurableBeforeProviderCalls(cfg: Config, run: Run, k: nat)
    requires IsRun(cfg, run) && AllUnreplaced(run) && k < |run.states| && Start(cfg, run.states[0])
    requires PastEnsure(run.states[k].pc) && !run.states[k].pc.local.deleting
    ensures HasClean(run.states[k].w)
  {
    hide IsRun, AllUnreplaced, Start, Sound, Steady, HasClean;
    SoundAlong(cfg, run, k);
    SteadyAlong(cfg, run, k);
    SteadyMeans(run.states[k]);
  }

  lemma NothingListed<T>(id: T -> string, equal: (T, T) -> Equality, before: map<string, T>, after: map<string, T>, cud: Cud<T>)
    requires Synced(id, equal, ById(id, []), before, after, cud)
    ensures cud.succCreated == []
  {
    var none: map<string, T> := ById(id, []);
    assert none.Keys - before.Keys == {};
    ListsNothing(id, cud.succCreated + cud.failCreated, none);
  }

  /** A silent adapter has something created only for a live employer, which is pinned. */
  lemma SilentCreatesPinned(cfg: Config, s: State, l: Label, s': State)
    requires Sound(s) && Steady(s) && Step(cfg, s, l, s') && Silent(s, l)
    ensures CreatesPinned(s, l)
  {
    SteadyMeans(s);
    if l.SyncVips? {
      hide Synced, Sound, Steady, HasClean, IsClean, WrittenAfter;
      if s.pc.local.deleting {
        NothingListed(VipId, cfg.vipEqual, s.w.vips, s'.w.vips, l.cud);
      }
    } else if l.SyncBackends? {
      SyncUnfolded(cfg, s, l.b, s');
      hide Synced, Sound, Steady, HasClean, IsClean, WrittenAfter, BackendStep;
      if s.pc.local.deleting {
        NothingListed(EmployeeId, cfg.employeeEqual, s.w.backends, s'.w.backends, l.b.cud);
      }
    }
  }

  /**
   No orphan: if the adapter expects nothing of a deleting employer and nobody takes its name during a pass, then in
   every state of every run, whenever the provider holds any employer or employee entry, the employer object exists and
   holds the clean finalizer.
   */
  lemma NoOrphanEver(cfg: Config, run: Run, k: nat)
    requires IsRun(cfg, run) && AllSilent(run) && AllUnreplaced(run) && k < |run.states| && Start(cfg, run.states[0])
    ensures NoOrphan(run.states[k].w)
  {
    hide Step, Silent, AllUnreplaced, Start, Sound, Steady, NoOrphan, CreatesPinned;
    forall i | 0 <= i < k ensures CreatesPinned(run.states[i], run.labels[i]) {
      SoundAlong(cfg, run, i);
      SteadyAlong(cfg, run, i);
      SilentCreatesPinned(cfg, run.states[i], run.labels[i], run.states[i + 1]);
    }
    NoOrphanAlong(cfg, run, k);
  }

  // ----- deletion completes -----

  /** The pass is on a deleting employer, and its local copy is the stored object. */
  ghost predicate Retiring(s: State) {
    !s.pc.Idle? && s.pc.local.deleting && s.w.employer == Some(s.pc.local)
  }

  lemma RetiringStarts(cfg: Config, s: State, l: Label, s': State)
    requires Step(cfg, s, l, s') && Flawless(l) && s.pc.Idle? && s.w.employer.Some? && s.w.employer.value.deleting
    ensures Retiring(s') && s'.pc.Fetched?
  {
  }

  lemma RetiringEnsures(cfg: Config, s: State, l: Label, s': State)
    requires Step(cfg, s, l, s') && Flawless(l) && Retiring(s) && s.pc.Fetched?
    ensures Retiring(s') && s'.pc.Ensured?
  {
  }

  lemma {:induction false} NothingNotPicked(xs: seq<string>, indices: set<nat>)
    requires Covers(indices, |xs|)
    ensures PickNot(xs, indices) == []
  {
    if xs != [] {
      NothingNotPicked(xs[..|xs| - 1], indices);
    }
  }

  lemma RetiringExpects(cfg: Config, s: State, l: Label, s': State)
    requires Step(cfg, s, l, s') && Flawless(l) && Retiring(s) && s.pc.Ensured?
    ensures Retiring(s') && s'.pc.Marked? && s'.pc.expectedClean
  {
    hide ExpectPods, ExpectPlan, ExpectText, WrittenAfter;
    NothingNotPicked(l.x.toDelete, l.x.deleteOk);
  }

  /** A sync that expects nothing and was refused nothing empties the store, and is clean. */
  lemma EmptiedStore<T>(id: T -> string, equal: (T, T) -> Equality, before: map<string, T>, after: map<string, T>, cud: Cud<T>)
    requires Synced(id, equal, ById(id, []), before, after, cud) && !FailedExist(cud)
    ensures IsClean(cud) && after == map[]
  {
    var none: map<string, T> := ById(id, []);
    assert none.Keys - before.Keys == {} && Shared(none, before, equal, Unequal) == {} == Shared(none, before, equal, Equal);
    ListsNothing(id, cud.succCreated + cud.failCreated, none);
    ListsNothing(id, cud.succUpdated + cud.failUpdated, none);
    ListsNothing(id, cud.same, none);
    hide Synced, ById;
    CleanIffEmpty(id, equal, none, before, after, cud);
  }

  lemma ListsNothing<T>(id: T -> string, xs: seq<T>, source: map<string, T>)
    requires Lists(id, xs, source, {})
    ensures xs == []
  {
    assert xs != [] ==> id(xs[0]) in Ids(id, xs);
  }

  lemma RetiringVips(cfg: Config, s: State, l: Label, s': State)
    requires Step(cfg, s, l, s') && Flawless(l) && Silent(s, l) && Retiring(s) && s.pc.Marked? && s.pc.expectedClean
    ensures Retiring(s') && s'.pc.VipsSynced? && s'.pc.expectedClean && s'.pc.vipsClean && s'.w.vips == map[]
  {
    hide Synced, IsClean, FailedExist, WrittenAfter;
    EmptiedStore(VipId, cfg.vipEqual, s.w.vips, s'.w.vips, l.cud);
  }

  lemma RetiringBackends(cfg: Config, s: State, l: Label, s': State)
    requires Step(cfg, s, l, s') && Flawless(l) && Silent(s, l) && Retiring(s)
    requires s.pc.VipsSynced? && s.pc.expectedClean && s.pc.vipsClean && s.w.vips == map[]
    ensures Retiring(s') && s'.pc.BackendsSynced? && Opens(s'.pc) && s'.w.vips == map[] && s'.w.backends == map[]
  {
    hide Synced, IsClean, FailedExist, WrittenAfter, AllAdds, AllDeletes, RecordPatch, WithFinalizer, WithoutFinalizer;
    EmptiedStore(EmployeeId, cfg.employeeEqual, s.w.backends, s'.w.backends, l.b.cud);
  }

  lemma RetiringGate(cfg: Config, s: State, l: Label, s': State)
    requires Step(cfg, s, l, s') && Flawless(l) && Retiring(s) && s.pc.BackendsSynced? && Opens(s.pc)
    ensures !HasClean(s'.w) && s'.w.vips == s.w.vips && s'.w.backends == s.w.backends
  {
  }

  /**
   Deletion completes: one pass of six flawless steps over a deleting employer of which nothing is expected empties both
   provider stores and takes the clean finalizer off, so that nothing of the engine's holds the object any more.
   */
  lemma DeletionCompletes(cfg: Config, run: Run)
    requires IsRun(cfg, run) && AllSilent(run) && AllFlawless(run) && |run.labels| == 6
    requires run.states[0].pc.Idle? && run.states[0].w.employer.Some? && run.states[0].w.employer.value.deleting
    ensures var w := Last(run).w; w.vips == map[] && w.backends == map[] && !HasClean(w)
  {
    var s, l := run.states, run.labels;
    hide Step, Silent, Flawless, Retiring, HasClean;
    RetiringStarts(cfg, s[0], l[0], s[1]);
    RetiringEnsures(cfg, s[1], l[1], s[2]);
    RetiringExpects(cfg, s[2], l[2], s[3]);
    RetiringVips(cfg, s[3], l[3], s[4]);
    RetiringBackends(cfg, s[4], l[4], s[5]);
    RetiringGate(cfg, s[5], l[5], s[6]);
  }
}
