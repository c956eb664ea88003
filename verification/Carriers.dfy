/**
 The lifecycle finalizer over runs: every pod that carries it has an entry in the provider, exactly as long as the
 finalizer follows each deletion; and what is left when the clean finalizer goes.
 */
module Carriers {
  import opened Basics
  import opened Pods
  import opened Expected
  import opened Diff
  import opened Provider
  import opened Adapter
  import opened Machine
  import opened Runs
  import opened Record

  // ----- lifecycle finalizers -----

  function NamesIn(backends: map<string, Employee>): set<string> {
    set id | id in backends :: backends[id].name
  }

  ghost predicate Carrier(cfg: Config, pods: PodStore, n: string) {
    n in pods && cfg.flz in pods[n].finalizers
  }

  /** Provider entries are named after their ids. */
  ghost predicate Named(naming: string -> string, backends: map<string, Employee>) {
    forall id :: id in backends ==> backends[id].name == naming(id)
  }

  /** Every pod carrying the lifecycle finalizer has a provider entry. */
  ghost predicate Registered(cfg: Config, naming: string -> string, s: State) {
    && Named(naming, s.w.backends)
    && forall n :: Carrier(cfg, s.w.pods, n) ==> n in NamesIn(s.w.backends)
  }

  /** Expected employees are named after their ids. */
  ghost predicate NamedExpectation(naming: string -> string, l: Label) {
    l.SyncBackends? ==>
      forall i :: 0 <= i < |l.b.expected| ==> l.b.expected[i].name == naming(l.b.expected[i].id)
  }

  /** Of the entries the pass deleted from the provider, each whose pod carried the finalizer had it taken off. */
  ghost predicate CarriersFollow(cfg: Config, naming: string -> string, s: State, l: Label) {
    l.SyncBackends? ==>
      forall id :: id in Ids(EmployeeId, l.b.cud.succDeleted) && Carrier(cfg, s.w.pods, naming(id)) ==>
        naming(id) in l.b.removed
  }

  /**
   Expected employees are named after their ids, and whenever the pass deleted provider entries its
   finalizer writes went through. Failed creates, updates and deletes are all allowed.
   */
  ghost predicate FinalizersWritten(cfg: Config, naming: string -> string, l: Label) {
    && cfg.follow && NamedExpectation(naming, l)
    && (l.SyncBackends? ==> l.b.stage.Done? || l.b.stage.PatchFailed? || l.b.cud.succDeleted == [])
  }

  lemma {:induction false} NamedById(naming: string -> string, xs: seq<Employee>)
    requires forall i :: 0 <= i < |xs| ==> xs[i].name == naming(xs[i].id)
    ensures Named(naming, ById(EmployeeId, xs))
  {
    if xs != [] {
      NamedById(naming, xs[..|xs| - 1]);
    }
  }

  /** An entry listed out of the expected map whose id the store holds answers for its name. */
  lemma ListedIsHeld(naming: string -> string, xs: seq<Employee>, expected: map<string, Employee>, keys: set<string>,
                     after: map<string, Employee>, i: nat)
    requires Lists(EmployeeId, xs, expected, keys) && Named(naming, expected)
    requires i < |xs| && keys <= after.Keys
    ensures exists id :: id in after && naming(id) == xs[i].name
  {
    assert EmployeeId(xs[i]) in Ids(EmployeeId, xs);
    assert naming(xs[i].id) == xs[i].name;
  }

  /** Whoever is asked to gain the finalizer has a provider entry after the sync. */
  lemma AddedAreHeld(cfg: Config, naming: string -> string, expected: map<string, Employee>,
                     before: map<string, Employee>, after: map<string, Employee>, cud: Cud<Employee>, n: string)
    requires Synced(EmployeeId, cfg.employeeEqual, expected, before, after, cud)
    requires Named(naming, expected) && n in AddNames(cfg.follow, cud)
    ensures exists id :: id in after && naming(id) == n
  {
    AfterSync(EmployeeId, cfg.employeeEqual, expected, before, after, cud);
    SplitIds(EmployeeId, cud.succCreated, cud.failCreated, expected, expected.Keys - before.Keys);
    SplitIds(EmployeeId, cud.succUpdated, cud.failUpdated, expected, Shared(expected, before, cfg.employeeEqual, Unequal));
    assert n in Names(cud.succCreated) || n in NamesWhere(cud.succUpdated, true) || n in NamesWhere(cud.same, true);
    var same := Shared(expected, before, cfg.employeeEqual, Equal);
    assert Lists(EmployeeId, cud.same, expected, same) && same <= after.Keys;
    hide *;
    NamesHave(cud.succCreated, n);
    NamesWhereHave(cud.succUpdated, true, n);
    NamesWhereHave(cud.same, true, n);
    if i :| 0 <= i < |cud.succCreated| && cud.succCreated[i].name == n {
      ListedIsHeld(naming, cud.succCreated, expected, Ids(EmployeeId, cud.succCreated), after, i);
    } else if i :| 0 <= i < |cud.succUpdated| && cud.succUpdated[i].name == n {
      ListedIsHeld(naming, cud.succUpdated, expected, Ids(EmployeeId, cud.succUpdated), after, i);
    } else {
      var i :| 0 <= i < |cud.same| && cud.same[i].name == n;
      ListedIsHeld(naming, cud.same, expected, same, after, i);
    }
  }

  lemma IndexOf(xs: seq<Employee>, id: string) returns (i: nat)
    requires id in Ids(EmployeeId, xs)
    ensures i < |xs| && EmployeeId(xs[i]) == id
  {
    i :| 0 <= i < |xs| && EmployeeId(xs[i]) == id;
  }

  lemma ListedEntry(xs: seq<Employee>, source: map<string, Employee>, i: nat)
    requires Lists(EmployeeId, xs, source, Ids(EmployeeId, xs)) && i < |xs|
    ensures EmployeeId(xs[i]) in source && source[EmployeeId(xs[i])] == xs[i]
  {
  }

  lemma NamedAfter(cfg: Config, naming: string -> string, expected: map<string, Employee>,
                   before: map<string, Employee>, after: map<string, Employee>, cud: Cud<Employee>)
    requires Synced(EmployeeId, cfg.employeeEqual, expected, before, after, cud)
    requires Named(naming, expected) && Named(naming, before)
    ensures Named(naming, after)
  {
    hide Synced;
    AfterSync(EmployeeId, cfg.employeeEqual, expected, before, after, cud);
  }

  /** Who carries the finalizer after the two halves: who was given it or had it, unless it was taken off. */
  lemma CarriersAfter(cfg: Config, pods: PodStore, added: set<string>, removed: set<string>, n: string)
    ensures Carrier(cfg, WithoutFinalizer(WithFinalizer(pods, cfg.flz, added), cfg.flz, removed), n) <==>
      n !in removed && n in pods && (n in added || Carrier(cfg, pods, n))
  {
  }

  lemma {:induction false} NamesAre(naming: string -> string, xs: seq<Employee>, source: map<string, Employee>)
    requires Lists(EmployeeId, xs, source, Ids(EmployeeId, xs)) && Named(naming, source)
    ensures forall id :: id in Ids(EmployeeId, xs) ==> naming(id) in Names(xs)
  {
    forall id | id in Ids(EmployeeId, xs) ensures naming(id) in Names(xs) {
      var i := IndexOf(xs, id);
      ListedEntry(xs, source, i);
      NamesHave(xs, naming(id));
    }
  }

  /** Finalizer writes that went through took the finalizer off every deleted entry's pod. */
  lemma WrittenFollow(cfg: Config, naming: string -> string, s: State, l: Label, s': State)
    requires Step(cfg, s, l, s') && FinalizersWritten(cfg, naming, l) && Named(naming, s.w.backends)
    ensures CarriersFollow(cfg, naming, s, l)
  {
    if l.SyncBackends? {
      var cud := l.b.cud;
      SyncUnfolded(cfg, s, l.b, s');
      SplitIds(EmployeeId, cud.succDeleted, cud.failDeleted, s.w.backends, s.w.backends.Keys - ById(EmployeeId, l.b.expected).Keys);
      hide Step, SyncsBackends, Synced, Lists;
      NamesAre(naming, cud.succDeleted, s.w.backends);
    }
  }

  lemma RegisteredBackends(cfg: Config, naming: string -> string, s: State, b: BackendRun, s': State)
    requires Registered(cfg, naming, s) && SyncsBackends(cfg, s, b, s') && NamedExpectation(naming, SyncBackends(b))
    requires CarriersFollow(cfg, naming, s, SyncBackends(b))
    ensures Registered(cfg, naming, s')
  {
    var expected := ById(EmployeeId, b.expected);
    SyncUnfolded(cfg, s, b, s');
    NamedById(naming, b.expected);
    hide SyncsBackends, Synced, AddNames, DeleteNames, WithFinalizer, WithoutFinalizer, ById;
    NamedAfter(cfg, naming, expected, s.w.backends, s'.w.backends, b.cud);
    AfterSync(EmployeeId, cfg.employeeEqual, expected, s.w.backends, s'.w.backends, b.cud);
    forall n | Carrier(cfg, s'.w.pods, n) ensures n in NamesIn(s'.w.backends) {
      CarriersAfter(cfg, s.w.pods, b.added, b.removed, n);
      if n in b.added {
        AddedAreHeld(cfg, naming, expected, s.w.backends, s'.w.backends, b.cud, n);
      } else {
        var id :| id in s.w.backends && s.w.backends[id].name == n;
        assert naming(id) == n && id !in Ids(EmployeeId, b.cud.succDeleted);
        assert id in s'.w.backends;
      }
    }
  }

  ghost predicate Injective(naming: string -> string) {
    forall a, b :: naming(a) == naming(b) ==> a == b
  }

  lemma GoneByName(naming: string -> string, backends: map<string, Employee>, id: string)
    requires Injective(naming) && Named(naming, backends) && id !in backends
    ensures naming(id) !in NamesIn(backends)
  {
    forall other | other in backends ensures backends[other].name != naming(id) {
      assert naming(other) != naming(id);
    }
  }

  /** A carrier whose entry was deleted, and that kept the finalizer, is not registered any more. */
  lemma UnregisteredBackends(cfg: Config, naming: string -> string, s: State, b: BackendRun, s': State)
    requires Registered(cfg, naming, s) && SyncsBackends(cfg, s, b, s') && Injective(naming)
    requires Registered(cfg, naming, s')
    ensures CarriersFollow(cfg, naming, s, SyncBackends(b))
  {
    var expected := ById(EmployeeId, b.expected);
    SyncUnfolded(cfg, s, b, s');
    hide SyncsBackends, Synced, AddNames, DeleteNames, WithFinalizer, WithoutFinalizer, ById;
    AfterSync(EmployeeId, cfg.employeeEqual, expected, s.w.backends, s'.w.backends, b.cud);
    forall id | id in Ids(EmployeeId, b.cud.succDeleted) && Carrier(cfg, s.w.pods, naming(id))
      ensures naming(id) in b.removed
    {
      CarriersAfter(cfg, s.w.pods, b.added, b.removed, naming(id));
      GoneByName(naming, s'.w.backends, id);
      assert !Carrier(cfg, s'.w.pods, naming(id));
    }
  }

  lemma CarriersMoved(cfg: Config, s: State, move: Move, s': State, n: string)
    requires Moves(cfg, s, move, s') && Carrier(cfg, s'.w.pods, n)
    ensures Carrier(cfg, s.w.pods, n)
  {
  }

  lemma CarriersExpected(cfg: Config, s: State, x: ExpectRun, s': State, n: string)
    requires Expects(cfg, s, x, s')
    ensures Carrier(cfg, s'.w.pods, n) <==> Carrier(cfg, s.w.pods, n)
    ensures s'.w.backends == s.w.backends
  {
    hide ExpectPlan, ExpectErr, ExpectClean, ExpectText, ExpectLocal;
  }

  /** Only a sync of employees makes a pod carry the finalizer. */
  lemma NoNewCarrier(cfg: Config, s: State, l: Label, s': State, n: string)
    requires Step(cfg, s, l, s') && !l.SyncBackends? && Carrier(cfg, s'.w.pods, n)
    ensures Carrier(cfg, s.w.pods, n)
  {
    hide Carrier, Disturb, Expects, CleanStep, GateStep, Synced, IsClean, WrittenAfter, ExpectStep;
    match l
    case Env(move) => CarriersMoved(cfg, s, move, s', n);
    case Expect(x) => CarriersExpected(cfg, s, x, s', n);
    case _ => PodsLeft(cfg, s, l, s');
  }

  lemma RegisteredOther(cfg: Config, naming: string -> string, s: State, l: Label, s': State)
    requires Registered(cfg, naming, s) && Step(cfg, s, l, s') && !l.SyncBackends?
    ensures Registered(cfg, naming, s')
  {
    BackendsLeft(cfg, s, l, s');
    hide Carrier, Step;
    forall n | Carrier(cfg, s'.w.pods, n) ensures Carrier(cfg, s.w.pods, n) {
      NoNewCarrier(cfg, s, l, s', n);
    }
  }

  lemma BackendsLeft(cfg: Config, s: State, l: Label, s': State)
    requires Step(cfg, s, l, s') && !l.SyncBackends?
    ensures s'.w.backends == s.w.backends
  {
    hide ExpectPlan, ExpectPods, ExpectErr, ExpectClean, ExpectText, ExpectLocal, Synced, IsClean, WrittenAfter;
  }

  lemma PodsLeft(cfg: Config, s: State, l: Label, s': State)
    requires Step(cfg, s, l, s') && !l.SyncBackends? && !l.Env? && !l.Expect?
    ensures s'.w.pods == s.w.pods
  {
    hide Expects, Synced, IsClean, WrittenAfter;
  }

  /**
   When a step keeps every carrier registered: exactly if, of the entries it deleted from the provider, each whose
   pod carried the finalizer had it taken off. Whatever the adapter refused makes no difference.
   */
  lemma RegisteredStep(cfg: Config, naming: string -> string, s: State, l: Label, s': State)
    requires Registered(cfg, naming, s) && Step(cfg, s, l, s') && NamedExpectation(naming, l)
    ensures CarriersFollow(cfg, naming, s, l) ==> Registered(cfg, naming, s')
    ensures Injective(naming) && Registered(cfg, naming, s') ==> CarriersFollow(cfg, naming, s, l)
  {
    hide Registered, Injective, NamedExpectation;
    if l.SyncBackends? {
      assert SyncsBackends(cfg, s, l.b, s');
      hide Step, SyncsBackends, CarriersFollow;
      if CarriersFollow(cfg, naming, s, l) {
        RegisteredBackends(cfg, naming, s, l.b, s');
      }
      if Injective(naming) && Registered(cfg, naming, s') {
        UnregisteredBackends(cfg, naming, s, l.b, s');
      }
    } else {
      assert CarriersFollow(cfg, naming, s, l);
      hide Step;
      RegisteredOther(cfg, naming, s, l, s');
    }
  }

  ghost predicate AllFollow(cfg: Config, naming: string -> string, run: Run) {
    forall i :: 0 <= i < |run.labels| && i < |run.states| ==> CarriersFollow(cfg, naming, run.states[i], run.labels[i])
  }

  ghost predicate AllNamed(naming: string -> string, run: Run) {
    forall i :: 0 <= i < |run.labels| ==> NamedExpectation(naming, run.labels[i])
  }

  ghost predicate AllWritten(cfg: Config, naming: string -> string, run: Run) {
    forall i :: 0 <= i < |run.labels| ==> FinalizersWritten(cfg, naming, run.labels[i])
  }

  lemma StartsRegistered(cfg: Config, naming: string -> string, s: State)
    requires Start(cfg, s)
    ensures Registered(cfg, naming, s)
  {
  }

  /**
   Carriers stay registered, exactly: a run keeps every pod with the lifecycle finalizer registered in all its states
   if and only if no step deletes a carrier's provider entry and leaves it the finalizer.
   */
  lemma {:induction false} RegisteredExactly(cfg: Config, naming: string -> string, run: Run)
    requires IsRun(cfg, run) && Start(cfg, run.states[0]) && AllNamed(naming, run) && Injective(naming)
    ensures (forall k :: 0 <= k < |run.states| ==> Registered(cfg, naming, run.states[k])) <==> AllFollow(cfg, naming, run)
  {
    hide Step, NamedExpectation, CarriersFollow, Registered, Injective, Start;
    if AllFollow(cfg, naming, run) {
      forall k | 0 <= k < |run.states| ensures Registered(cfg, naming, run.states[k]) {
        RegisteredAlong(cfg, naming, run, k);
      }
    }
    if forall k :: 0 <= k < |run.states| ==> Registered(cfg, naming, run.states[k]) {
      forall i | 0 <= i < |run.labels| ensures CarriersFollow(cfg, naming, run.states[i], run.labels[i]) {
        RegisteredStep(cfg, naming, run.states[i], run.labels[i], run.states[i + 1]);
      }
    }
  }

  lemma {:induction false} RegisteredAlong(cfg: Config, naming: string -> string, run: Run, k: nat)
    requires IsRun(cfg, run) && Start(cfg, run.states[0]) && AllNamed(naming, run)
    requires AllFollow(cfg, naming, run) && k < |run.states|
    ensures Registered(cfg, naming, run.states[k])
  {
    hide Step, NamedExpectation, CarriersFollow, Registered, Start;
    if k > 0 {
      RegisteredAlong(cfg, naming, run, k - 1);
      RegisteredStep(cfg, naming, run.states[k - 1], run.labels[k - 1], run.states[k]);
    } else {
      StartsRegistered(cfg, naming, run.states[0]);
    }
  }

  /**
   In particular in every state of every run whose finalizer writes went through each pod carrying the lifecycle
   finalizer has an entry in the provider, whatever the adapter refused.
   */
  lemma {:induction false} CarriersRegistered(cfg: Config, naming: string -> string, run: Run, k: nat)
    requires IsRun(cfg, run) && AllWritten(cfg, naming, run)
    requires k < |run.states| && Start(cfg, run.states[0])
    ensures Registered(cfg, naming, run.states[k])
  {
    hide Step, Start;
    if k > 0 {
      var s, l, s' := run.states[k - 1], run.labels[k - 1], run.states[k];
      CarriersRegistered(cfg, naming, run, k - 1);
      assert FinalizersWritten(cfg, naming, l) && NamedExpectation(naming, l) && Named(naming, s.w.backends);
      hide Registered, FinalizersWritten, CarriersFollow, NamedExpectation, Named;
      WrittenFollow(cfg, naming, s, l, s');
      RegisteredStep(cfg, naming, s, l, s');
    } else {
      StartsRegistered(cfg, naming, run.states[0]);
    }
  }

  // ----- dropping the clean finalizer -----

  lemma NoEntryNoCarrier(cfg: Config, naming: string -> string, s: State)
    requires Registered(cfg, naming, s) && s.w.backends == map[]
    ensures forall n :: !Carrier(cfg, s.w.pods, n)
  {
  }

  /**
   When the clean finalizer of an employer goes, in any run whose finalizer writes went through, recording or not,
   whatever the adapter expects and whoever takes the employer's name: both provider maps are empty, and no pod carries
   the employer's lifecycle finalizer.
   */
  lemma NoCarrierLeftBehind(cfg: Config, naming: string -> string, run: Run, k: nat)
    requires IsRun(cfg, run) && AllWritten(cfg, naming, run)
    requires k < |run.labels| && Start(cfg, run.states[0])
    requires HasClean(run.states[k].w) && !HasClean(run.states[k + 1].w)
    ensures run.states[k].w.vips == map[] && run.states[k].w.backends == map[]
    ensures forall n :: !Carrier(cfg, run.states[k].w.pods, n)
  {
    var s := run.states[k];
    hide AllWritten, Start, HasClean, Step, Sound, Registered, Carrier;
    SoundAlong(cfg, run, k);
    CarriersRegistered(cfg, naming, run, k);
    OnlyTheGateDrops(cfg, s, run.labels[k], run.states[k + 1]);
    NoEntryNoCarrier(cfg, naming, s);
  }

  /** And with recording on and its patches succeeding, no pod carries an expected entry this controller wrote. */
  lemma NothingLeftBehind(cfg: Config, naming: string -> string, run: Run, k: nat)
    requires IsRun(cfg, run) && AllPatched(cfg, run) && AllWritten(cfg, naming, run)
    requires k < |run.labels| && Start(cfg, run.states[0])
    requires HasClean(run.states[k].w) && !HasClean(run.states[k + 1].w)
    ensures run.states[k].w.vips == map[] && run.states[k].w.backends == map[]
    ensures run.states[k].written == {}
    ensures forall n :: !Carrier(cfg, run.states[k].w.pods, n)
  {
    hide AllPatched, AllWritten, Start, HasClean, Step, Carrier;
    NoCarrierLeftBehind(cfg, naming, run, k);
    CoveredAlong(cfg, run, k);
    OnlyTheGateDrops(cfg, run.states[k], run.labels[k], run.states[k + 1]);
  }
}
