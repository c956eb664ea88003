/**
 What a pass is given and what it leaves behind: the answers of everybody else, the run it makes of them, what that run
 may be relied on for, and the facts about one more step of it.
 */
module Pass {
  import opened Basics
  import opened Pods
  import opened Expected
  import opened Diff
  import opened Provider
  import opened Adapter
  import opened Machine
  import opened Runs
  import opened Record
  import opened Carriers
  import Text

  // ----- what a pass is given -----

  /** The answers of the world to one pass. */
  datatype PassEnv = PassEnv(
    getFails: bool, updateFails: bool,
    selected: Option<seq<string>>, addFaults: Faults, deleteFaults: Faults, patchFails: bool,
    expectedVips: Employer -> Option<seq<Vip>>, listVipsFails: bool, vipReplies: Replies,
    expectedEmployees: Employer -> Option<seq<Employee>>, listBackendsFails: bool, backendReplies: Replies,
    selectedLater: Option<seq<string>>, flzAddFaults: Faults, flzDeleteFaults: Faults, recordPatchFails: bool,
    cleanGetFails: bool, cleanUpdateFails: bool, statusFails: bool,
    between: nat -> seq<Move>)

  function ExpectedVips(env: PassEnv, local: Employer): Option<seq<Vip>> {
    env.expectedVips(local)
  }

  function ExpectedEmployees(env: PassEnv, local: Employer): Option<seq<Employee>> {
    env.expectedEmployees(local)
  }

  function Between(env: PassEnv, k: nat): seq<Move> {
    env.between(k)
  }

  predicate CallFails(replies: Replies) {
    replies.create.fails || replies.update.fails || replies.delete.fails
  }

  ghost predicate Faultless(faults: Faults) {
    forall i: nat :: faults(i).NoFault?
  }

  /** The selected names the adapter answered with, if it did. */
  function Answer(selected: Option<seq<string>>): seq<string> {
    if selected.Some? then selected.value else []
  }

  // ----- a run that heeds the answers -----

  /** Every entry operation that can be carried out and met no fault was; and an error is reported unless all went well. */
  ghost predicate Served(pods: PodStore, x: ExpectRun, addFaults: Faults, deleteFaults: Faults) {
    && (forall i: nat :: i < |x.toAdd| && Open(pods, x.toAdd[i]) && addFaults(i).NoFault? ==> i in x.addOk)
    && (forall i: nat :: i < |x.toDelete| && Readable(pods, x.toDelete[i]) && deleteFaults(i).NoFault? ==> i in x.deleteOk)
    && (!x.podErr ==> AllServed(pods, x, addFaults, deleteFaults))
  }

  ghost predicate AllServed(pods: PodStore, x: ExpectRun, addFaults: Faults, deleteFaults: Faults) {
    && (forall i: nat :: i < |x.toAdd| ==>
          AddAnswered(pods, x.toAdd[i], addFaults(i)) && (Open(pods, x.toAdd[i]) ==> i in x.addOk))
    && (forall i: nat :: i < |x.toDelete| ==> DeleteAnswered(pods, x.toDelete[i], deleteFaults(i)) && i in x.deleteOk)
  }

  ghost predicate HeedsExpect(cfg: Config, env: PassEnv, w: World, x: ExpectRun) {
    && env.selected == Some(x.selected)
    && x.patchOk == (!cfg.recordExpected || (!env.patchFails && w.employer.Some?))
    && Served(w.pods, x, env.addFaults, env.deleteFaults)
  }

  ghost predicate HeedsVips(env: PassEnv, local: Employer, expected: seq<Vip>, cud: Cud<Vip>, ok: bool) {
    && !env.listVipsFails && ExpectedVips(env, local) == Some(expected)
    && ok == !CallFails(env.vipReplies) && Obeys(VipId, env.vipReplies, cud)
  }

  /** How far the part of a sync of employees after the adapter calls came is up to the calls that failed in it. */
  ghost predicate StageMeans(cfg: Config, employer: Option<Employer>, local: Employer, selected: Option<seq<string>>,
                             addFaults: Faults, deleteFaults: Faults, patchFails: bool, b: BackendRun) {
    && (!b.stage.AdapterFailed? ==> b.selected == Answer(selected))
    && (b.stage.SelectionFailed? ==> selected.None? && NeedRecord(cfg) && local.recorded != "")
    && (b.stage.FinalizerFailed? ==> !Faultless(addFaults) || !Faultless(deleteFaults))
    && (b.stage.PatchFailed? ==> patchFails || employer.None?)
  }

  ghost predicate HeedsBackends(cfg: Config, env: PassEnv, w: World, local: Employer, b: BackendRun) {
    && !env.listBackendsFails && ExpectedEmployees(env, local) == Some(b.expected)
    && Obeys(EmployeeId, env.backendReplies, b.cud)
    && (b.stage.AdapterFailed? <==> CallFails(env.backendReplies))
    && StageMeans(cfg, w.employer, local, env.selectedLater, env.flzAddFaults, env.flzDeleteFaults, env.recordPatchFails, b)
  }

  /** The only reasons for which a pass gives up without a step of its own. */
  ghost predicate GivesUp(cfg: Config, env: PassEnv, s: State) {
    || (s.pc.Ensured? && cfg.follow && env.selected.None?)
    || (s.pc.Marked? && (env.listVipsFails || ExpectedVips(env, s.pc.local).None?
          || !Comparable(ById(VipId, ExpectedVips(env, s.pc.local).value), s.w.vips, cfg.vipEqual)))
    || (s.pc.VipsSynced? && (env.listBackendsFails || ExpectedEmployees(env, s.pc.local).None?
          || !Comparable(ById(EmployeeId, ExpectedEmployees(env, s.pc.local).value), s.w.backends, cfg.employeeEqual)))
  }

  /** The step is the one these answers lead to: what was expected, selected, accepted and refused is the pass's own. */
  ghost predicate Heeds(cfg: Config, env: PassEnv, s: State, l: Label) {
    match l
    case Fetch => !env.getFails
    case EnsureClean(ok) =>
      s.pc.Fetched? && ok == (!NeedsClean(s.pc.local) || (!env.updateFails && s.w.employer == Some(s.pc.local)))
    case Expect(x) => s.pc.Ensured? && (cfg.follow ==> HeedsExpect(cfg, env, s.w, x))
    case SyncVips(expected, cud, ok) => s.pc.Marked? && HeedsVips(env, s.pc.local, expected, cud, ok)
    case SyncBackends(b) => s.pc.VipsSynced? && HeedsBackends(cfg, env, s.w, s.pc.local, b)
    case Gate(ok) => ok == (!env.cleanGetFails && !env.cleanUpdateFails)
    case Abort => GivesUp(cfg, env, s)
    case Env(move) => exists k: nat :: move in Between(env, k)
  }

  ghost predicate AllHeeded(cfg: Config, env: PassEnv, run: Run) {
    forall i :: 0 <= i < |run.labels| && i < |run.states| ==> Heeds(cfg, env, run.states[i], run.labels[i])
  }

  // ----- the premises of the run theorems -----

  /** The adapter expects nothing of an employer being deleted. */
  ghost predicate SilentAdapter(env: PassEnv) {
    forall e: Employer :: e.deleting ==>
      && (ExpectedVips(env, e).Some? ==> ExpectedVips(env, e).value == [])
      && (ExpectedEmployees(env, e).Some? ==> ExpectedEmployees(env, e).value == [])
  }

  /** Nobody takes the employer's name while the pass runs. */
  ghost predicate NobodyCreates(env: PassEnv) {
    forall k: nat, move :: move in Between(env, k) ==> !move.CreateEmployer?
  }

  /** Recording is on, and selected names hold no comma. */
  ghost predicate Recording(cfg: Config, env: PassEnv) {
    && cfg.follow && cfg.recordExpected
    && (env.selected.Some? ==> CommaFree(env.selected.value))
  }

  ghost predicate NamedAs(naming: string -> string, expected: seq<Employee>) {
    forall i :: 0 <= i < |expected| ==> expected[i].name == naming(expected[i].id)
  }

  /**
   Expected employees are named after their ids, the selection can be read, and neither the delete call nor a
   finalizer write errors. Any entry may still be refused, and any other call may fail.
   */
  ghost predicate Writing(cfg: Config, env: PassEnv, naming: string -> string) {
    && cfg.follow && env.selectedLater.Some? && !env.backendReplies.delete.fails
    && Faultless(env.flzAddFaults) && Faultless(env.flzDeleteFaults)
    && forall e: Employer :: ExpectedEmployees(env, e).Some? ==> NamedAs(naming, ExpectedEmployees(env, e).value)
  }

  lemma HeededSilent(cfg: Config, env: PassEnv, s: State, l: Label)
    requires Heeds(cfg, env, s, l)
    ensures SilentAdapter(env) ==> Silent(s, l)
    ensures NobodyCreates(env) ==> Unreplaced(s, l)
  {
    hide Obeys, Served;
  }

  lemma HeededPatched(cfg: Config, env: PassEnv, s: State, l: Label)
    requires Heeds(cfg, env, s, l) && Recording(cfg, env)
    ensures Recordable(cfg, l) && (!env.patchFails ==> Patched(cfg, s, l))
  {
    hide Obeys, Served, CommaFree, ExpectPatches;
  }

  lemma HeededWritten(cfg: Config, env: PassEnv, naming: string -> string, s: State, l: Label)
    requires Heeds(cfg, env, s, l) && Writing(cfg, env, naming)
    ensures FinalizersWritten(cfg, naming, l)
  {
    hide Faultless, Obeys, Served;
    if l.SyncBackends? {
      assert HeedsBackends(cfg, env, s.w, s.pc.local, l.b);
      WhatItObeys(EmployeeId, env.backendReplies, l.b.cud);
      assert NamedAs(naming, l.b.expected);
    }
  }

  /** What a run of a pass may be relied on for, from what the pass was given. */
  lemma HeededRun(cfg: Config, env: PassEnv, naming: string -> string, run: Run)
    requires AllHeeded(cfg, env, run) && |run.labels| <= |run.states|
    ensures SilentAdapter(env) ==> AllSilent(run)
    ensures NobodyCreates(env) ==> AllUnreplaced(run)
    ensures Recording(cfg, env) ==> AllRecordable(cfg, run) && (!env.patchFails ==> AllPatched(cfg, run))
    ensures Writing(cfg, env, naming) ==> AllWritten(cfg, naming, run)
  {
    hide Heeds, SilentAdapter, NobodyCreates, Recording, Writing, Silent, Unreplaced, Recordable, Patched, FinalizersWritten;
    forall i | 0 <= i < |run.labels|
      ensures SilentAdapter(env) ==> Silent(run.states[i], run.labels[i])
      ensures NobodyCreates(env) ==> Unreplaced(run.states[i], run.labels[i])
      ensures Recording(cfg, env) ==> Recordable(cfg, run.labels[i])
      ensures Recording(cfg, env) && !env.patchFails ==> Patched(cfg, run.states[i], run.labels[i])
      ensures Writing(cfg, env, naming) ==> FinalizersWritten(cfg, naming, run.labels[i])
    {
      HeededSilent(cfg, env, run.states[i], run.labels[i]);
      if Recording(cfg, env) {
        HeededPatched(cfg, env, run.states[i], run.labels[i]);
      }
      if Writing(cfg, env, naming) {
        HeededWritten(cfg, env, naming, run.states[i], run.labels[i]);
      }
    }
  }

  /** The rest of a sync of employees reads the selection only for a record's sake: without one, its failure stops nothing. */
  lemma SelectionNotNeeded(cfg: Config, env: PassEnv, w: World, local: Employer, b: BackendRun)
    requires HeedsBackends(cfg, env, w, local, b) && w.employer.Some? && !CallFails(env.backendReplies)
    requires Faultless(env.flzAddFaults) && Faultless(env.flzDeleteFaults) && !env.recordPatchFails
    requires local.recorded == "" || !cfg.recordLifecycle || !cfg.follow
    ensures b.stage.Done?
  {
    hide Obeys;
  }

  // ----- smooth passes -----

  /** Every call but those on the pods' entries is answered without an error, and nobody interferes; the adapter may still refuse. */
  ghost predicate Smooth(env: PassEnv) {
    && !env.getFails && !env.updateFails && !env.patchFails && !env.recordPatchFails
    && !env.cleanGetFails && !env.cleanUpdateFails && !env.listVipsFails && !env.listBackendsFails && !env.statusFails
    && env.selected.Some? && env.selectedLater.Some?
    && Faultless(env.flzAddFaults) && Faultless(env.flzDeleteFaults)
    && !CallFails(env.vipReplies) && !CallFails(env.backendReplies)
    && (forall e: Employer :: ExpectedVips(env, e).Some? && ExpectedEmployees(env, e).Some?)
    && (forall k: nat :: Between(env, k) == [])
  }

  /** And so are the calls on the pods' entries, all of them readable. */
  ghost predicate Markable(env: PassEnv, pods: PodStore) {
    Faultless(env.addFaults) && Faultless(env.deleteFaults) && AllReadable(pods)
  }

  /** With a record, no failed call on a pod's entry stops a pass over a deleting employer. */
  predicate Undeterred(cfg: Config, local: Employer) {
    cfg.follow && cfg.recordExpected && local.deleting
  }

  /** The adapter refuses nothing in either sync. */
  ghost predicate Willing(env: PassEnv) {
    Accepting(env.vipReplies) && Accepting(env.backendReplies)
  }

  /** Whatever the adapter expects can be compared with what the provider holds. */
  ghost predicate VipsCompare(cfg: Config, env: PassEnv, vips: map<string, Vip>) {
    forall e: Employer :: ExpectedVips(env, e).Some? ==>
      Comparable(ById(VipId, ExpectedVips(env, e).value), vips, cfg.vipEqual)
  }

  ghost predicate EmployeesCompare(cfg: Config, env: PassEnv, backends: map<string, Employee>) {
    forall e: Employer :: ExpectedEmployees(env, e).Some? ==>
      Comparable(ById(EmployeeId, ExpectedEmployees(env, e).value), backends, cfg.employeeEqual)
  }

  /** Nothing stands in the way of a pass over this world. */
  ghost predicate Clear(cfg: Config, env: PassEnv, w: World) {
    Smooth(env) && w.employer.Some? && VipsCompare(cfg, env, w.vips) && EmployeesCompare(cfg, env, w.backends)
  }

  lemma SmoothMeans(env: PassEnv, k: nat)
    ensures Smooth(env) ==>
      && Between(env, k) == [] && !env.getFails && !env.updateFails && !env.cleanGetFails && !env.cleanUpdateFails
      && !env.statusFails
  {
  }

  lemma ClearMeans(cfg: Config, env: PassEnv, w: World, k: nat)
    ensures Clear(cfg, env, w) ==> Smooth(env) && w.employer.Some? && Between(env, k) == []
    ensures Clear(cfg, env, w) ==> !env.getFails && !env.updateFails
  {
  }

  lemma ClearStays(cfg: Config, env: PassEnv, w: World, w': World)
    ensures Clear(cfg, env, w) && w'.employer.Some? && w'.vips == w.vips && w'.backends == w.backends ==>
      Clear(cfg, env, w')
  {
  }

  // ----- what a pass leaves behind -----

  /** What the pass knew at its requeue decision: the expectations both stores were measured against. */
  datatype Verdict = Undecided | Decided(vips: map<string, Vip>, employees: map<string, Employee>)

  ghost predicate Extends(run: Run, run': Run) {
    run.states != [] && run.states <= run'.states && run.labels <= run'.labels
  }

  lemma ExtendsOn(a: Run, b: Run, c: Run)
    requires Extends(a, b) && Extends(b, c)
    ensures Extends(a, c) && b.labels <= c.labels
  {
  }

  lemma FirstStays(first: Run, run: Run)
    requires Extends(first, run) && first.labels == [Fetch]
    ensures run.states != [] && run.states[0] == first.states[0] && first.labels <= run.labels
    ensures run.labels != [] && run.labels[0] == Fetch
  {
  }

  /** The pass came as far as its clean gate. */
  ghost predicate ReachedGate(run: Run) {
    run.labels != [] && run.labels[|run.labels| - 1].Gate?
  }

  /** The pass had nothing to do, or only ensured the clean finalizer. */
  ghost predicate EndedEarly(run: Run) {
    run.labels == [] || run.labels[|run.labels| - 1] == EnsureClean(true)
  }

  const CleanFailure: Outcome := Failure("clean employer clean-finalizer failed")
  const StatusFailure: Outcome := Failure("record status failed")

  /** The expectation is what the adapter answered, asked about the local copy that a sync step of the run used. */
  ghost predicate VipsMeasured(env: PassEnv, run: Run, expected: map<string, Vip>) {
    exists i :: 0 <= i < |run.labels| && i < |run.states| && run.labels[i].SyncVips?
      && VipsAnswered(env, run.states[i], run.labels[i].expected, expected)
  }

  ghost predicate VipsAnswered(env: PassEnv, s: State, listed: seq<Vip>, expected: map<string, Vip>) {
    s.pc.Marked? && ExpectedVips(env, s.pc.local) == Some(listed) && expected == ById(VipId, listed)
  }

  ghost predicate EmployeesMeasured(env: PassEnv, run: Run, expected: map<string, Employee>) {
    exists i :: 0 <= i < |run.labels| && i < |run.states| && run.labels[i].SyncBackends?
      && EmployeesAnswered(env, run.states[i], run.labels[i].b.expected, expected)
  }

  ghost predicate EmployeesAnswered(env: PassEnv, s: State, listed: seq<Employee>, expected: map<string, Employee>) {
    s.pc.VipsSynced? && ExpectedEmployees(env, s.pc.local) == Some(listed) && expected == ById(EmployeeId, listed)
  }

  /** Dropping the clean finalizer errors: the latest object cannot be read, or has it to lose and cannot be written. */
  predicate DropErrs(cfg: Config, env: PassEnv, s: State) {
    && s.pc.BackendsSynced? && Opens(s.pc)
    && (env.cleanGetFails
        || (env.cleanUpdateFails && s.w.employer.Some?
            && (CLEAN in s.pc.local.finalizers || OldClean(cfg.name) in s.pc.local.finalizers)))
  }

  /** The state the last step was taken in. */
  function BeforeLast(run: Run): State
    requires 0 < |run.labels| <= |run.states|
  {
    run.states[|run.labels| - 1]
  }

  /** A pass that came to its gate has a verdict exactly if neither dropping the finalizer nor recording the status errs. */
  ghost predicate EndsAtGate(cfg: Config, env: PassEnv, run: Run, verdict: Verdict, outcome: Outcome) {
    && (verdict.Decided? ==> ReachedGate(run) && |run.labels| <= |run.states|)
    && (ReachedGate(run) && |run.labels| <= |run.states| ==>
          if DropErrs(cfg, env, BeforeLast(run)) then verdict.Undecided? && outcome == CleanFailure
          else if env.statusFails then verdict.Undecided? && outcome == StatusFailure
          else verdict.Decided?)
  }

  /**
   How a pass that came to its gate ended; a pass that reports no failure has a verdict or ended early, and one that
   ended early reports none; and a verdict is about the answers of the adapter to the pass's own sync steps.
   */
  ghost predicate Accounted(cfg: Config, env: PassEnv, run: Run, verdict: Verdict, outcome: Outcome) {
    && EndsAtGate(cfg, env, run, verdict, outcome)
    && (verdict.Decided? || outcome.Failure? || EndedEarly(run))
    && (EndedEarly(run) && !env.getFails ==> outcome == FINISHED)
    && (verdict.Decided? ==> VipsMeasured(env, run, verdict.vips) && EmployeesMeasured(env, run, verdict.employees))
  }

  /** The decision is another pass exactly when a store still differs from what was expected of it. */
  ghost predicate Settled(cfg: Config, w: World, verdict: Verdict, outcome: Outcome) {
    verdict.Decided? && Reflexive(cfg.vipEqual, verdict.vips) && Reflexive(cfg.employeeEqual, verdict.employees) ==>
      Requeues(cfg.requeueAfter,
               Gap(verdict.vips, w.vips, cfg.vipEqual) > 0 || Gap(verdict.employees, w.backends, cfg.employeeEqual) > 0,
               outcome)
  }

  /** failedExist is the truth about the store: it still differs from what is expected. */
  ghost predicate Truthful<T>(equal: (T, T) -> Equality, expected: map<string, T>, store: map<string, T>, failedExist: bool) {
    Reflexive(equal, expected) ==> (failedExist <==> Gap(expected, store, equal) > 0)
  }

  lemma SyncedFacts<T>(id: T -> string, equal: (T, T) -> Equality, expected: map<string, T>,
                       before: map<string, T>, after: map<string, T>, cud: Cud<T>)
    requires Synced(id, equal, expected, before, after, cud) && Keyed(id, expected) && Keyed(id, before)
    ensures Keyed(id, after)
    ensures Truthful(equal, expected, after, FailedExist(cud))
  {
    hide Synced;
    StaysKeyed(id, equal, expected, before, after, cud);
    if Reflexive(equal, expected) {
      TruthfulFailures(id, equal, expected, before, after, cud);
    }
  }

  /** That many flawless steps were added. */
  ghost predicate Went(from: Run, run: Run, steps: nat) {
    && |run.labels| == |from.labels| + steps
    && forall i :: |from.labels| <= i < |run.labels| ==> Flawless(run.labels[i])
  }

  /** The pass went all the way to its requeue decision, and with nothing refused that is to stop. */
  ghost predicate Ended(env: PassEnv, run: Run, verdict: Verdict, outcome: Outcome) {
    ReachedGate(run) && verdict.Decided? && (Willing(env) ==> outcome == FINISHED)
  }

  /** And it did so in that many flawless steps. */
  ghost predicate Completed(env: PassEnv, from: Run, steps: nat, run: Run, verdict: Verdict, outcome: Outcome) {
    Ended(env, run, verdict, outcome) && (Willing(env) ==> Went(from, run, steps))
  }

  lemma WentOn(env: PassEnv, from: Run, k: nat, mid: Run, steps: nat, run: Run, verdict: Verdict, outcome: Outcome)
    requires mid.labels <= run.labels
    ensures Completed(env, mid, steps, run, verdict, outcome) && (Willing(env) ==> Went(from, mid, k)) ==>
      Completed(env, from, k + steps, run, verdict, outcome)
    ensures Completed(env, mid, steps, run, verdict, outcome) ==> Ended(env, run, verdict, outcome)
  {
    if Completed(env, mid, steps, run, verdict, outcome) && Willing(env) && Went(from, mid, k) {
      forall i | |from.labels| <= i < |mid.labels| ensures Flawless(run.labels[i]) {
        assert run.labels[i] == mid.labels[i];
      }
    }
  }

  lemma WentOne(run: Run, l: Label, run': Run)
    requires run'.labels == run.labels + [l]
    ensures Flawless(l) ==> Went(run, run', 1)
  {
  }

  lemma WentAll(env: PassEnv, run: Run, verdict: Verdict, outcome: Outcome)
    requires Completed(env, Run([], []), 6, run, verdict, outcome) && Willing(env)
    ensures AllFlawless(run) && |run.labels| == 6
  {
  }

  /**
   How far a pass from one world to another got: a pass that meets no employer does nothing; one whose calls are all
   answered ensures the clean finalizer, if that is due, and else runs to its end; over a deleting employer,
   refused nothing, it finishes the deletion; and with a record it runs to its end there whatever becomes of the entries.
   */
  ghost predicate GoesThrough(cfg: Config, env: PassEnv, w: World, w': World, outcome: Outcome, run: Run, verdict: Verdict) {
    && (env.getFails ==> outcome.Failure? && run.labels == [])
    && (!env.getFails && w.employer.None? ==> outcome == FINISHED && run.labels == [])
    && (!env.getFails && w.employer.Some? ==> run.labels != [] && run.labels[0] == Fetch)
    && (Clear(cfg, env, w) && Undeterred(cfg, w.employer.value) ==> Ended(env, run, verdict, outcome))
    && (Clear(cfg, env, w) && Markable(env, w.pods) ==>
          && (NeedsClean(w.employer.value) ==> outcome == FINISHED && run.labels == [Fetch, EnsureClean(true)])
          && (!NeedsClean(w.employer.value) ==> Completed(env, Run([], []), 6, run, verdict, outcome))
          && (w.employer.value.deleting && Willing(env) && SilentAdapter(env) ==>
                w'.vips == map[] && w'.backends == map[] && !HasClean(w')))
  }

  /**
   What Reconcile reports. Its run starts in the world it met, in whatever the history says of that, ends in the world
   it left, and heeds at every step the answers the pass was given; the decision on another pass is about what the
   adapter expects and the provider holds; and the pass got as far as it was let.
   */
  ghost predicate Reports(cfg: Config, env: PassEnv, written: set<string>, w: World, w': World,
                          outcome: Outcome, run: Run, verdict: Verdict) {
    && IsRun(cfg, run) && run.states[0] == State(w, written, Idle)
    && Last(run).w == w' && Last(run).pc == Idle
    && AllHeeded(cfg, env, run)
    && Settled(cfg, w', verdict, outcome) && Accounted(cfg, env, run, verdict, outcome)
    && GoesThrough(cfg, env, w, w', outcome, run, verdict)
  }

  lemma ReportsMeans(cfg: Config, env: PassEnv, written: set<string>, w: World, w': World,
                     outcome: Outcome, run: Run, verdict: Verdict)
    requires Reports(cfg, env, written, w, w', outcome, run, verdict)
    ensures IsRun(cfg, run) && AllHeeded(cfg, env, run) && |run.states| == |run.labels| + 1
    ensures run.states[0] == State(w, written, Idle) && run.states[|run.states| - 1].w == w' && Last(run).pc == Idle
    ensures Settled(cfg, w', verdict, outcome)
    ensures verdict.Decided? ==> VipsMeasured(env, run, verdict.vips) && EmployeesMeasured(env, run, verdict.employees)
  {
    hide Step, AllHeeded, Settled, GoesThrough, VipsMeasured, EmployeesMeasured;
  }

  /**
   Whether the controller runtime asks again is the truth about the two stores exactly if the adapter's interval, if it
   has one, is positive, or nothing is left to do.
   */
  lemma AskedAgainTruthfully(cfg: Config, env: PassEnv, written: set<string>, w: World, w': World,
                             outcome: Outcome, run: Run, verdict: Verdict)
    requires Reports(cfg, env, written, w, w', outcome, run, verdict) && verdict.Decided?
    requires Reflexive(cfg.vipEqual, verdict.vips) && Reflexive(cfg.employeeEqual, verdict.employees)
    ensures var differs := Gap(verdict.vips, w'.vips, cfg.vipEqual) > 0
                        || Gap(verdict.employees, w'.backends, cfg.employeeEqual) > 0;
      (AskedAgain(outcome) <==> differs) <==>
        (!differs || (cfg.requeueAfter.Some? ==> cfg.requeueAfter.value > 0))
    ensures VipsMeasured(env, run, verdict.vips) && EmployeesMeasured(env, run, verdict.employees)
  {
    hide IsRun, AllHeeded, GoesThrough, Gap, Reflexive, VipsMeasured, EmployeesMeasured;
    RequeuesTruthfully(cfg.requeueAfter, Gap(verdict.vips, w'.vips, cfg.vipEqual) > 0
                        || Gap(verdict.employees, w'.backends, cfg.employeeEqual) > 0, outcome);
  }

  /** A pass that was cut off before its first step. */
  lemma ReportsAtOnce(cfg: Config, env: PassEnv, written: set<string>, w: World,
                      outcome: Outcome, run: Run)
    requires run == Run([State(w, written, Idle)], [])
    requires if env.getFails then outcome.Failure? else w.employer.None? && outcome == FINISHED
    ensures Reports(cfg, env, written, w, w, outcome, run, Undecided)
  {
    ClearMeans(cfg, env, w, 0);
    hide Clear, Markable, SilentAdapter;
  }

  /** A pass over an employer, from what is known of it step by step. */
  lemma ReportsInFull(cfg: Config, env: PassEnv, written: set<string>, w: World, w': World,
                      outcome: Outcome, first: Run, run: Run, verdict: Verdict)
    requires !env.getFails && w.employer.Some? && first.labels == [Fetch] && Went(Run([], []), first, 1)
    requires Extends(first, run) && first.states[0] == State(w, written, Idle)
    requires IsRun(cfg, run) && Last(run).w == w' && Last(run).pc == Idle && AllHeeded(cfg, env, run)
    requires Settled(cfg, w', verdict, outcome) && Accounted(cfg, env, run, verdict, outcome)
    requires Clear(cfg, env, w) && Undeterred(cfg, w.employer.value) ==> Ended(env, run, verdict, outcome)
    requires Clear(cfg, env, w) && Markable(env, w.pods) ==>
      if NeedsClean(w.employer.value) then outcome == FINISHED && run.labels == first.labels + [EnsureClean(true)]
      else Completed(env, first, 5, run, verdict, outcome)
    ensures Reports(cfg, env, written, w, w', outcome, run, verdict)
  {
    FirstStays(first, run);
    WentOn(env, Run([], []), 1, first, 5, run, verdict, outcome);
    assert |run.labels| <= |run.states| by { hide Step; }
    HeededRun(cfg, env, (id: string) => id, run);
    hide IsRun, Extends, Clear, Markable, Ended, Completed, Went, Willing, SilentAdapter, AllHeeded, AllSilent, Settled,
         Accounted, HasClean;
    if Clear(cfg, env, w) && Markable(env, w.pods) && w.employer.value.deleting && Willing(env) && SilentAdapter(env) {
      WentAll(env, run, verdict, outcome);
      DeletionCompletes(cfg, run);
    }
  }

  lemma NothingDone(cfg: Config, env: PassEnv, run: Run)
    requires |run.states| == 1 && run.labels == []
    ensures IsRun(cfg, run) && AllHeeded(cfg, env, run)
  {
  }

  lemma NoVerdict(cfg: Config, env: PassEnv, w: World, run: Run, outcome: Outcome)
    requires !ReachedGate(run) && (if EndedEarly(run) then outcome == FINISHED else outcome.Failure?)
    ensures Settled(cfg, w, Undecided, outcome) && Accounted(cfg, env, run, Undecided, outcome)
  {
  }

  /** The pass has taken a step past the first phase, and not its last. */
  ghost predicate Underway(run: Run) {
    run.labels != [] && !run.labels[|run.labels| - 1].Gate? && !run.labels[|run.labels| - 1].EnsureClean?
  }

  lemma CutShort(cfg: Config, env: PassEnv, w: World, run: Run, outcome: Outcome)
    requires Underway(run) && outcome.Failure?
    ensures Settled(cfg, w, Undecided, outcome) && Accounted(cfg, env, run, Undecided, outcome)
  {
  }

  lemma LateFailure(cfg: Config, env: PassEnv, w: World, run: Run, outcome: Outcome)
    requires ReachedGate(run) && EndsAtGate(cfg, env, run, Undecided, outcome) && outcome.Failure?
    ensures Settled(cfg, w, Undecided, outcome) && Accounted(cfg, env, run, Undecided, outcome)
  {
  }

  lemma StillMeasured(env: PassEnv, run: Run, run': Run, vips: map<string, Vip>, employees: map<string, Employee>)
    requires Extends(run, run')
    ensures VipsMeasured(env, run, vips) ==> VipsMeasured(env, run', vips)
    ensures EmployeesMeasured(env, run, employees) ==> EmployeesMeasured(env, run', employees)
  {
    hide VipsAnswered, EmployeesAnswered;
    if VipsMeasured(env, run, vips) {
      var i :| 0 <= i < |run.labels| && i < |run.states| && run.labels[i].SyncVips?
            && VipsAnswered(env, run.states[i], run.labels[i].expected, vips);
      assert run'.labels[i] == run.labels[i] && run'.states[i] == run.states[i];
    }
    if EmployeesMeasured(env, run, employees) {
      var i :| 0 <= i < |run.labels| && i < |run.states| && run.labels[i].SyncBackends?
            && EmployeesAnswered(env, run.states[i], run.labels[i].b.expected, employees);
      assert run'.labels[i] == run.labels[i] && run'.states[i] == run.states[i];
    }
  }

  /** A sync step that has just been taken measures its expectation. */
  lemma JustMeasured(cfg: Config, env: PassEnv, run: Run, l: Label, run': Run)
    requires IsRun(cfg, run) && Extends(run, run') && run'.labels == run.labels + [l] && Heeds(cfg, env, Last(run), l)
    ensures l.SyncVips? ==> VipsMeasured(env, run', ById(VipId, l.expected))
    ensures l.SyncBackends? ==> EmployeesMeasured(env, run', ById(EmployeeId, l.b.expected))
  {
    hide Step;
    assert run'.labels[|run.labels|] == l && run'.states[|run.labels|] == Last(run);
  }

  /** A requeue decision on two truthful flags is about the stores. */
  lemma Concluded(cfg: Config, env: PassEnv, w: World, before: Run, measured: Run, run: Run, verdict: Verdict, outcome: Outcome,
                  vipsFailed: bool, backendsFailed: bool)
    requires verdict.Decided? && Requeues(cfg.requeueAfter, vipsFailed || backendsFailed, outcome)
    requires Truthful(cfg.vipEqual, verdict.vips, w.vips, vipsFailed)
    requires Truthful(cfg.employeeEqual, verdict.employees, w.backends, backendsFailed)
    requires Extends(before, run) && VipsMeasured(env, before, verdict.vips)
    requires Extends(measured, run) && EmployeesMeasured(env, measured, verdict.employees)
    requires ReachedGate(run) && EndsAtGate(cfg, env, run, verdict, outcome)
    ensures Settled(cfg, w, verdict, outcome) && Accounted(cfg, env, run, verdict, outcome)
  {
    hide Extends, VipsMeasured, EmployeesMeasured, Requeues, EndsAtGate;
    StillMeasured(env, before, run, verdict.vips, verdict.employees);
    StillMeasured(env, measured, run, verdict.vips, verdict.employees);
  }

  // ----- one more step of the run -----

  /** The state after a step to this world and point of the pass. */
  function Next(cfg: Config, run: Run, l: Label, w: World, pc: Pc): State
    requires run.states != []
  {
    State(w, WrittenAfter(cfg, Last(run), w.pods, l.Expect?), pc)
  }

  /** The label takes the run there, heeding the answers. */
  ghost predicate Takes(cfg: Config, env: PassEnv, run: Run, l: Label, w: World, pc: Pc)
    requires run.states != []
  {
    Step(cfg, Last(run), l, Next(cfg, run, l, w, pc)) && Heeds(cfg, env, Last(run), l)
  }

  lemma ExtendHeeded(cfg: Config, env: PassEnv, run: Run, l: Label, s: State)
    requires IsRun(cfg, run) && AllHeeded(cfg, env, run) && Heeds(cfg, env, Last(run), l)
    ensures AllHeeded(cfg, env, Extend(run, l, s))
  {
    hide Heeds, Step;
  }

  lemma TakesMove(cfg: Config, env: PassEnv, k: nat, run: Run, move: Move, w: World, pc: Pc)
    requires run.states != [] && Last(run).pc == pc && w == Disturb(cfg, Last(run).w, move) && move in Between(env, k)
    ensures Takes(cfg, env, run, Env(move), w, pc)
  {
    hide Disturb;
  }

  lemma TakesAbort(cfg: Config, env: PassEnv, run: Run, w: World)
    requires run.states != [] && w == Last(run).w && GivesUp(cfg, env, Last(run))
    ensures Takes(cfg, env, run, Abort, w, Idle)
  {
    hide GivesUp;
  }

  lemma TakesFetch(cfg: Config, env: PassEnv, run: Run, w: World)
    requires run.states != [] && w == Last(run).w && Last(run).pc == Idle && w.employer.Some? && !env.getFails
    ensures Takes(cfg, env, run, Fetch, w, Fetched(w.employer.value))
  {
  }

  lemma TakesEnsure(cfg: Config, env: PassEnv, run: Run, local: Employer, ok: bool, w: World)
    requires run.states != [] && Last(run).pc == Fetched(local)
    requires if NeedsClean(local) then CleanStep(cfg, Last(run).w, local, ok, w) else w == Last(run).w
    requires ok == (!NeedsClean(local) || (!env.updateFails && Last(run).w.employer == Some(local)))
    ensures Takes(cfg, env, run, EnsureClean(ok), w, if NeedsClean(local) then Idle else Ensured(local))
  {
    hide CleanStep, WrittenAfter;
  }

  lemma TakesExpect(cfg: Config, env: PassEnv, run: Run, local: Employer, x: ExpectRun, w: World, pc: Pc)
    requires run.states != [] && Last(run).pc == Ensured(local)
    requires !cfg.follow ==> w == Last(run).w && pc == Marked(local, true)
    requires cfg.follow ==>
      && ExpectStep(cfg, Last(run).w, local, x, w) && HeedsExpect(cfg, env, Last(run).w, x)
      && pc == (if ExpectErr(cfg, local, x) then Idle
                else Marked(ExpectLocal(cfg, local, x, w), ExpectClean(cfg, local, x)))
    ensures Takes(cfg, env, run, Expect(x), w, pc)
  {
    hide ExpectStep, ExpectErr, ExpectClean, ExpectLocal, WrittenAfter, HeedsExpect;
  }

  lemma TakesVips(cfg: Config, env: PassEnv, run: Run, local: Employer, expectedClean: bool,
                  expected: seq<Vip>, cud: Cud<Vip>, ok: bool, w: World)
    requires run.states != [] && Last(run).pc == Marked(local, expectedClean)
    requires w == Last(run).w.(vips := w.vips)
    requires Synced(VipId, cfg.vipEqual, ById(VipId, expected), Last(run).w.vips, w.vips, cud)
    requires HeedsVips(env, local, expected, cud, ok)
    ensures Takes(cfg, env, run, SyncVips(expected, cud, ok), w,
                  if ok then VipsSynced(local, expectedClean, IsClean(cud)) else Idle)
  {
    hide Synced, ById, IsClean, WrittenAfter, HeedsVips;
  }

  lemma TakesBackends(cfg: Config, env: PassEnv, run: Run, local: Employer, expectedClean: bool, vipsClean: bool,
                      b: BackendRun, w: World, local': Employer)
    requires run.states != [] && Last(run).pc == VipsSynced(local, expectedClean, vipsClean)
    requires BackendStep(cfg, Last(run).w, local, b, w, if b.stage.Done? then local' else local)
    requires HeedsBackends(cfg, env, Last(run).w, local, b)
    ensures Takes(cfg, env, run, SyncBackends(b), w,
                  if b.stage.Done? then BackendsSynced(local', expectedClean, vipsClean, IsClean(b.cud)) else Idle)
  {
    hide BackendStep, IsClean, WrittenAfter, HeedsBackends;
  }

  lemma TakesGate(cfg: Config, env: PassEnv, run: Run, local: Employer, expectedClean: bool, vipsClean: bool,
                  backendsClean: bool, w: World)
    requires run.states != []
    requires Last(run).pc == BackendsSynced(local, expectedClean, vipsClean, backendsClean)
    requires GateStep(cfg, Last(run).w, local, Opens(Last(run).pc), !env.cleanGetFails && !env.cleanUpdateFails, w)
    ensures Takes(cfg, env, run, Gate(!env.cleanGetFails && !env.cleanUpdateFails), w, Idle)
  {
    hide GateStep, WrittenAfter;
  }

  /** A sync of employers against a faithful listing: the step it takes, and the truth of its flag. */
  lemma VipsTaken(cfg: Config, env: PassEnv, run: Run, local: Employer, expectedClean: bool,
                  expected: seq<Vip>, cud: Cud<Vip>, ok: bool, w: World)
    requires run.states != [] && Last(run).pc == Marked(local, expectedClean)
    requires w == Last(run).w.(vips := Applied(VipId, Last(run).w.vips, cud)) && Keyed(VipId, Last(run).w.vips)
    requires Synced(VipId, cfg.vipEqual, ById(VipId, expected), Last(run).w.vips, w.vips, cud)
    requires HeedsVips(env, local, expected, cud, ok)
    ensures Takes(cfg, env, run, SyncVips(expected, cud, ok), w,
                  if ok then VipsSynced(local, expectedClean, IsClean(cud)) else Idle)
    ensures Keyed(VipId, w.vips) && Truthful(cfg.vipEqual, ById(VipId, expected), w.vips, FailedExist(cud))
    ensures ok && Accepting(env.vipReplies) ==> !FailedExist(cud)
  {
    assert Obeys(VipId, env.vipReplies, cud) && ok == !CallFails(env.vipReplies);
    WhatItObeys(VipId, env.vipReplies, cud);
    hide Synced, ById, IsClean, FailedExist, Applied, Takes, Truthful, HeedsVips, Obeys, Accepting;
    SyncedFacts(VipId, cfg.vipEqual, ById(VipId, expected), Last(run).w.vips, w.vips, cud);
    TakesVips(cfg, env, run, local, expectedClean, expected, cud, ok, w);
  }

  /** A sync of employees against a faithful listing. */
  lemma BackendsTaken(cfg: Config, env: PassEnv, run: Run, local: Employer, expectedClean: bool,
                      vipsClean: bool, b: BackendRun, middle: World, w: World, local': Employer)
    requires run.states != [] && Last(run).pc == VipsSynced(local, expectedClean, vipsClean)
    requires middle == Last(run).w.(backends := middle.backends) && w.vips == middle.vips && w.backends == middle.backends
    requires FinalizerStep(cfg, middle, local, b, w, if b.stage.Done? then local' else local)
    requires Keyed(EmployeeId, Last(run).w.backends)
    requires Synced(EmployeeId, cfg.employeeEqual, ById(EmployeeId, b.expected), Last(run).w.backends, middle.backends, b.cud)
    requires HeedsBackends(cfg, env, Last(run).w, local, b)
    ensures Takes(cfg, env, run, SyncBackends(b), w,
                  if b.stage.Done? then BackendsSynced(local', expectedClean, vipsClean, IsClean(b.cud)) else Idle)
    ensures Keyed(EmployeeId, w.backends)
    ensures Truthful(cfg.employeeEqual, ById(EmployeeId, b.expected), w.backends, FailedExist(b.cud))
    ensures b.stage.Done? && Accepting(env.backendReplies) ==> !FailedExist(b.cud)
  {
    assert Obeys(EmployeeId, env.backendReplies, b.cud) && (b.stage.Done? ==> !CallFails(env.backendReplies));
    WhatItObeys(EmployeeId, env.backendReplies, b.cud);
    hide Synced, ById, IsClean, FailedExist, Takes, Truthful, FinalizerStep, BackendStep, HeedsBackends, Obeys, Accepting;
    SyncedFacts(EmployeeId, cfg.employeeEqual, ById(EmployeeId, b.expected), Last(run).w.backends, w.backends, b.cud);
    BackendStepFrom(cfg, Last(run).w, middle, local, b, w, if b.stage.Done? then local' else local);
    TakesBackends(cfg, env, run, local, expectedClean, vipsClean, b, w, local');
  }

  /** The two halves of a sync of employees, put together. */
  lemma BackendStepFrom(cfg: Config, w: World, middle: World, local: Employer, b: BackendRun, w': World, local': Employer)
    requires middle == w.(backends := middle.backends) && w'.vips == middle.vips && w'.backends == middle.backends
    requires FinalizerStep(cfg, middle, local, b, w', local')
    requires Synced(EmployeeId, cfg.employeeEqual, ById(EmployeeId, b.expected), w.backends, middle.backends, b.cud)
    ensures BackendStep(cfg, w, local, b, w', local')
  {
    hide Synced, ById, AllAdds, AllDeletes, RecordPatch, WithFinalizer, WithoutFinalizer;
  }

  lemma NothingWritten(cfg: Config, w: World, local: Employer, b: BackendRun)
    requires b.stage.AdapterFailed? && b.added == {} && b.removed == {}
    ensures FinalizerStep(cfg, w, local, b, w, local)
  {
    NoFinalizers(w.pods, cfg.flz);
  }

  lemma NoFinalizers(pods: PodStore, flz: string)
    ensures WithoutFinalizer(WithFinalizer(pods, flz, {}), flz, {}) == pods
  {
  }
}
