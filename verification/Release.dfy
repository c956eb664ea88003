/**
 The end of a deletion as Reconcile reports it: a pass that came to its decision has taken the clean finalizer off
 exactly if its gate was open, and a pass may finish without asking for another although the gate stays shut.
 */
module Release {
  import opened Basics
  import opened Pods
  import opened Expected
  import opened Diff
  import opened Provider
  import opened Machine
  import opened Runs
  import opened Record
  import opened Pass
  import Text

  lemma {:induction false} SoundFrom(cfg: Config, run: Run, k: nat)
    requires IsRun(cfg, run) && Sound(run.states[0]) && k < |run.states|
    ensures Sound(run.states[k])
  {
    hide Step, Sound;
    if k > 0 {
      SoundFrom(cfg, run, k - 1);
      SoundStep(cfg, run.states[k - 1], run.labels[k - 1], run.states[k]);
    }
  }

  /** At the gate, if dropping the finalizer does not err. */
  lemma GateReleases(cfg: Config, env: PassEnv, s: State, l: Label, s': State)
    requires Sound(s) && Step(cfg, s, l, s') && Heeds(cfg, env, s, l) && l.Gate? && !DropErrs(cfg, env, s)
    ensures s.pc.BackendsSynced? && (HasClean(s'.w) <==> HasClean(s.w) && !Opens(s.pc))
  {
    hide WrittenAfter, Keyed, CleanFlags;
  }

  /** What a report with a verdict says of the pass's last step. */
  lemma DecidedAtGate(cfg: Config, env: PassEnv, written: set<string>, w: World, w': World,
                      outcome: Outcome, run: Run, verdict: Verdict)
    requires Reports(cfg, env, written, w, w', outcome, run, verdict) && verdict.Decided?
    ensures |run.states| == |run.labels| + 1 && run.labels != [] && run.labels[|run.labels| - 1].Gate?
    ensures BeforeLast(run) == run.states[|run.labels| - 1] && !DropErrs(cfg, env, BeforeLast(run)) && !env.statusFails
  {
    hide Step, AllHeeded, Settled, GoesThrough, VipsMeasured, EmployeesMeasured, DropErrs;
  }

  lemma StepAt(cfg: Config, env: PassEnv, run: Run, k: nat)
    requires IsRun(cfg, run) && AllHeeded(cfg, env, run) && k < |run.labels|
    ensures |run.states| == |run.labels| + 1
    ensures Step(cfg, run.states[k], run.labels[k], run.states[k + 1]) && Heeds(cfg, env, run.states[k], run.labels[k])
  {
    hide Step, Heeds;
  }

  /**
   No failure at the end of a pass is swallowed: a pass that comes to its decision has recorded the status, and has
   left the employer without the clean finalizer exactly if it had none before, or the gate was open.
   */
  lemma ReleasedExactly(cfg: Config, env: PassEnv, written: set<string>, w: World, w': World,
                        outcome: Outcome, run: Run, verdict: Verdict)
    requires Reports(cfg, env, written, w, w', outcome, run, verdict) && verdict.Decided?
    requires Sound(State(w, written, Idle))
    ensures 0 < |run.labels| <= |run.states| && BeforeLast(run).pc.BackendsSynced? && !env.statusFails
    ensures HasClean(w') <==> HasClean(BeforeLast(run).w) && !Opens(BeforeLast(run).pc)
  {
    hide *;
    ReportsMeans(cfg, env, written, w, w', outcome, run, verdict);
    DecidedAtGate(cfg, env, written, w, w', outcome, run, verdict);
    var k := |run.labels| - 1;
    StepAt(cfg, env, run, k);
    SoundFrom(cfg, run, k);
    GateReleases(cfg, env, run.states[k], run.labels[k], run.states[k + 1]);
  }

  // ----- a deletion that stalls -----

  /** A pod whose annotation cannot be read, and that is here to stay. */
  ghost predicate Unreadable(pods: PodStore, n: string) {
    n in pods && pods[n].available.Malformed? && !pods[n].deleting
  }

  /** The employer of the pass is being deleted, the pod cannot be read, and the pass does not hold it clean. */
  ghost predicate Stalled(s: State, n: string, pinned: bool) {
    && Unreadable(s.w.pods, n)
    && (s.w.employer.Some? ==> s.w.employer.value.deleting) && HasClean(s.w) == pinned
    && (!s.pc.Idle? ==> s.pc.local.deleting)
    && (s.pc.Marked? || s.pc.VipsSynced? || s.pc.BackendsSynced? ==> !s.pc.expectedClean)
  }

  lemma {:induction false} StaysUnpicked(xs: seq<string>, indices: set<nat>, i: nat)
    requires i < |xs| && i !in indices
    ensures xs[i] in PickNot(xs, indices)
  {
    if i < |xs| - 1 {
      StaysUnpicked(xs[..|xs| - 1], indices, i);
    }
  }

  /** The entries of an unreadable pod cannot be taken off, so the phase does not answer clean. */
  lemma NotClean(cfg: Config, w: World, local: Employer, x: ExpectRun, w': World, n: string)
    requires local.deleting && ExpectStep(cfg, w, local, x, w') && Unreadable(w.pods, n) && n in x.selected
    ensures !ExpectClean(cfg, local, x)
  {
    assert n in Elems(x.toDelete);
    var i :| 0 <= i < |x.toDelete| && x.toDelete[i] == n;
    assert i !in x.deleteOk;
    StaysUnpicked(x.toDelete, x.deleteOk, i);
  }

  lemma StaysUnreadable(cfg: Config, s: State, x: ExpectRun, s': State, n: string)
    requires Expects(cfg, s, x, s') && Unreadable(s.w.pods, n)
    ensures Unreadable(s'.w.pods, n) && HasClean(s'.w) == HasClean(s.w)
    ensures s'.w.employer.Some? ==> s.w.employer.Some? && s'.w.employer.value.deleting == s.w.employer.value.deleting
    ensures !s'.pc.Idle? ==> s'.pc.Marked? && (s'.pc.local == s.pc.local || s'.w.employer == Some(s'.pc.local))
  {
    hide ExpectPlan, ExpectErr, ExpectClean, ExpectText, ExpectPatches, At;
  }

  lemma StalledExpect(cfg: Config, env: PassEnv, s: State, l: Label, s': State, n: string, pinned: bool)
    requires Stalled(s, n, pinned) && Step(cfg, s, l, s') && Heeds(cfg, env, s, l) && l.Expect?
    requires cfg.follow && n in Answer(env.selected)
    ensures Stalled(s', n, pinned)
  {
    assert Expects(cfg, s, l.x, s') && HeedsExpect(cfg, env, s.w, l.x);
    StaysUnreadable(cfg, s, l.x, s', n);
    NotClean(cfg, s.w, s.pc.local, l.x, s'.w, n);
    hide Step, Heeds, HasClean, ExpectStep, ExpectErr, ExpectLocal, ExpectClean;
  }

  lemma StalledBackends(cfg: Config, s: State, l: Label, s': State, n: string, pinned: bool)
    requires Stalled(s, n, pinned) && Step(cfg, s, l, s') && l.SyncBackends?
    ensures Stalled(s', n, pinned)
  {
    BackendsKeep(cfg, s, l.b, s');
    SyncUnfolded(cfg, s, l.b, s');
    hide Step, SyncsBackends;
  }

  lemma StalledOther(cfg: Config, env: PassEnv, s: State, l: Label, s': State, n: string, pinned: bool)
    requires Stalled(s, n, pinned) && Step(cfg, s, l, s') && Heeds(cfg, env, s, l) && !l.Expect? && !l.SyncBackends?
    requires forall k: nat :: Between(env, k) == []
    ensures Stalled(s', n, pinned)
  {
    hide Synced, WrittenAfter, CleanStep;
  }

  lemma StalledStep(cfg: Config, env: PassEnv, s: State, l: Label, s': State, n: string, pinned: bool)
    requires Stalled(s, n, pinned) && Step(cfg, s, l, s') && Heeds(cfg, env, s, l)
    requires cfg.follow && n in Answer(env.selected) && (forall k: nat :: Between(env, k) == [])
    ensures Stalled(s', n, pinned)
  {
    hide *;
    match l
    case Expect(_) => StalledExpect(cfg, env, s, l, s', n, pinned);
    case SyncBackends(_) => StalledBackends(cfg, s, l, s', n, pinned);
    case _ => StalledOther(cfg, env, s, l, s', n, pinned);
  }

  lemma {:induction false} StalledAlong(cfg: Config, env: PassEnv, run: Run, n: string, pinned: bool, k: nat)
    requires IsRun(cfg, run) && AllHeeded(cfg, env, run) && Stalled(run.states[0], n, pinned) && k < |run.states|
    requires cfg.follow && n in Answer(env.selected) && (forall j: nat :: Between(env, j) == [])
    ensures Stalled(run.states[k], n, pinned)
  {
    hide Step, Stalled, Heeds, Answer;
    if k > 0 {
      StepAt(cfg, env, run, k - 1);
      StalledAlong(cfg, env, run, n, pinned, k - 1);
      StalledStep(cfg, env, run.states[k - 1], run.labels[k - 1], run.states[k], n, pinned);
    }
  }

  /**
   With a record, the failure to take an entry off a pod is not reported on a deleting employer. So if a selected pod's
   annotation cannot be read, a pass in which nothing else goes wrong finishes, asks for no other pass, and leaves the
   clean finalizer where it is: the deletion does not go on until somebody touches the employer or the pod again.
   */
  lemma DeletionStalls(cfg: Config, env: PassEnv, written: set<string>, w: World, w': World,
                       outcome: Outcome, run: Run, verdict: Verdict, n: string)
    requires Reports(cfg, env, written, w, w', outcome, run, verdict)
    requires Clear(cfg, env, w) && Willing(env) && Undeterred(cfg, w.employer.value)
    requires n in Answer(env.selected) && Unreadable(w.pods, n)
    ensures outcome == FINISHED && !AskedAgain(outcome) && HasClean(w') == HasClean(w)
  {
    ReportsMeans(cfg, env, written, w, w', outcome, run, verdict);
    assert Ended(env, run, verdict, outcome);
    assert (forall k: nat :: Between(env, k) == []) && w.employer.value.deleting && cfg.follow;
    assert Stalled(run.states[0], n, HasClean(w));
    StalledAlong(cfg, env, run, n, HasClean(w), |run.states| - 1);
  }
}
