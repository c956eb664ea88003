/**
 One wave of lifecycle-finalizer adds, call by call at the API server: every goroutine reads its
 pod and later updates it, version checked, while other goroutines and foreign writers do the same.
 */
module InterleavedAdds {
  import opened Pods

  /** A stored pod: its resource version and finalizers. */
  datatype Object = Object(version: nat, finalizers: seq<string>)

  /** Where one goroutine is: not started, holding what its Get returned, or done with nil or an error. */
  datatype Call = Start | Holding(read: Object) | Returned(ok: bool)

  /** Versions come from one clock, as resource versions do. */
  datatype System = System(objects: map<string, Object>, clock: nat, calls: seq<Call>)

  datatype Step =
    | Get(i: nat, fails: bool)
    | Update(i: nat, fails: bool)
    | Write(name: string, finalizers: seq<string>)   // a foreign writer stores the pod, new or not
    | Remove(name: string)

  /** The wave's parameters: the pod each goroutine is for, and the finalizer. */
  datatype Wave = Wave(names: seq<string>, flz: string)

  ghost predicate Next(wave: Wave, s: System, step: Step, s': System) {
    match step
    case Get(i, fails) =>
      && i < |wave.names| && |s.calls| == |wave.names| && s.calls[i].Start?
      && var name := wave.names[i];
      s' == s.(calls := s.calls[i :=
        if fails then Returned(false)
        else if name !in s.objects then Returned(true)
        else if wave.flz in s.objects[name].finalizers then Returned(true)
        else Holding(s.objects[name])])
    case Update(i, fails) =>
      && i < |wave.names| && |s.calls| == |wave.names| && s.calls[i].Holding?
      && var name := wave.names[i];
      if fails || name !in s.objects || s.objects[name].version != s.calls[i].read.version
      then s' == s.(calls := s.calls[i := Returned(false)])
      else s' == System(s.objects[name := Object(s.clock, s.calls[i].read.finalizers + [wave.flz])], s.clock + 1,
                        s.calls[i := Returned(true)])
    case Write(name, finalizers) =>
      s' == s.(objects := s.objects[name := Object(s.clock, finalizers)], clock := s.clock + 1)
    case Remove(name) =>
      s' == s.(objects := s.objects - {name})
  }

  datatype Run = Run(states: seq<System>, steps: seq<Step>)

  ghost predicate IsRun(wave: Wave, run: Run) {
    && |run.states| == |run.steps| + 1
    && |run.states[0].calls| == |wave.names|
    && (forall i :: 0 <= i < |run.states[0].calls| ==> run.states[0].calls[i] == Start)
    && (forall n :: n in run.states[0].objects ==> run.states[0].objects[n].version < run.states[0].clock)
    && (forall k :: 0 <= k < |run.steps| ==> Next(wave, run.states[k], run.steps[k], run.states[k + 1]))
  }

  /** A read whose version is still the stored one is what is stored. */
  ghost predicate Fresh(wave: Wave, s: System) {
    && |s.calls| == |wave.names|
    && (forall n :: n in s.objects ==> s.objects[n].version < s.clock)
    && (forall i :: 0 <= i < |s.calls| && s.calls[i].Holding? ==>
          && s.calls[i].read.version < s.clock && wave.flz !in s.calls[i].read.finalizers
          && (wave.names[i] in s.objects && s.objects[wave.names[i]].version == s.calls[i].read.version ==>
                s.objects[wave.names[i]] == s.calls[i].read))
  }

  lemma FreshStep(wave: Wave, s: System, step: Step, s': System)
    requires Fresh(wave, s) && Next(wave, s, step, s')
    ensures Fresh(wave, s')
  {
  }

  lemma {:induction false} FreshAlong(wave: Wave, run: Run, k: nat)
    requires IsRun(wave, run) && k < |run.states|
    ensures Fresh(wave, run.states[k])
  {
    hide Next;
    if k > 0 {
      FreshAlong(wave, run, k - 1);
      hide Fresh;
      FreshStep(wave, run.states[k - 1], run.steps[k - 1], run.states[k]);
    }
  }

  /**
   In every interleaving, no step of the wave loses a finalizer: each pod stored before the step is stored after it,
   with the list it had, or with this finalizer appended.
   */
  lemma NoFinalizerLost(wave: Wave, run: Run, k: nat, n: string)
    requires IsRun(wave, run) && k < |run.steps| && (run.steps[k].Get? || run.steps[k].Update?)
    requires n in run.states[k].objects
    ensures n in run.states[k + 1].objects
    ensures var before, after := run.states[k].objects[n].finalizers, run.states[k + 1].objects[n].finalizers;
      after == before || (after == before + [wave.flz] && wave.flz !in before)
  {
    FreshAlong(wave, run, k);
    hide IsRun;
    assert Next(wave, run.states[k], run.steps[k], run.states[k + 1]) by { StepOf(wave, run, k); }
  }

  lemma StepOf(wave: Wave, run: Run, k: nat)
    requires IsRun(wave, run) && k < |run.steps|
    ensures Next(wave, run.states[k], run.steps[k], run.states[k + 1])
  {
  }

  /** The pod was there, carrying the finalizer. */
  ghost predicate CarriesAt(wave: Wave, s: System, i: nat)
    requires i < |wave.names|
  {
    wave.names[i] in s.objects && wave.flz in s.objects[wave.names[i]].finalizers
  }

  /**
   Step j is where call i took effect: its own Update stored the pod with the finalizer, or its own Get found it there
   already, or found no such pod.
   */
  ghost predicate CommitsAt(wave: Wave, run: Run, j: nat, i: nat)
    requires i < |wave.names| && j < |run.steps| && j + 1 < |run.states|
  {
    || (run.steps[j] == Update(i, false) && CarriesAt(wave, run.states[j + 1], i))
    || (run.steps[j] == Get(i, false) && (CarriesAt(wave, run.states[j], i) || wave.names[i] !in run.states[j].objects))
  }

  /** A call that has returned nil took effect at a step of its own. */
  lemma {:induction false} NilMeansCommitted(wave: Wave, run: Run, k: nat, i: nat) returns (j: nat)
    requires IsRun(wave, run) && k < |run.states| && i < |wave.names|
    requires |run.states[k].calls| == |wave.names| && run.states[k].calls[i] == Returned(true)
    ensures j < k && CommitsAt(wave, run, j, i)
    decreases k
  {
    hide Next;
    assert k > 0;
    FreshAlong(wave, run, k - 1);
    hide Fresh;
    if run.states[k - 1].calls[i] == Returned(true) {
      j := NilMeansCommitted(wave, run, k - 1, i);
    } else {
      ReturnStep(wave, run.states[k - 1], run.steps[k - 1], run.states[k], i);
      j := k - 1;
    }
  }

  lemma ReturnStep(wave: Wave, s: System, step: Step, s': System, i: nat)
    requires Fresh(wave, s) && Next(wave, s, step, s') && i < |wave.names|
    requires s.calls[i] != Returned(true) && s'.calls[i] == Returned(true)
    ensures step == Get(i, false) || step == Update(i, false)
    ensures step.Update? ==> CarriesAt(wave, s', i)
    ensures step.Get? ==> (wave.names[i] in s.objects ==> CarriesAt(wave, s, i))
  {
  }

  /**
   If every call of the wave returned nil, then every pod named in it either carried the finalizer at its call's commit
   point, or did not exist when its call read it.
   */
  lemma AllNilMeansAllCommitted(wave: Wave, run: Run, i: nat) returns (j: nat)
    requires IsRun(wave, run) && i < |wave.names|
    requires var last := run.states[|run.steps|];
      |last.calls| == |wave.names| && forall c :: 0 <= c < |last.calls| ==> last.calls[c] == Returned(true)
    ensures j < |run.steps| && CommitsAt(wave, run, j, i)
  {
    j := NilMeansCommitted(wave, run, |run.steps|, i);
  }

  /**
   A call that nobody disturbs goes through: if its Get found the pod without the finalizer, and the pod is as it was
   read when its Update comes, the call returns nil and the pod has the finalizer after all the others.
   */
  lemma UndisturbedAdd(wave: Wave, s: System, read: System, s': System, after: System, i: nat)
    requires i < |wave.names| && |s.calls| == |wave.names| && Next(wave, s, Get(i, false), read)
    requires wave.names[i] in s.objects && wave.flz !in s.objects[wave.names[i]].finalizers
    requires s'.calls == read.calls && wave.names[i] in s'.objects && s'.objects[wave.names[i]] == s.objects[wave.names[i]]
    requires Next(wave, s', Update(i, false), after)
    ensures after.calls[i] == Returned(true)
    ensures wave.names[i] in after.objects
      && after.objects[wave.names[i]].finalizers == s.objects[wave.names[i]].finalizers + [wave.flz]
  {
  }

  /** A call with nothing to do returns nil at once, and one whose pod was written since it was read reports that. */
  lemma OtherAnswers(wave: Wave, s: System, step: Step, s': System, i: nat)
    requires i < |wave.names| && |s.calls| == |wave.names| && Next(wave, s, step, s')
    ensures (step == Get(i, false)
      && (wave.names[i] in s.objects ==> wave.flz in s.objects[wave.names[i]].finalizers)) ==>
      s'.calls[i] == Returned(true) && s'.objects == s.objects
    ensures step.Get? && step.i == i && step.fails ==> s'.calls[i] == Returned(false)
    ensures (step.Update? && step.i == i
      && (step.fails || wave.names[i] !in s.objects || s.objects[wave.names[i]].version != s.calls[i].read.version)) ==>
      s'.calls[i] == Returned(false) && s'.objects == s.objects
  {
  }
}
