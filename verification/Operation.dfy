/**
 The engine in operation: any number of passes, with anything others do before, between and during them, make one run,
 and what the passes are given decides which of the run theorems apply to it.
 */
module Operation {
  import opened Basics
  import opened Machine
  import opened Runs
  import opened Record
  import opened Carriers
  import opened Pass
  import Controller = Consist

  /** What happens next to an employer: a pass, with the answers it will get, or a move of somebody else. */
  datatype Event = PassOf(env: PassEnv) | MoveOf(move: Move)

  ghost predicate SilentPasses(events: seq<Event>) {
    forall i :: 0 <= i < |events| && events[i].PassOf? ==> SilentAdapter(events[i].env)
  }

  ghost predicate NobodyCreatesDuring(events: seq<Event>) {
    forall i :: 0 <= i < |events| && events[i].PassOf? ==> NobodyCreates(events[i].env)
  }

  ghost predicate RecordingPasses(cfg: Config, events: seq<Event>) {
    && cfg.follow && cfg.recordExpected
    && forall i :: 0 <= i < |events| && events[i].PassOf? ==> Recording(cfg, events[i].env) && !events[i].env.patchFails
  }

  ghost predicate WritingPasses(cfg: Config, naming: string -> string, events: seq<Event>) {
    && cfg.follow
    && forall i :: 0 <= i < |events| && events[i].PassOf? ==> Writing(cfg, events[i].env, naming)
  }

  /** The premises of the run theorems, as far as the events grant them. */
  ghost predicate Premised(cfg: Config, naming: string -> string, events: seq<Event>, run: Run) {
    && (SilentPasses(events) ==> AllSilent(run))
    && (NobodyCreatesDuring(events) ==> AllUnreplaced(run))
    && (RecordingPasses(cfg, events) ==> AllPatched(cfg, run))
    && (WritingPasses(cfg, naming, events) ==> AllWritten(cfg, naming, run))
  }

  lemma OneEventMore(cfg: Config, naming: string -> string, events: seq<Event>, e: Event)
    ensures SilentPasses(events + [e]) ==> SilentPasses(events) && (e.PassOf? ==> SilentAdapter(e.env))
    ensures NobodyCreatesDuring(events + [e]) ==> NobodyCreatesDuring(events) && (e.PassOf? ==> NobodyCreates(e.env))
    ensures RecordingPasses(cfg, events + [e]) ==>
      RecordingPasses(cfg, events) && (e.PassOf? ==> Recording(cfg, e.env) && !e.env.patchFails)
    ensures WritingPasses(cfg, naming, events + [e]) ==>
      WritingPasses(cfg, naming, events) && (e.PassOf? ==> Writing(cfg, e.env, naming))
  {
    hide SilentAdapter, NobodyCreates, Recording, Writing;
    assert (events + [e])[|events|] == e;
    assert forall i :: 0 <= i < |events| ==> (events + [e])[i] == events[i];
  }

  lemma JoinPremises(cfg: Config, naming: string -> string, a: Run, b: Run)
    requires |a.states| == |a.labels| + 1 && |b.states| == |b.labels| + 1 && Last(a) == b.states[0]
    ensures AllSilent(a) && AllSilent(b) ==> AllSilent(Join(a, b))
    ensures AllUnreplaced(a) && AllUnreplaced(b) ==> AllUnreplaced(Join(a, b))
    ensures AllPatched(cfg, a) && AllPatched(cfg, b) ==> AllPatched(cfg, Join(a, b))
    ensures AllWritten(cfg, naming, a) && AllWritten(cfg, naming, b) ==> AllWritten(cfg, naming, Join(a, b))
  {
    hide Silent, Unreplaced, Patched, FinalizersWritten;
    var run := Join(a, b);
    forall i | 0 <= i < |run.labels|
      ensures AllSilent(a) && AllSilent(b) ==> Silent(run.states[i], run.labels[i])
      ensures AllUnreplaced(a) && AllUnreplaced(b) ==> Unreplaced(run.states[i], run.labels[i])
      ensures AllPatched(cfg, a) && AllPatched(cfg, b) ==> Patched(cfg, run.states[i], run.labels[i])
      ensures AllWritten(cfg, naming, a) && AllWritten(cfg, naming, b) ==> FinalizersWritten(cfg, naming, run.labels[i])
    {
      JoinAt(a, b, i);
    }
  }

  /** One move between passes, as a run of its own. */
  lemma MoveRun(cfg: Config, naming: string -> string, s: State, move: Move) returns (run: Run)
    requires s.pc.Idle?
    ensures IsRun(cfg, run) && run.states[0] == s && Last(run).w == Disturb(cfg, s.w, move) && Last(run).pc == Idle
    ensures |run.states| == |run.labels| + 1
    ensures AllSilent(run) && AllUnreplaced(run)
    ensures cfg.follow && cfg.recordExpected ==> AllPatched(cfg, run)
    ensures cfg.follow ==> AllWritten(cfg, naming, run)
  {
    hide Disturb, WrittenAfter;
    var w := Disturb(cfg, s.w, move);
    run := Run([s, State(w, WrittenAfter(cfg, s, w.pods, false), Idle)], [Env(move)]);
  }

  lemma JoinedOn(cfg: Config, naming: string -> string, events: seq<Event>, e: Event, run: Run, next: Run)
    requires IsRun(cfg, run) && IsRun(cfg, next) && Last(run) == next.states[0]
    requires Premised(cfg, naming, events, run) && Premised(cfg, naming, [e], next)
    ensures IsRun(cfg, Join(run, next)) && Join(run, next).states[0] == run.states[0]
    ensures Last(Join(run, next)) == Last(next)
    ensures Premised(cfg, naming, events + [e], Join(run, next))
  {
    assert |run.states| == |run.labels| + 1 && |next.states| == |next.labels| + 1;
    hide Step, SilentPasses, NobodyCreatesDuring, RecordingPasses, WritingPasses, AllSilent, AllUnreplaced, AllPatched,
         AllWritten, SilentAdapter, NobodyCreates, Recording, Writing;
    JoinRuns(cfg, run, next);
    JoinPremises(cfg, naming, run, next);
    OneEventMore(cfg, naming, events, e);
    AloneMeans(cfg, naming, e);
  }

  lemma AloneMeans(cfg: Config, naming: string -> string, e: Event)
    ensures SilentPasses([e]) <==> (e.PassOf? ==> SilentAdapter(e.env))
    ensures NobodyCreatesDuring([e]) <==> (e.PassOf? ==> NobodyCreates(e.env))
    ensures RecordingPasses(cfg, [e]) <==>
      cfg.follow && cfg.recordExpected && (e.PassOf? ==> Recording(cfg, e.env) && !e.env.patchFails)
    ensures WritingPasses(cfg, naming, [e]) <==> cfg.follow && (e.PassOf? ==> Writing(cfg, e.env, naming))
  {
    hide SilentAdapter, NobodyCreates, Recording, Writing;
    assert [e][0] == e;
  }

  /** A pass's own run meets the premises its answers grant. */
  lemma PassPremised(cfg: Config, naming: string -> string, env: PassEnv, run: Run)
    requires AllHeeded(cfg, env, run) && |run.states| == |run.labels| + 1
    ensures Premised(cfg, naming, [PassOf(env)], run)
  {
    hide AllHeeded, SilentPasses, NobodyCreatesDuring, RecordingPasses, WritingPasses, AllSilent, AllUnreplaced, AllPatched,
         AllRecordable, AllWritten, SilentAdapter, NobodyCreates, Recording, Writing;
    HeededRun(cfg, env, naming, run);
    AloneMeans(cfg, naming, PassOf(env));
  }

  lemma MovePremised(cfg: Config, naming: string -> string, move: Move, run: Run)
    requires AllSilent(run) && AllUnreplaced(run)
    requires (cfg.follow && cfg.recordExpected ==> AllPatched(cfg, run)) && (cfg.follow ==> AllWritten(cfg, naming, run))
    ensures Premised(cfg, naming, [MoveOf(move)], run)
  {
    hide AllSilent, AllUnreplaced, AllPatched, AllWritten;
  }

  lemma NothingYet(cfg: Config, naming: string -> string, s: State)
    ensures IsRun(cfg, Run([s], [])) && Last(Run([s], [])) == s && Premised(cfg, naming, [], Run([s], []))
  {
  }

  /** The run of everything that happens, in the order in which it does. */
  method Operate(c: Controller.Consist, events: seq<Event>, ghost naming: string -> string) returns (ghost run: Run)
    requires c.Valid()
    modifies c
    ensures c.Valid() && IsRun(c.cfg, run) && run.states[0] == State(old(c.Now()), {}, Idle)
    ensures Last(run).w == c.Now() && Last(run).pc == Idle
    ensures Premised(c.cfg, naming, events, run)
  {
    run := Run([State(c.Now(), {}, Idle)], []);
    NothingYet(c.cfg, naming, State(c.Now(), {}, Idle));
    hide IsRun, Premised, AllHeeded, Settled, Accounted, GoesThrough, Reports, Disturb;
    for i := 0 to |events|
      invariant c.Valid() && IsRun(c.cfg, run) && run.states != [] && run.states[0] == State(old(c.Now()), {}, Idle)
      invariant Last(run).w == c.Now() && Last(run).pc == Idle
      invariant Premised(c.cfg, naming, events[..i], run)
    {
      assert events[..i + 1] == events[..i] + [events[i]];
      ghost var next;
      match events[i] {
        case PassOf(env) =>
          ghost var w, written := c.Now(), Last(run).written;
          var outcome;
          ghost var verdict;
          outcome, next, verdict := c.Reconcile(env, written);
          ReportsMeans(c.cfg, env, written, w, c.Now(), outcome, next, verdict);
          PassPremised(c.cfg, naming, env, next);
        case MoveOf(move) =>
          next := MoveRun(c.cfg, naming, Last(run), move);
          MovePremised(c.cfg, naming, move, next);
          c.MoveKeepsStores(c.cfg, c.Now(), move);
          var w := Disturb(c.cfg, c.Now(), move);
          c.employer, c.pods := w.employer, w.pods;
      }
      JoinedOn(c.cfg, naming, events[..i], events[i], run, next);
      run := Join(run, next);
    }
    assert events[..|events|] == events;
  }

  /**
   What operation keeps, in every state, as far as the events grant the premises: the provider is free of orphans, every
   entry this controller wrote is on record, and every pod with the lifecycle finalizer has a provider entry.
   */
  ghost predicate Kept(cfg: Config, naming: string -> string, events: seq<Event>, s: State) {
    && (SilentPasses(events) && NobodyCreatesDuring(events) ==> NoOrphan(s.w))
    && (RecordingPasses(cfg, events) ==> OnRecord(s))
    && (WritingPasses(cfg, naming, events) ==> Registered(cfg, naming, s))
  }

  lemma OperationKeeps(cfg: Config, naming: string -> string, events: seq<Event>, run: Run, k: nat)
    requires IsRun(cfg, run) && Start(cfg, run.states[0]) && k < |run.states| && Premised(cfg, naming, events, run)
    ensures Kept(cfg, naming, events, run.states[k])
  {
    hide IsRun, Start, NoOrphan, OnRecord, Registered, Covered, SilentPasses, NobodyCreatesDuring, RecordingPasses,
         WritingPasses, AllSilent, AllUnreplaced, AllPatched, AllWritten;
    if SilentPasses(events) && NobodyCreatesDuring(events) {
      NoOrphanEver(cfg, run, k);
    }
    if RecordingPasses(cfg, events) {
      CoveredAlong(cfg, run, k);
      CoveredIsOnRecord(run.states[k]);
    }
    if WritingPasses(cfg, naming, events) {
      CarriersRegistered(cfg, naming, run, k);
    }
  }

  /** Any number of passes and moves, from a start with an empty provider, keep all that in every state. */
  method OperateSafely(c: Controller.Consist, events: seq<Event>, ghost naming: string -> string) returns (ghost run: Run)
    requires c.Valid() && Start(c.cfg, State(c.Now(), {}, Idle))
    modifies c
    ensures c.Valid() && IsRun(c.cfg, run) && run.states[0] == State(old(c.Now()), {}, Idle) && Last(run).w == c.Now()
    ensures forall k :: 0 <= k < |run.states| ==> Kept(c.cfg, naming, events, run.states[k])
    ensures SilentPasses(events) && NobodyCreatesDuring(events) ==> NoOrphan(c.Now())
  {
    run := Operate(c, events, naming);
    hide Start, IsRun, Premised, NoOrphan, SilentPasses, NobodyCreatesDuring;
    forall k | 0 <= k < |run.states| ensures Kept(c.cfg, naming, events, run.states[k]) {
      OperationKeeps(c.cfg, naming, events, run, k);
    }
    assert run.states != [] && Kept(c.cfg, naming, events, run.states[|run.states| - 1]);
  }
}
