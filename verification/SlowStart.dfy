/**
 The batch runner behind every pod write. The called function is a state transformer
 over whatever it acts on (`S`); a run is reported as its waves, each the list of its
 calls in the order in which they completed.
 */
module SlowStart {
  import opened Basics

  /** One call of the batch function: the index and error it was given, and its answer. */
  datatype Call = Call(index: nat, seen: Err, result: Err)

  type Wave = seq<Call>

  function IntMin(l: int, r: int): (m: int)
    ensures m <= l && m <= r && (m == l || m == r)
  {
    if l < r then l else r
  }

  // ----- what a run means -----

  function Flatten(waves: seq<Wave>): seq<Call> {
    if waves == [] then [] else Flatten(waves[..|waves| - 1]) + waves[|waves| - 1]
  }

  function Invoke<S>(fn: (S, nat, Err) -> (S, Err), state: S, index: nat, seen: Err): (S, Err) {
    fn(state, index, seen)
  }

  /** The state after the given calls have run in order. */
  function After<S>(fn: (S, nat, Err) -> (S, Err), start: S, calls: seq<Call>): S {
    if calls == [] then start
    else
      var last := calls[|calls| - 1];
      Invoke(fn, After(fn, start, calls[..|calls| - 1]), last.index, last.seen).0
  }

  /** Every recorded answer is the one the function gave in the state that call met. */
  ghost predicate Honest<S>(fn: (S, nat, Err) -> (S, Err), start: S, calls: seq<Call>) {
    calls == [] ||
    var front, last := calls[..|calls| - 1], calls[|calls| - 1];
    Honest(fn, start, front) && last.result == Invoke(fn, After(fn, start, front), last.index, last.seen).1
  }

  function FirstError(calls: seq<Call>): Err {
    if calls == [] then Nil
    else if calls[0].result.Error? then calls[0].result
    else FirstError(calls[1..])
  }

  function Failures(calls: seq<Call>): nat {
    if calls == [] then 0
    else Failures(calls[..|calls| - 1]) + if calls[|calls| - 1].result.Error? then 1 else 0
  }

  /** The first error of the last failing wave: what the next wave's calls are told. */
  function Held(waves: seq<Wave>): Err {
    if waves == [] then Nil
    else
      var e := FirstError(waves[|waves| - 1]);
      if e.Error? then e else Held(waves[..|waves| - 1])
  }

  function Started(waves: seq<Wave>): nat {
    |Flatten(waves)|
  }

  /** A wave calls each of the next |wave| indices once, telling each what was held before. */
  ghost predicate Follows(before: seq<Wave>, wave: Wave) {
    Concurrent(wave, Started(before), |wave|, Held(before))
  }

  ghost predicate WaveByWave(waves: seq<Wave>) {
    waves == [] || (WaveByWave(waves[..|waves| - 1]) && Follows(waves[..|waves| - 1], waves[|waves| - 1]))
  }

  /** Wave sizes of a run that is not cut short: double while enough remains. */
  function Sizes(remaining: int, size: int): (r: seq<int>)
    requires size <= remaining
    ensures forall k :: 0 <= k < |r| ==> r[k] >= 1
    decreases remaining
  {
    if size <= 0 then [] else [size] + Sizes(remaining - size, IntMin(2 * size, remaining - size))
  }

  function SizesOf(waves: seq<Wave>): (r: seq<int>)
    ensures |r| == |waves|
  {
    if waves == [] then [] else SizesOf(waves[..|waves| - 1]) + [|waves[|waves| - 1]|]
  }

  ghost predicate Clean(calls: seq<Call>) {
    forall k :: 0 <= k < |calls| ==> calls[k].result.Nil?
  }

  function Range(lo: nat, hi: nat): (r: set<nat>)
    ensures forall i :: i in r <==> lo <= i < hi
  {
    if lo >= hi then {} else Range(lo, hi - 1) + {hi - 1}
  }

  ghost function Indices(calls: seq<Call>): set<nat> {
    set k | 0 <= k < |calls| :: calls[k].index
  }

  // ----- the runner -----

  /** One wave: the goroutines started for batchSize indices, completing in any order. */
  method RunWave<S>(batchSize: int, index: nat, gotErr: Err, fn: (S, nat, Err) -> (S, Err), start: S)
    returns (wave: Wave, state: S, errCh: seq<Err>)
    requires batchSize > 0
    ensures |wave| == batchSize
    ensures state == After(fn, start, wave) && Honest(fn, start, wave)
    // the channel is not received from during the wave: what it holds at the end is the most it ever held
    ensures |errCh| == Failures(wave) && |errCh| <= batchSize
    ensures FirstError(wave) == if errCh == [] then Nil else errCh[0]
    ensures Concurrent(wave, index, batchSize, gotErr)
  {
    hide *; // the lemmas about no call and about one more say all that is needed
    NoneCalled(fn, start, index, batchSize, gotErr);
    var pending := Range(index, index + batchSize);
    RangeCard(index, index + batchSize);
    wave, state, errCh := [], start, []; // the channel is buffered, with room for batchSize errors
    while pending != {}
      invariant |wave| + |pending| == batchSize
      invariant |errCh| == Failures(wave) <= |wave|
      invariant FirstError(wave) == if errCh == [] then Nil else errCh[0]
      invariant errCh != [] ==> errCh[0].Error?
      invariant state == After(fn, start, wave) && Honest(fn, start, wave)
      invariant Concurrent(wave, index, batchSize, gotErr) && pending !! Indices(wave)
      invariant forall i :: i in pending ==> index <= i < index + batchSize
    {
      var i :| i in pending;
      var (next, err) := Invoke(fn, state, i, gotErr);
      var call := Call(i, gotErr, err);
      assert (next, err) == Invoke(fn, After(fn, start, wave), i, gotErr);
      CallMade(fn, start, wave, call);
      ConcurrentStep(wave, index, batchSize, gotErr, call);
      pending := pending - {i};
      if err.Error? {
        assert |errCh| < batchSize; // the send never finds the channel full
        errCh := errCh + [err];
      }
      state, wave := next, wave + [call];
    }
  }

  lemma NoneCalled<S>(fn: (S, nat, Err) -> (S, Err), start: S, index: nat, size: nat, seen: Err)
    ensures Concurrent([], index, size, seen) && Indices([]) == {}
    ensures Honest(fn, start, []) && After(fn, start, []) == start && Failures([]) == 0 && FirstError([]) == Nil
  {
  }

  /** Calls of one wave: distinct indices of its range, all told the same error. */
  ghost predicate Concurrent(wave: Wave, index: nat, size: int, seen: Err) {
    && (forall j :: 0 <= j < |wave| ==> wave[j].seen == seen && index <= wave[j].index < index + size)
    && (forall i, j :: 0 <= i < j < |wave| ==> wave[i].index != wave[j].index)
  }

  lemma ConcurrentStep(wave: Wave, index: nat, size: int, seen: Err, call: Call)
    requires Concurrent(wave, index, size, seen)
    requires call.seen == seen && index <= call.index < index + size && call.index !in Indices(wave)
    ensures Concurrent(wave + [call], index, size, seen)
    ensures Indices(wave + [call]) == Indices(wave) + {call.index}
  {
    forall k | 0 <= k < |wave| ensures wave[k].index != call.index {
      assert wave[k].index in Indices(wave);
    }
    IndicesAppend(wave, [call]);
    assert [call][0].index in Indices([call]);
  }

  lemma CallMade<S>(fn: (S, nat, Err) -> (S, Err), start: S, wave: Wave, call: Call)
    requires Honest(fn, start, wave)
    requires call.result == Invoke(fn, After(fn, start, wave), call.index, call.seen).1
    ensures Honest(fn, start, wave + [call])
    ensures After(fn, start, wave + [call]) == Invoke(fn, After(fn, start, wave), call.index, call.seen).0
    ensures FirstError(wave + [call]) == if FirstError(wave).Error? then FirstError(wave) else call.result
    ensures Failures(wave + [call]) == Failures(wave) + if call.result.Error? then 1 else 0
  {
    FirstErrorSnoc(wave, call);
    HonestSnoc(fn, start, wave, call);
    assert (wave + [call])[..|wave|] == wave;
  }

  /**
   What a reported run means: the state is what its calls, run in order, lead to; each wave
   takes fresh consecutive indices and is told the error of the last failing wave.
   */
  ghost predicate Traced<S>(fn: (S, nat, Err) -> (S, Err), start: S,
                            waves: seq<Wave>, state: S, successes: int, gotErr: Err) {
    && state == After(fn, start, Flatten(waves))
    && Honest(fn, start, Flatten(waves))
    && WaveByWave(waves)
    && gotErr == Held(waves)
    && successes == |Flatten(waves)| - Failures(Flatten(waves))
  }

  /** No wave before the last one failed. */
  ghost predicate StoppedAtFirstFailure(waves: seq<Wave>) {
    waves != [] ==> Held(waves[..|waves| - 1]).Nil?
  }

  method SlowStartBatch<S>(count: int, initialBatchSize: int, shortCircuit: bool,
                           fn: (S, nat, Err) -> (S, Err), start: S)
    returns (successes: int, gotErr: Err, state: S, waves: seq<Wave>)
    ensures Traced(fn, start, waves, state, successes, gotErr)
    // all waves run, unless short circuit stops the run right after its first failing wave
    ensures var (remaining, size) := Left(waves, count, initialBatchSize);
      && Doubled(waves, count, initialBatchSize)
      && (size <= 0 || (shortCircuit && gotErr.Error?))
    ensures shortCircuit ==> StoppedAtFirstFailure(waves)
  {
    hide *; // the lemmas below say all that is needed
    NothingRun(fn, start, count, initialBatchSize);
    var remaining := count;
    successes, gotErr, state, waves := 0, Nil, start, [];
    var index: nat := 0;
    var batchSize := IntMin(remaining, initialBatchSize);
    while batchSize > 0
      invariant batchSize <= remaining && index == Started(waves)
      invariant (remaining, batchSize) == Left(waves, count, initialBatchSize)
      invariant Doubled(waves, count, initialBatchSize)
      invariant Traced(fn, start, waves, state, successes, gotErr)
      invariant shortCircuit ==> gotErr.Nil? && StoppedAtFirstFailure(waves)
      decreases remaining
    {
      var wave, next, errCh := RunWave(batchSize, index, gotErr, fn, state);
      TracedStep(fn, start, waves, state, successes, gotErr, wave, next);
      DoubledStep(waves, wave, count, initialBatchSize);
      var curSuccesses := batchSize - |errCh|;
      state, waves, successes := next, waves + [wave], successes + curSuccesses;
      index := index + batchSize;
      if |errCh| > 0 {
        gotErr := errCh[0];
        if shortCircuit {
          return;
        }
      }
      remaining := remaining - batchSize;
      batchSize := IntMin(2 * batchSize, remaining);
    }
  }

  lemma NothingRun<S>(fn: (S, nat, Err) -> (S, Err), start: S, count: int, b: int)
    ensures Traced(fn, start, [], start, 0, Nil) && StoppedAtFirstFailure([])
    ensures Left([], count, b) == (count, IntMin(count, b)) && Doubled([], count, b) && Started([]) == 0
  {
  }

  /** The calls left and the size of the next wave, after the given waves. */
  function Left(waves: seq<Wave>, count: int, b: int): (int, int) {
    if waves == [] then (count, IntMin(count, b))
    else
      var (remaining, size) := Left(waves[..|waves| - 1], count, b);
      (remaining - size, IntMin(2 * size, remaining - size))
  }

  /** Every wave had the size due at its turn. */
  ghost predicate Doubled(waves: seq<Wave>, count: int, b: int) {
    waves == [] ||
    var front, last := waves[..|waves| - 1], waves[|waves| - 1];
    Doubled(front, count, b) && |last| == Left(front, count, b).1 && |last| > 0
  }

  lemma DoubledStep(waves: seq<Wave>, wave: Wave, count: int, b: int)
    requires Doubled(waves, count, b) && |wave| == Left(waves, count, b).1 > 0
    ensures Doubled(waves + [wave], count, b)
    ensures var (remaining, size) := Left(waves, count, b);
      Left(waves + [wave], count, b) == (remaining - size, IntMin(2 * size, remaining - size))
  {
  }

  /** The sizes of a run's waves are a prefix of the full plan; all of it when nothing is left to do. */
  lemma {:induction false} RunSizes(waves: seq<Wave>, count: int, b: int)
    requires Doubled(waves, count, b)
    ensures var (remaining, size) := Left(waves, count, b);
      && size <= remaining
      && Sizes(count, IntMin(count, b)) == SizesOf(waves) + Sizes(remaining, size)
  {
    if waves != [] {
      var front, last := waves[..|waves| - 1], waves[|waves| - 1];
      RunSizes(front, count, b);
      assert front + [last] == waves;
      SizesUnfold(front, last, Left(front, count, b).0, |last|);
    }
  }

  lemma TracedStep<S>(fn: (S, nat, Err) -> (S, Err), start: S, waves: seq<Wave>, state: S, successes: int,
                      gotErr: Err, wave: Wave, next: S)
    requires Traced(fn, start, waves, state, successes, gotErr)
    requires next == After(fn, state, wave) && Honest(fn, state, wave)
    requires Concurrent(wave, Started(waves), |wave|, gotErr)
    ensures Failures(wave) > 0 <==> FirstError(wave).Error?
    ensures Traced(fn, start, waves + [wave], next, successes + (|wave| - Failures(wave)),
                   if FirstError(wave).Error? then FirstError(wave) else gotErr)
    ensures Started(waves + [wave]) == Started(waves) + |wave|
    ensures gotErr.Nil? ==> StoppedAtFirstFailure(waves + [wave])
  {
    RunAppended(fn, start, waves, wave);
    FirstErrorIffFailures(wave);
    assert Follows(waves, wave);
  }

  lemma SizesUnfold(waves: seq<Wave>, wave: Wave, remaining: int, size: int)
    requires |wave| == size && 0 < size <= remaining
    ensures SizesOf(waves) + Sizes(remaining, size)
      == SizesOf(waves + [wave]) + Sizes(remaining - size, IntMin(2 * size, remaining - size))
  {
  }

  lemma RunAppended<S>(fn: (S, nat, Err) -> (S, Err), start: S, waves: seq<Wave>, wave: Wave)
    requires Honest(fn, start, Flatten(waves)) && Honest(fn, After(fn, start, Flatten(waves)), wave)
    ensures var more := waves + [wave];
      && more[..|waves|] == waves
      && Flatten(more) == Flatten(waves) + wave
      && Held(more) == (if FirstError(wave).Error? then FirstError(wave) else Held(waves))
      && Honest(fn, start, Flatten(more))
      && After(fn, start, Flatten(more)) == After(fn, After(fn, start, Flatten(waves)), wave)
      && Failures(Flatten(more)) == Failures(Flatten(waves)) + Failures(wave)
  {
    var more := waves + [wave];
    assert more[..|waves|] == waves;
    FailuresAppend(Flatten(waves), wave);
    HonestAppend(fn, start, Flatten(waves), wave);
  }

  lemma {:induction false} HonestAppend<S>(fn: (S, nat, Err) -> (S, Err), start: S, a: seq<Call>, b: seq<Call>)
    requires Honest(fn, start, a) && Honest(fn, After(fn, start, a), b)
    ensures Honest(fn, start, a + b)
    ensures After(fn, start, a + b) == After(fn, After(fn, start, a), b)
  {
    if b == [] {
      assert a + b == a;
    } else {
      var n := |b| - 1;
      HonestAppend(fn, start, a, b[..n]);
      HonestSnoc(fn, start, a + b[..n], b[n]);
      assert a + b == a + b[..n] + [b[n]];
    }
  }

  lemma OneMore(a: set<nat>, x: nat)
    requires x !in a
    ensures |a + {x}| == |a| + 1
  {
  }

  lemma {:induction false} RangeCard(lo: nat, hi: nat)
    requires lo <= hi
    ensures |Range(lo, hi)| == hi - lo
    decreases hi
  {
    if lo < hi {
      var front := Range(lo, hi - 1);
      assert Range(lo, hi) == front + {hi - 1} && hi - 1 !in front;
      OneMore(front, hi - 1);
      RangeCard(lo, hi - 1);
    }
  }

  lemma {:induction false} FirstErrorSnoc(calls: seq<Call>, call: Call)
    ensures FirstError(calls + [call]) ==
      if FirstError(calls).Error? then FirstError(calls) else call.result
  {
    if calls == [] {
      assert [] + [call] == [call] && [call][1..] == [];
    } else {
      assert (calls + [call])[1..] == calls[1..] + [call];
      FirstErrorSnoc(calls[1..], call);
    }
  }

  lemma HonestSnoc<S>(fn: (S, nat, Err) -> (S, Err), start: S, calls: seq<Call>, call: Call)
    requires Honest(fn, start, calls)
    requires call.result == Invoke(fn, After(fn, start, calls), call.index, call.seen).1
    ensures Honest(fn, start, calls + [call])
    ensures After(fn, start, calls + [call]) == Invoke(fn, After(fn, start, calls), call.index, call.seen).0
  {
  }

  lemma {:induction false} FailuresAppend(a: seq<Call>, b: seq<Call>)
    ensures Failures(a + b) == Failures(a) + Failures(b)
  {
    if b == [] {
      assert a + [] == a;
    } else {
      assert (a + b)[..|a + b| - 1] == a + b[..|b| - 1];
      FailuresAppend(a, b[..|b| - 1]);
    }
  }

  lemma {:induction false} FirstErrorIffFailures(calls: seq<Call>)
    ensures FirstError(calls).Error? <==> Failures(calls) > 0
  {
    if calls != [] {
      FirstErrorIffFailures(calls[1..]);
      assert calls == [calls[0]] + calls[1..];
      FailuresAppend([calls[0]], calls[1..]);
      assert [calls[0]][..0] == [];
    }
  }

  lemma {:induction false} FirstErrorAppend(a: seq<Call>, b: seq<Call>)
    ensures FirstError(a + b) == if FirstError(a).Error? then FirstError(a) else FirstError(b)
  {
    if a == [] {
      assert a + b == b;
    } else {
      assert (a + b)[1..] == a[1..] + b;
      FirstErrorAppend(a[1..], b);
    }
  }

  lemma {:induction false} NoFirstErrorIffClean(calls: seq<Call>)
    ensures FirstError(calls).Nil? <==> Clean(calls)
  {
    if calls != [] {
      NoFirstErrorIffClean(calls[1..]);
      assert Clean(calls) <==> calls[0].result.Nil? && Clean(calls[1..]) by {
        assert forall k :: 1 <= k < |calls| ==> calls[k] == calls[1..][k - 1];
        assert forall k :: 0 <= k < |calls| - 1 ==> calls[1..][k] == calls[k + 1];
      }
    }
  }

  // ----- consequences -----

  /** The error of a run is nil exactly when no call failed. */
  lemma {:induction false} HeldNilIffClean(waves: seq<Wave>)
    ensures Held(waves).Nil? <==> FirstError(Flatten(waves)).Nil?
    ensures Held(waves).Nil? <==> Clean(Flatten(waves))
  {
    if waves != [] {
      var front, last := waves[..|waves| - 1], waves[|waves| - 1];
      HeldNilIffClean(front);
      FirstErrorAppend(Flatten(front), last);
    }
    NoFirstErrorIffClean(Flatten(waves));
  }

  /** The error of a wave is the first one in the order of completion. */
  lemma {:induction false} FirstErrorMeans(calls: seq<Call>)
    requires FirstError(calls).Error?
    ensures exists k :: 0 <= k < |calls| && calls[k].result == FirstError(calls) && Clean(calls[..k])
  {
    if calls[0].result.Error? {
      assert Clean(calls[..0]);
    } else {
      FirstErrorMeans(calls[1..]);
      var k :| 0 <= k < |calls[1..]| && calls[1..][k].result == FirstError(calls[1..]) && Clean(calls[1..][..k]);
      var front := calls[..k + 1];
      forall i | 0 <= i < |front| ensures front[i].result.Nil? {
        assert i > 0 ==> front[i] == calls[1..][..k][i - 1];
      }
      assert calls[k + 1].result == FirstError(calls) && Clean(calls[..k + 1]);
    }
  }

  ghost function Failing(calls: seq<Call>): set<nat> {
    set k: nat | k < |calls| && calls[k].result.Error?
  }

  /** Failures are counted one for each call that failed. */
  lemma {:induction false} FailuresCount(calls: seq<Call>)
    ensures Failures(calls) == |Failing(calls)|
  {
    if calls != [] {
      var front, last := calls[..|calls| - 1], calls[|calls| - 1];
      FailuresCount(front);
      var more: set<nat> := if last.result.Error? then {|calls| - 1} else {};
      assert Failing(calls) == Failing(front) + more;
    }
  }

  ghost predicate CleanAfter(waves: seq<Wave>, k: nat) {
    forall j :: k < j < |waves| ==> Clean(waves[j])
  }

  /** What a run holds is the error of its last failing wave. */
  lemma {:induction false} HeldMeans(waves: seq<Wave>)
    requires Held(waves).Error?
    ensures exists k :: 0 <= k < |waves| && FirstError(waves[k]) == Held(waves) && CleanAfter(waves, k)
  {
    var front, last := waves[..|waves| - 1], waves[|waves| - 1];
    NoFirstErrorIffClean(last);
    if FirstError(last).Error? {
      assert FirstError(waves[|waves| - 1]) == Held(waves);
    } else {
      HeldMeans(front);
      var k :| 0 <= k < |front| && FirstError(front[k]) == Held(front) && CleanAfter(front, k);
      forall j | k < j < |waves| ensures Clean(waves[j]) {
        assert j < |front| ==> waves[j] == front[j];
      }
      assert waves[k] == front[k];
    }
  }

  lemma IndicesAppend(a: seq<Call>, b: seq<Call>)
    ensures Indices(a + b) == Indices(a) + Indices(b)
  {
    forall x | x in Indices(a) ensures x in Indices(a + b) {
      var k :| 0 <= k < |a| && a[k].index == x;
      assert (a + b)[k] == a[k];
    }
    forall x | x in Indices(b) ensures x in Indices(a + b) {
      var k :| 0 <= k < |b| && b[k].index == x;
      assert (a + b)[|a| + k] == b[k];
    }
  }

  /** No index is called twice, and the called indices are the prefix 0, 1, ... of their number. */
  lemma {:induction false} CalledOnceEach(waves: seq<Wave>)
    requires WaveByWave(waves)
    ensures forall i, j :: 0 <= i < j < |Flatten(waves)| ==> Flatten(waves)[i].index != Flatten(waves)[j].index
    ensures Indices(Flatten(waves)) == Range(0, |Flatten(waves)|)
  {
    if waves != [] {
      var front, last := waves[..|waves| - 1], waves[|waves| - 1];
      CalledOnceEach(front);
      var calls := Flatten(front);
      forall i | 0 <= i < |calls| ensures calls[i].index < |calls| {
        assert calls[i].index in Indices(calls);
      }
      WaveCoversItsRange(last, |calls|);
      IndicesAppend(calls, last);
    }
  }

  lemma WaveCoversItsRange(wave: Wave, first: nat)
    requires forall j :: 0 <= j < |wave| ==> first <= wave[j].index < first + |wave|
    requires forall i, j :: 0 <= i < j < |wave| ==> wave[i].index != wave[j].index
    ensures Indices(wave) == Range(first, first + |wave|)
  {
    var names := seq(|wave|, k requires 0 <= k < |wave| => wave[k].index);
    NoDupCard(names);
    assert Elems(names) == Indices(wave) by {
      forall x | x in Indices(wave) ensures x in names {
        var k :| 0 <= k < |wave| && wave[k].index == x;
        assert names[k] == x;
      }
    }
    RangeCard(first, first + |wave|);
    SubsetOfSameSize(Indices(wave), Range(first, first + |wave|));
  }

  lemma SubsetOfSameSize(a: set<nat>, b: set<nat>)
    requires a <= b && |a| == |b|
    ensures a == b
  {
    assert |b - a| == |b| - |a| == 0;
  }

  function Sum(xs: seq<int>): int {
    if xs == [] then 0 else xs[0] + Sum(xs[1..])
  }

  lemma {:induction false} SizesSum(remaining: int, size: int)
    requires size <= remaining && (remaining > 0 ==> size > 0)
    ensures Sum(Sizes(remaining, size)) == if remaining > 0 then remaining else 0
    decreases remaining
  {
    if size > 0 {
      var rest := Sizes(remaining - size, IntMin(2 * size, remaining - size));
      SizesSum(remaining - size, IntMin(2 * size, remaining - size));
      assert ([size] + rest)[1..] == rest;
    }
  }

  lemma {:induction false} SumSnoc(xs: seq<int>, x: int)
    ensures Sum(xs + [x]) == Sum(xs) + x
  {
    if xs == [] {
      assert [] + [x] == [x] && [x][1..] == [];
    } else {
      assert (xs + [x])[1..] == xs[1..] + [x];
      SumSnoc(xs[1..], x);
    }
  }

  lemma {:induction false} SizesCount(waves: seq<Wave>)
    ensures Sum(SizesOf(waves)) == |Flatten(waves)|
  {
    if waves != [] {
      var n := |waves| - 1;
      SizesCount(waves[..n]);
      SumSnoc(SizesOf(waves[..n]), |waves[n]|);
    }
  }

  /** A run that is not cut short calls every index of 0..count-1 exactly once. */
  lemma FullRunCallsEveryIndex(waves: seq<Wave>, count: int, initialBatchSize: int)
    requires initialBatchSize >= 1
    requires WaveByWave(waves)
    requires Doubled(waves, count, initialBatchSize) && Left(waves, count, initialBatchSize).1 <= 0
    ensures |Flatten(waves)| == if count > 0 then count else 0
    ensures Indices(Flatten(waves)) == Range(0, if count > 0 then count else 0)
    ensures forall i, j :: 0 <= i < j < |Flatten(waves)| ==> Flatten(waves)[i].index != Flatten(waves)[j].index
  {
    RunSizes(waves, count, initialBatchSize);
    assert SizesOf(waves) + [] == SizesOf(waves);
    SizesSum(count, IntMin(count, initialBatchSize));
    SizesCount(waves);
    CalledOnceEach(waves);
  }

  // ----- wave bound -----

  /** b * 2^k */
  function Doublings(b: int, k: nat): int {
    if k == 0 then b else 2 * Doublings(b, k - 1)
  }

  lemma {:induction false} DoublingsShift(b: int, k: nat)
    ensures Doublings(2 * b, k) == Doublings(b, k + 1)
  {
    if k > 0 {
      DoublingsShift(b, k - 1);
    }
  }

  ghost predicate Doubling(ws: seq<int>, b: int) {
    forall k :: 0 <= k < |ws| - 1 ==> ws[k] == Doublings(b, k)
  }

  lemma DoublingCons(ws: seq<int>, b: int)
    requires Doubling(ws, 2 * b)
    ensures Doubling([b] + ws, b)
  {
    forall k | 0 <= k < |ws| ensures ([b] + ws)[k] == Doublings(b, k) {
      if k > 0 {
        DoublingsShift(b, k - 1);
      }
    }
  }

  /**
   Every wave but the last doubles exactly, so w waves make more than b(2^(w-1) - 1)
   and at most b(2^w - 1) calls.
   */
  lemma {:induction false} WaveBound(count: int, b: int)
    requires b >= 1 && count >= 1
    ensures var ws := Sizes(count, IntMin(count, b));
      && ws != [] && Doubling(ws, b)
      && Doublings(b, |ws| - 1) - b < count <= Doublings(b, |ws|) - b
    decreases count
  {
    if count <= b {
      assert Sizes(0, IntMin(2 * count, 0)) == [];
      assert Sizes(count, IntMin(count, b)) == [count];
    } else {
      var rest := Sizes(count - b, IntMin(2 * b, count - b));
      assert Sizes(count, IntMin(count, b)) == [b] + rest;
      assert IntMin(2 * b, count - b) == IntMin(count - b, 2 * b);
      WaveBound(count - b, 2 * b);
      DoublingCons(rest, b);
      DoublingsShift(b, |rest| - 1);
      DoublingsShift(b, |rest|);
    }
  }
}
