# ResourceConsist: a verified model of the reconcile engine

ResourceConsist keeps three stores consistent. The *backend provider* holds an employer's own records (virtual IPs) and
its employees (real servers). The *pods* carry a lifecycle finalizer and an annotation naming the finalizers expected of
them. The *employer* object carries a clean finalizer and two comma-joined records. Any write may fail part way through a
pass, and everybody else keeps writing between the phases of one. This project models that engine in Dafny and proves
what a pass keeps, what holds over whole runs, and exactly where the guarantees stop.

## How it is built

| file | contents |
|---|---|
| `SlowStart.dfy` | the batch runner behind every pod write, over an arbitrary state and function |
| `Diff.dfy`, `Provider.dfy` | the diff, the adapter contract, one sync of a provider store and the convergence measure |
| `Pods.dfy`, `Expected.dfy` | the four kinds of batched pod write, and the admission webhook |
| `Adapter.dfy` | employers, employees, their equality, and which pods a sync's results call up |
| `Text.dfy`, `Basics.dfy` | split, join and sort of the records; shared vocabulary |
| `Machine.dfy` | the transition system: world, phase of the pass in flight, steps, runs |
| `Runs.dfy` | what holds in every run, orphans in the provider, and completion of a deletion |
| `Marking.dfy` | what the expected-finalizer phase does to the pods and to the record, in each of its modes |
| `Record.dfy`, `Carriers.dfy` | the expected-finalizer record and the lifecycle finalizer over runs |
| `Operation.dfy` | any number of passes and moves as one run |
| `Pass.dfy` | what one pass is given, what it leaves behind, and the facts about one more step of its run |
| `Consist.dfy` | the reconciler itself, phase by phase, each method proved to be a step of the transition system |
| `Lifecycle.dfy` | the traffic gate and the lifecycle record |
| `CleanFinalizer.dfy` | the clean finalizer: migration and round trip |
| `Release.dfy` | when exactly a pass takes the clean finalizer off, and a deletion that stalls |
| `Limits.dfy` | concrete runs showing that assumptions are needed, and what exactly is lost without them |
| `Slb.dfy`, `Readiness.dfy`, `Demo.dfy` | the two adapters and the readiness scan |
| `InterleavedAdds.dfy` | one wave of finalizer adds interleaved call by call at the API server |

`dafny verify dfyconfig.toml` checks everything.

**The code and the transition system.** `Machine.Step` is one phase of Reconcile (fetch, ensure the clean finalizer, mark
the pods, sync employers, sync employees, the clean gate), one early return, or one move of somebody else. `Consist.Consist`
holds the world in fields and runs the phases as the source does, on a local employer object changed in place and written
back. `Reconcile` returns a ghost run and guarantees that this run consists of steps of `Machine`, starts in the world the
pass met, ends in the world it left, and at every step heeds the answers the pass was given (`Pass.Heeds`). Passes are joined by `Machine.JoinRuns`, and
`Operation.Operate` runs any number of them with anything in between, so a theorem about runs is one about this code in
operation. Three pieces of ghost history make the statements precise:
`written` names the pods carrying an entry that this controller wrote, `Verdict` is what a pass measured the provider
against, and a `Label` records each phase's inputs and results.

**What is a parameter.** Answers of the API server, of the adapter and of everybody else are values given to a pass
(`PassEnv`): which calls error, which requests the adapter refuses, what it expects and selects, and the moves between
phases. Nothing is assumed of them except where a theorem says so:

* `Silent` (the adapter expects nothing of an employer being deleted, as the demo adapter does,
  `pkg/frame/controller/resourceconsist_controller_suite_test.go:106` and `:209`) and `Unreplaced` (nobody takes a deleted
  employer's name again while a pass on it is in flight). Only `Runs.NoOrphanEver` asks for both;
  `Runs.DeletionCompletes` asks for the first and `Runs.DurableBeforeProviderCalls` for the second. `Limits.RecreationOrphans` shows that the second is needed;
  `Runs.NoOrphanExactly` does without either.
* `Recordable` and `Patched`: recording is on, names hold no comma, and a record patch on a stored employer succeeds when
  attempted. `Limits.RefusedPatchLosesPod` shows that the last is needed and `Record.RecordCoverExactly` says when it is not.
* `FinalizersWritten`: employees are named after their ids, and a pass that deleted provider entries got its finalizer
  writes through. `Limits.LostFinalizerWrite` shows it is needed; `Carriers.RegisteredExactly` says which writes matter.
* Each of these follows for the runs of `Reconcile` from what a pass is given (`Pass.HeededRun`), and for any number of
  passes and moves from what they are all given (`Operation.Operate`).
* Others neither add nor remove the clean finalizer, do not add the lifecycle finalizer, and do not edit the two records.
* `Clear`, `Markable` and `Willing`: every call of a pass is answered, nobody interferes and what is expected can be compared
  with what is held; so are the calls on the pods' entries; and the adapter refuses nothing. Only the statements about a pass
  completing use them.
* A successful Patch refreshes the local object from the server's answer; an Update succeeds only on an unchanged object
  when the clean finalizer is ensured.
* The MD5-based finalizer name is an uninterpreted function (`finalizerOf`, `Config.flz`); the JSON annotation is its
  decoded map, or absent, or malformed.

**Where the code and its comments differ.** The comment on SlowStartBatch says that any failure skips the remaining batches
(`pkg/utils/utils.go:74-75`); the code does so only with `shortCircuit`, and the model follows the code.
`pkg/frame/controller/types.go:83-84` promises a default for adapters without lifecycle options, but
`pkg/frame/controller/consister.go:300` then calls through a nil interface; the model takes the options as implemented.

## Model

| member | source | states |
|---|---|---|
| SlowStart.SlowStartBatch | pkg/utils/utils.go:78-108 | For any order inside a wave: the state is what the reported calls lead to one after another, each wave takes fresh consecutive indices and is told the error of the last failing wave, sizes double until all is done, the run stops early only under short circuit and right after its first failing wave, and successes are calls minus failures. |
| SlowStart.RunWave | pkg/utils/utils.go:83-97 | A wave calls each of its indices once in some order; its channel ends with as many errors as calls failed, the first failure's first, and never held more than it has room for, so no send blocks and Wait returns. |
| SlowStart.CalledOnceEach | pkg/utils/utils.go:79-92 | No index is called twice, and the called indices are a prefix of 0, 1, 2, ... |
| SlowStart.FullRunCallsEveryIndex | pkg/utils/utils.go:79-108 | A run not cut short calls exactly 0..count-1; nothing for a count of zero or less. |
| SlowStart.HeldNilIffClean | pkg/utils/utils.go:94-107 | The returned error is nil exactly when no call failed. |
| SlowStart.FirstErrorMeans | pkg/utils/utils.go:98-99 | The error taken from a wave's channel is that of the first call to fail, in the order of completion. |
| SlowStart.FailuresCount | pkg/utils/utils.go:96-97 | Failures are counted once for each call that failed. |
| SlowStart.HeldMeans | pkg/utils/utils.go:98-99 | The error held is that of the last failing wave: every wave after it is clean. |
| SlowStart.RunSizes | pkg/utils/utils.go:82-105 | The wave sizes of any run are a prefix of the doubling plan, and all of it when nothing is left. |
| SlowStart.WaveBound | pkg/utils/utils.go:79-107 | Every wave but the last doubles exactly, and w waves satisfy b(2^(w-1)-1) < count <= b(2^w-1). |
| SlowStart.IntMin | pkg/utils/utils.go:59-65 | The lower bound of both arguments that is one of them. |
| Diff.Diff | pkg/frame/controller/consister.go:70-188 | Errors exactly when some shared pair cannot be compared; otherwise the four lists are duplicate-free and split the ids into expected only, shared unequal, current only and shared equal, with duplicate ids in either input allowed. |
| Diff.ClassifyExpected | pkg/frame/controller/consister.go:87-105 | The three slices filled from the expected map, the two sized by the current list included, are never overrun, in any iteration order. |
| Diff.ToDelete | pkg/frame/controller/consister.go:107-113 | Lists exactly the current-only entries without overrunning its slice. |
| Diff.ListsUnique | pkg/frame/controller/consister.go:87-113 | Two results for the same maps are permutations of each other: map iteration order does not matter. |
| Diff.ListsById | pkg/frame/controller/consister.go:71-79 | Reading a listing back by id gives exactly the listed entries of its source. |
| Diff.LastOneWins | pkg/frame/controller/consister.go:74-79 | Of entries with the same id the last one listed counts. |
| Provider.EditScript | pkg/frame/controller/consister.go:70-188 | Carrying out the whole diff on the current store leaves the expected ids, each entry equal to the expected one. |
| Provider.SyncStore | pkg/frame/controller/consister.go:39-56 | Whatever the adapter reports as current: the calls share out the diff against that report by what the adapter accepts, the store changes by exactly the successes, and an error stops before the next call while what was carried out stays. With a faithful report it is a sync of the store. |
| Provider.CallAdapter | pkg/frame/controller/consister.go:44-55 | The three calls share out their requests between successes and failures, each is made only if the earlier ones did not error, and in each what succeeded the adapter accepted and what failed it did not. |
| Provider.WhatItObeys | pkg/frame/controller/consister.go:44-55 | An adapter that accepts everything without an error leaves no failures, one that declines everything changes nothing, and after a failed create nothing is updated or deleted, after a failed update nothing deleted. |
| Provider.Carry | pkg/frame/controller/types.go:111-123 | An adapter call shares its request out between successes and failures, losing and inventing nothing. |
| Provider.AfterSync | pkg/frame/controller/consister.go:39-68 | After a sync the store holds the ids it had, plus those created, minus those deleted, with the expected entry where a create or update succeeded and the old one elsewhere. |
| Provider.RemainingDiff | pkg/frame/controller/consister.go:39-68 | The next diff against the same expectation asks for exactly the three fail lists again. |
| Provider.GapDrops | pkg/frame/controller/consister.go:58-66 | The count of missing, extra and unequal ids drops by exactly the number of successes, to the sizes of the fail lists. |
| Provider.TruthfulFailures | pkg/frame/controller/consister.go:58 | Failures are reported exactly when the store still differs from what is expected. |
| Provider.GapZero | pkg/frame/controller/consister.go:87-113 | The measure is zero exactly when the ids coincide and all entries compare equal. |
| Provider.NextPassIdle | pkg/frame/controller/consister.go:39-68 | From any store, a pass without failures reaches the expectation, and the next pass asks for nothing and changes nothing. |
| Provider.CleanIffEmpty | pkg/frame/controller/consister.go:57-58 | The clean flag of a sync says exactly that nothing is expected and nothing is left in the store. |
| Pods.AddFinalizerBody | pkg/frame/controller/consister.go:721-779 | The add closure's scan leaves a pod that has the finalizer or is gone alone, and appends it otherwise. |
| Pods.DeleteFinalizerBody | pkg/frame/controller/consister.go:785-842 | The delete closure's copy removes every occurrence and only that, and writes only if there was one. |
| Pods.AddRun | pkg/frame/controller/consister.go:720-782 | Whatever the order of the calls, an add batch changes exactly the pods whose call answered nil, and without faults every call does. |
| Pods.DeleteRun | pkg/frame/controller/consister.go:784-843 | The same for a delete batch, which may free deleting pods. |
| Pods.AddFinalizers | pkg/frame/controller/consister.go:720-782 | A nil answer means that all named pods carry the finalizer; otherwise exactly an answered subset was written. |
| Pods.DeleteFinalizers | pkg/frame/controller/consister.go:784-843 | A nil answer means that all named pods lack the finalizer; otherwise exactly an answered subset was written. |
| Pods.EnsureLifecycleFinalizer | pkg/frame/controller/consister.go:713-844 | The delete half runs only after an add half without error; a nil answer means that both name lists were carried out in full. |
| Pods.LifecycleEnsured | pkg/frame/controller/consister.go:713-844 | After a nil answer, with duplicate and overlapping names: pods to delete lack the finalizer, pods only to add have it, after all they had, foreign finalizers keep their order, all other pods are untouched, and the pods gone are exactly the deleting ones that only this finalizer held. |
| Pods.LifecycleIdempotent | pkg/frame/controller/consister.go:713-844 | Running it again with the same names changes nothing. |
| Expected.AddEntryRun | pkg/frame/controller/consister.go:453-565 | In any order of calls, an add batch flags exactly pods that exist, are not deleting and are readable, changes only flagged ones, and flags all whose call answered nil. |
| Expected.DeleteEntryRun | pkg/frame/controller/consister.go:567-657 | The same for deletes; absent pods and absent entries are flagged without a write. |
| Expected.AddEntries | pkg/frame/controller/consister.go:453-565 | The flagged operations' pods, and no others, carry the entry afterwards; every workable operation that met no fault, or all if no error came back, is flagged; and no error comes back only if every pod was read and is readable. |
| Expected.DeleteEntries | pkg/frame/controller/consister.go:567-657 | The flagged operations' pods, and no others, lost the entry; every readable one that met no fault, or all if no error came back, is flagged; and no error comes back only if every pod was read and is readable. |
| Expected.KeysDistinct | pkg/utils/utils.go:41-44 | Employers of different kind, namespace or name have different keys. |
| Expected.Mutating | pkg/frame/webhook/resourceconsist_webhook.go:119-161 | Only creation is touched; exactly the employers' keys are added, every other entry kept; it errors exactly on an adapter error or an unreadable annotation, leaving the pod as it was. |
| Expected.WebhookThenController | pkg/frame/webhook/resourceconsist_webhook.go:136-158 | After the webhook saw a new pod, the controller's add for any of its employers reports success without a write. |
| Expected.AddThenDelete | pkg/frame/controller/consister.go:453-657 | Adding an absent entry and deleting it again restores the decoded map. |
| Expected.DistinctKeysCommute | pkg/frame/controller/consister.go:453-657 | Atomic add and delete steps of employers with distinct keys, on one pod or two and under any faults, commute: either order leaves the same pods and gives each step the same flag and answer. |
| Expected.OthersLeftAlone | pkg/frame/controller/consister.go:453-657 | A step leaves every other pod, every other employer's entry, and everything but the annotation alone. |
| Adapter.GetToAddDelete | pkg/frame/controller/consister.go:846-897 | Created names and ready updated or unchanged ones are to gain the finalizer, deleted names and not-ready ones to lose it, other statuses are skipped, and neither slice is overrun. |
| Adapter.FillByReadiness | pkg/frame/controller/consister.go:862-875 | Each employee with pod statuses lands in exactly one of the two slices, by LifecycleReady, in order. |
| Adapter.FillNames | pkg/frame/controller/consister.go:858-861 | All names are appended to the slice in order, nothing before them changed. |
| Adapter.NoGapMeansSame | pkg/adapters/alibabacloudslb/types.go:54-70 | Nothing to create, update or delete means that the provider holds exactly the expected employees: name, both addresses, readiness and the adapter's own status. |
| Adapter.NoGapMeansSameVips | pkg/frame/controller/resourceconsist_controller_suite_test.go:372-381 | The same for employer records. |
| Text.JoinSplit | pkg/frame/controller/consister.go:223 | Joining what a record was split into gives the record back. |
| Text.SplitJoin | pkg/frame/controller/consister.go:258 | A non-empty list of comma-free names reads back from its record unchanged. |
| Text.SortedEqualIffPermutation | pkg/frame/controller/consister.go:245-249 | Comparing two lists after sorting both is comparing them as multisets. |
| Text.ListOf | pkg/frame/controller/consister.go:352 | The sorted, duplicate-free list of the recorded and selected names. |
| Machine.JoinRuns | pkg/frame/controller/resourceconsist_controller.go:129-276 | Passes that follow one another form one run. |
| Runs.NoOrphanEver | pkg/frame/controller/resourceconsist_controller.go:175-255 | In every state of every run in which the adapter expects nothing of a deleting employer and nobody takes its name while a pass runs: while the provider holds any employer or employee entry, the employer exists and holds the clean finalizer. |
| Runs.NoOrphanExactly | pkg/frame/controller/resourceconsist_controller.go:175-255 | With nothing assumed of the adapter or of others, a run is free of orphans if and only if every sync that created something met the clean finalizer on the stored employer. |
| Runs.SoundStep | pkg/frame/controller/resourceconsist_controller.go:175-255 | Every phase, abort and move of others, the taking of the employer's name included, keeps: clean flags mean empty stores, and a local copy showing the clean finalizer fits the stored employer, while one not showing it proves the stored one lacks it. |
| Runs.SteadyStep | pkg/frame/controller/resourceconsist_controller.go:175-189 | As long as nobody takes the employer's name during a pass, every step keeps: a live pass past its first phase shows the clean finalizer. |
| Runs.OrphanStep | pkg/frame/controller/resourceconsist_controller.go:198-242 | A step keeps the provider free of orphans exactly if it creates nothing, or the stored employer holds the clean finalizer. |
| Runs.DurableBeforeProviderCalls | pkg/frame/controller/resourceconsist_controller.go:175-189 | As long as nobody takes the employer's name during a pass, a pass past its first phase on a live employer finds the clean finalizer stored. |
| Runs.OnlyTheGateDrops | pkg/frame/controller/resourceconsist_controller.go:244-255 | In any run the clean finalizer goes only through the gate, off an employer that is being deleted, with both syncs and the expected finalizers clean and both provider maps empty. |
| Record.WrittenEntriesOnRecord | pkg/frame/controller/consister.go:346-441 | When record patches succeed: under any pod-patch failures, selection churn and pod deletions, whatever the adapter expects and whoever takes the employer's name, every pod carrying an entry this controller wrote is named in the record of an employer that exists. |
| Record.CoveredStep | pkg/frame/controller/consister.go:346-441 | A step keeps the record cover exactly if a refused record patch came after adds that wrote nothing. |
| Record.WrittenIsRecorded | pkg/frame/controller/consister.go:394-429 | An entry written now or before and still there belongs to a name the new record keeps. |
| Record.RecordReadsBack | pkg/frame/controller/consister.go:371-374 | Every name put on record is found in it again. |
| Record.ExpectedCleanMeansGone | pkg/frame/controller/consister.go:350-383 | On a deleting employer a clean answer means that no pod recorded or selected carries the entry. |
| Marking.SelectedIsEntered | pkg/frame/controller/consister.go:331-338 | Without a record, on a live employer every selected pod that the write can work on carries the entry afterwards, if its calls met no fault. |
| Marking.SelectedIsCleared | pkg/frame/controller/consister.go:316-323 | On a deleting one every selected readable pod lacks it. |
| Marking.CleanMeansCleared | pkg/frame/controller/consister.go:324-329 | And a clean answer means that no selected pod carries it. |
| Marking.GoingOnMeansDone | pkg/frame/controller/consister.go:314-344 | No failure is swallowed without a record: if the pass goes on, every selected pod was read, is readable, and has the entry, or on a deleting employer lacks it. |
| Marking.RecordedWasEntered | pkg/frame/controller/consister.go:417-421 | A name newly put on record belongs to a selected pod that carries the entry: a failed add is not recorded, and so retried. |
| Marking.OffRecordWasCleared | pkg/frame/controller/consister.go:404-416 | A name leaves the record of a live employer only when it is not selected and no pod of it carries the entry. |
| Marking.NewlySelectedIsEntered | pkg/frame/controller/consister.go:394-421 | Without faults every selected pod not yet on record, that the write can work on, gets the entry and is put on record. |
| Marking.UnselectedIsCleared | pkg/frame/controller/consister.go:385-416 | Without faults every recorded readable pod that is no longer selected loses the entry and leaves the record. |
| Marking.DeletingClears | pkg/frame/controller/consister.go:350-366 | On a deleting employer every recorded or selected readable pod loses the entry and leaves the record, without faults. |
| Marking.GoingOnAfterPatch | pkg/frame/controller/consister.go:432-440 | With a record, a pass on a live employer that goes on after patching it did all that was planned. |
| Marking.GoingOnMeansRecorded | pkg/frame/controller/consister.go:371-383 | No pass goes on past a record it could not write: if it goes on, the stored and the local record name exactly what was kept and added. |
| Marking.SameRecordGoesOn | pkg/frame/controller/consister.go:371-373 | A record that reads the same is not patched, and nothing is reported. |
| Carriers.CarriersRegistered | pkg/frame/controller/consister.go:190-236 | So in every state of every run whose finalizer writes went through, each pod with the lifecycle finalizer has a provider entry, whatever the adapter refused. |
| Carriers.NoCarrierLeftBehind | pkg/frame/controller/resourceconsist_controller.go:244-255 | When the clean finalizer goes, in any run whose finalizer writes went through, both provider maps are empty and no pod carries the lifecycle finalizer. |
| Carriers.RegisteredStep | pkg/frame/controller/consister.go:190-236 | A step keeps every carrier registered if, and for one-to-one names only if, each deleted entry's pod that carried the finalizer had it taken off. |
| Carriers.RegisteredExactly | pkg/frame/controller/consister.go:190-236 | A run keeps every pod with the lifecycle finalizer registered in all its states if and only if no step deletes a carrier's provider entry and leaves it the finalizer. |
| Carriers.NothingLeftBehind | pkg/frame/controller/resourceconsist_controller.go:244-255 | And with recording on and its patches succeeding, no pod carries an entry this controller wrote either. |
| Runs.EmptiedStore | pkg/frame/controller/consister.go:39-58 | A sync that expects nothing and was refused nothing empties the store and reports clean. |
| Runs.DeletionCompletes | pkg/frame/controller/resourceconsist_controller.go:175-255 | One pass without failures or interference over a deleting employer empties both provider maps and takes the clean finalizer off. |
| Consist.Consist.KeepForEnsure | pkg/frame/controller/consister.go:903-912 | The filter loop finds the clean finalizer exactly when it is there, and otherwise drops only the legacy one, in order. |
| Consist.Consist.EnsureEmployerCleanFlz | pkg/frame/controller/consister.go:899-918 | Updates exactly a live employer without the clean finalizer, dropping the legacy one; a conflict or refusal changes nothing stored. |
| Consist.Consist.KeepForClean | pkg/frame/controller/consister.go:687-699 | The filter loop drops the new and the legacy clean finalizer only, and tells whether there was one. |
| Consist.Consist.CleanEmployerCleanFinalizer | pkg/frame/controller/consister.go:659-709 | Writes the reconciled list without the clean and legacy entries onto the latest object, which may then be gone; nothing otherwise. It errors exactly if that object cannot be read, or has one of them to lose and cannot be written. |
| Consist.Consist.PatchPodExpectedFinalizer | pkg/frame/controller/consister.go:443-451 | Adds run before deletes whatever the adds reported; exactly flagged operations changed pods. |
| Consist.Consist.CollectMissing | pkg/frame/controller/consister.go:385-402 | The names of one list missing from the other, in order. |
| Consist.Consist.Flagged | pkg/frame/controller/consister.go:405-421 | The names of flagged and of unflagged operations, in order. |
| Consist.Consist.EnsureExpectedNotNeedRecord | pkg/frame/controller/consister.go:314-344 | Is the expected-finalizer step of the transition system without a record, with its error and clean answer. |
| Consist.Consist.PatchRecord | pkg/frame/controller/consister.go:423-438 | The record is patched exactly when its text changes, and a refused patch changes nothing stored. |
| Consist.Consist.NewRecord | pkg/frame/controller/consister.go:404-421 | What was not deleted, and on a live employer also what was added. |
| Consist.Consist.PatchPodsByRecord | pkg/frame/controller/consister.go:346-421 | Plans and carries out the pod patches from the recorded and selected names, and computes the record they leave. |
| Consist.Consist.EnsureExpectedNeedRecord | pkg/frame/controller/consister.go:346-441 | Is the expected-finalizer step with a record: which errors surface, which do not, and when it is clean. |
| Consist.Consist.EnsureExpectedFinalizer | pkg/frame/controller/consister.go:289-312 | Does nothing for adapters not following the lifecycle, errors without an effect if the selection cannot be read, and is the expected-finalizer step otherwise. |
| Consist.Consist.SyncEmployer | pkg/frame/controller/consister.go:39-68 | Is a sync of the employer records against whatever the adapter reports, and errors exactly if a pair cannot be compared or a call errors. |
| Consist.Consist.UnselectedRecorded | pkg/frame/controller/consister.go:213-230 | The recorded names no longer selected; fails exactly if there is a record and the selection cannot be read. |
| Consist.Consist.PatchLifecycleRecord | pkg/frame/controller/consister.go:238-273 | The lifecycle record is rewritten exactly when a patch is due; a refused patch changes nothing stored. |
| Consist.Consist.FinalizersAndRecord | pkg/frame/controller/consister.go:209-273 | The part after the adapter calls is the finalizer step of the transition system, at whichever stage it stopped. |
| Consist.Consist.SyncEmployees | pkg/frame/controller/consister.go:190-286 | Against whatever the adapter reports: the provider changes by exactly the successes, then pods and record follow, as far as the stage it reports. |
| Consist.Consist.Interfere | pkg/frame/controller/resourceconsist_controller.go:174-255 | Others' moves between two phases are steps of the run and do not touch the provider. |
| Consist.Consist.EnsurePhase | pkg/frame/controller/resourceconsist_controller.go:174-189 | Ends the pass exactly if the clean finalizer was due. |
| Consist.Consist.ExpectPhase | pkg/frame/controller/resourceconsist_controller.go:191-197 | Extends the run by the expected-finalizer step over the adapter's own selection or, if that cannot be read, by an abort; goes through if nothing fails. |
| Consist.Consist.VipPhase | pkg/frame/controller/resourceconsist_controller.go:198-219 | Extends the run by the sync against what the adapter expects of the local copy, or by an abort if that cannot be had or compared; its failed flag is the truth about the store. |
| Consist.Consist.BackendPhase | pkg/frame/controller/resourceconsist_controller.go:221-242 | The same for employees. |
| Consist.Consist.GatePhase | pkg/frame/controller/resourceconsist_controller.go:244-255 | Extends the run by the clean gate, and errors exactly if dropping the finalizer was due and failed. |
| Consist.Consist.Close | pkg/frame/controller/resourceconsist_controller.go:244-275 | The gate step, then the statuses; an error of either ends the pass with that failure; past both, the result is that of one of the two stores still differing from what the adapter expects: its interval, or an error if it has none. |
| Consist.Consist.Pass | pkg/frame/controller/resourceconsist_controller.go:174-276 | A pass over a fetched employer is a run that heeds the answers it gets and goes to its gate unless one of them is a failure. |
| Consist.Consist.Reconcile | pkg/frame/controller/resourceconsist_controller.go:129-276 | Is a run of the transition system in which every step heeds the answers the pass was given: what is expected, selected, accepted and refused, which call fails, and for which reason it gives up. Past all calls its result says whether one of the two stores still differs from what the adapter expects; it reports no failure only if it came that far, met no employer, or only ensured the finalizer; a failure to drop the finalizer or to record the status is reported; with every call answered it does come that far, with nothing refused it then finishes, and over a deleting employer it has emptied the provider and dropped the clean finalizer; with a record, nothing that becomes of the pods' entries stops it there. |
| Pass.ReportsInFull | pkg/frame/controller/resourceconsist_controller.go:129-276 | From what the phases establish step by step: all that Reconcile reports, the completed deletion included. |
| Pass.Concluded | pkg/frame/controller/resourceconsist_controller.go:267-275 | A decision on the two failed flags is one on the stores, because the flags are the truth about them. |
| Pass.AskedAgainTruthfully | pkg/frame/controller/resourceconsist_controller.go:267-275 | Whether the controller runtime asks again is the truth about the two stores, measured against the adapter's own answers, exactly if its interval, if any, is positive, or nothing is left to do. |
| Release.ReleasedExactly | pkg/frame/controller/resourceconsist_controller.go:244-265 | No failure at the end of a pass is swallowed: one that comes to its decision has recorded the status, and leaves the employer without the clean finalizer exactly if it had none before or the gate was open. |
| Release.DeletionStalls | pkg/frame/controller/consister.go:350-381 | With a record, a failure to take an entry off a pod is not reported on a deleting employer: if a selected pod's annotation cannot be read and nothing else goes wrong, every pass finishes without asking for another and leaves the clean finalizer on. |
| Release.NotClean | pkg/frame/controller/consister.go:314-383 | A selected pod whose annotation cannot be read keeps the answer of a deleting employer from being clean, with or without a record. |
| Limits.ZeroIntervalForgets | pkg/frame/controller/resourceconsist_controller.go:267-271 | With an interval of zero the runtime is told that the pass has finished while an expected record is missing. |
| Pass.HeededRun | pkg/frame/controller/resourceconsist_controller.go:129-276 | What the run theorems ask of a run follows, for a run that heeds its answers, from what is asked of these. |
| Pass.SelectionNotNeeded | pkg/frame/controller/consister.go:209-230 | After the adapter calls, a selection that cannot be read stops a sync of employees only if there is a lifecycle record. |
| Operation.Operate | pkg/frame/controller/resourceconsist_controller.go:129-276 | Any number of passes, with moves of others before, between and during them, make one run from the world they started in to the one they left, meeting the premises the events grant. |
| Operation.OperationKeeps | pkg/frame/controller/resourceconsist_controller.go:129-276 | In every state of such a run from a start with an empty provider: no orphan, written entries on record, carriers registered, each as far as the events grant its premises. |
| Operation.OperateSafely | pkg/frame/controller/resourceconsist_controller.go:129-276 | So any number of passes and moves keep the provider free of orphans, the record covering and the carriers registered, throughout. |
| Lifecycle.NameSources | pkg/frame/controller/consister.go:846-897 | Exactly which entries of the expected and the former store put a name on the add and on the delete list. |
| Lifecycle.TrafficGate | pkg/frame/controller/consister.go:197-236 | However far the sync came: a selected pod, or one not on record, loses the finalizer, or is released by losing it, only if afterwards the provider holds nothing for it or the expected entry with LifecycleReady false; it gains it only if just created or held as expected with LifecycleReady true; and it is untouched if in any fail list. |
| Lifecycle.StillSelected | pkg/frame/controller/consister.go:215-229 | Called off are exactly the recorded names that are not selected. |
| Lifecycle.NotFollowed | pkg/frame/controller/consister.go:289-299 | For an adapter that does not follow the pod lifecycle no step of the engine touches a pod or a record. |
| Lifecycle.DeleteNameMeans | pkg/frame/controller/consister.go:866-895 | A name called up for deletion is no longer in the provider, or is there as expected and not ready. |
| Lifecycle.AddNameMeans | pkg/frame/controller/consister.go:858-895 | A name called up to gain the finalizer was just created, or is there as expected and ready. |
| Lifecycle.FailedNamesLeftAlone | pkg/frame/controller/consister.go:846-897 | A name in a fail list is called up for neither. |
| Lifecycle.PodFate | pkg/frame/controller/consister.go:231-236 | However far the sync came, a pod gains the finalizer only off the add list, loses it only off the delete lists, and is untouched off both; after a completed sync it carries it exactly by the lists, deletes winning over adds. |
| Lifecycle.RecordCodec | pkg/frame/controller/consister.go:238-262 | A patch is due exactly when the record is not already a permutation of the add list; the patched text reads back as one, and is empty for an empty list. |
| Lifecycle.RecordAfter | pkg/frame/controller/consister.go:238-273 | After a completed sync the stored record is a permutation of the add list. |
| Lifecycle.UnselectedLoseIt | pkg/frame/controller/consister.go:215-236 | A recorded name no longer selected has lost the finalizer, even if it is also in the add list. |
| Lifecycle.OffRecordExactly | pkg/frame/controller/consister.go:215-273 | The carriers a sync leaves off the record are exactly the former carriers it called up for neither list. |
| Lifecycle.CarriersStayOnRecord | pkg/frame/controller/consister.go:215-273 | "Every carrier is on record" is kept by every completed sync in which no employee failed, statuses are pods' and every selected name is accounted for. |
| Lifecycle.CarriersOnRecord | pkg/frame/controller/consister.go:215-273 | Over runs free of orphans: with recording on and no employee failed in a completed sync, every pod with the lifecycle finalizer is named, in every state, in the record of an employer that exists. |
| Lifecycle.RepeatedSync | pkg/frame/controller/consister.go:190-208 | After a sync without failures, the next one with the same expectation asks the adapter for nothing and calls up exactly what is expected. |
| Lifecycle.CreatedNotReadyFlickers | pkg/frame/controller/consister.go:858-895 | Its pods are not yet left alone: an employee just created not ready gained the finalizer with its creation and loses it in the next pass. |
| Lifecycle.ThirdPassIdle | pkg/frame/controller/consister.go:190-273 | The pass after that changes nothing at all: provider, pods and record stay, if every name to be recorded is selected. |
| Lifecycle.FailedCarrierDropsOut | pkg/frame/controller/consister.go:262 | With failures it is not kept: a carrier in a fail list keeps the finalizer and drops out of the record. |
| Limits.RefusedUpdateDropsOut | pkg/adapters/alibabacloudslb/alibabacloudslb_controller.go:200-203 | A concrete sync of the SLB adapter in which it happens: a recorded carrier turns not ready, its update is declined, and the record is rewritten without it. |
| Limits.RefusedPatchLosesPod | pkg/frame/controller/consister.go:404-440 | A concrete run in which a refused record patch leaves a written entry that no record names. |
| Record.RefusedPatchExactly | pkg/frame/controller/consister.go:346-441 | A refused record patch keeps the cover if and only if every operation flagged as added was already entered before; on a deleting employer always. |
| Record.RecordCoverExactly | pkg/frame/controller/consister.go:346-441 | The cover holds in all states of a run if and only if at every refused record patch each flagged add was already entered. |
| Limits.LostFinalizerWrite | pkg/frame/controller/consister.go:205-236 | A run from the start, of two passes, after which a pod keeps the finalizer with nothing behind it in the provider, because the provider deletion went through and the pod update did not. |
| Limits.StrandedCarrier | pkg/frame/controller/consister.go:215-236 | A later pass takes the finalizer off such a pod if and only if the lifecycle record names it and it is no longer selected. |
| Limits.RecreationOrphans | pkg/frame/controller/consister.go:371-381 | A run from the start in which the employer's name is taken again during a pass: the record patch reaches the new object and refreshes the local copy, and the pass leaves an orphan. |
| CleanFinalizer.EnsureOnce | pkg/frame/controller/consister.go:899-918 | On a live employer ensuring always leaves the clean finalizer present, is idempotent, and keeps foreign finalizers in order. |
| CleanFinalizer.LegacyMigrated | pkg/frame/controller/consister.go:687-704 | With the names written out: an employer holding its own legacy finalizer among others' holds theirs and the clean finalizer after ensuring, and only theirs, in order, after the gate; with none of theirs it is gone. |
| CleanFinalizer.CleanAfterEnsure | pkg/frame/controller/consister.go:687-709 | Clean after ensure returns the original list, in order, without the clean and legacy entries. |
| CleanFinalizer.ForeignKeptExactly | pkg/frame/controller/consister.go:676-708 | Foreign finalizers of the latest object, which may vanish, survive cleaning if and only if nothing was due or the reconciled copy had the same ones. |
| Limits.LostForeignFinalizer | pkg/frame/controller/consister.go:676-708 | A run from the start in which a finalizer added between fetch and gate is lost, together with the object. |
| Readiness.IsPodLifecycleReady | pkg/frame/controller/utils.go:37-66 | The loop with its four flags, break and continue answers what the scan function does. |
| Readiness.ScanMeans | pkg/frame/controller/utils.go:43-63 | From any consistent flags, the early-exit scan equals the order-free condition on lists with unique types. |
| Readiness.ReadyMeans | pkg/frame/controller/utils.go:37-66 | Not deleting, PodReady present and true, the service-ready gate absent or true. |
| Readiness.ReadyPermutes | pkg/frame/controller/utils.go:37-66 | The answer does not depend on the order of the conditions. |
| Slb.GetExpectedEmployee | pkg/adapters/alibabacloudslb/alibabacloudslb_controller.go:111-145 | One entry per selected pod, under its IP and name with both addresses, wanting traffic exactly when the pod is ready. |
| Slb.GetCurrentEmployee | pkg/adapters/alibabacloudslb/alibabacloudslb_controller.go:147-193 | The same entries, taking traffic exactly for IPs in the backend and for none without a load balancer; errors exactly if the backend cannot be asked. |
| Slb.BothSides | pkg/adapters/alibabacloudslb/alibabacloudslb_controller.go:111-193 | When pods share an IP the last one listed represents it on both sides alike. |
| Slb.LastPodCounts | pkg/adapters/alibabacloudslb/alibabacloudslb_controller.go:111-193 | The pod that represents an IP is the last one listed with it. |
| Slb.SlbDiff | pkg/adapters/alibabacloudslb/types.go:54-70 | Over one snapshot the diff never errors, creates or deletes, and updates exactly the represented pods whose readiness differs from backend presence. |
| Slb.SyncSlb | pkg/adapters/alibabacloudslb/alibabacloudslb_controller.go:111-208 | One sync of the adapter that declines everything is a sync in the engine's sense that changes nothing. |
| Slb.SlbProtocol | pkg/adapters/alibabacloudslb/alibabacloudslb_controller.go:194-208 | Nothing is created or deleted, fail lists are exactly the unsettled pods, and a failure is reported exactly while there is one. |
| Slb.SlbReconcile | pkg/adapters/alibabacloudslb/alibabacloudslb_controller.go:55-208 | A pass of Reconcile through this adapter over one snapshot that came to its decision has left the provider alone, and returns 100ms exactly while a represented pod is unsettled, and nothing otherwise. |
| Slb.SlbGate | pkg/frame/controller/consister.go:846-897 | With this adapter a name is called up to gain the finalizer exactly for a ready pod present in the backend, and to lose it exactly for one not ready and absent. |
| Slb.SlbPodGate | pkg/frame/controller/consister.go:197-236 | So, however far the sync came, a selected pod gains the finalizer only when ready and present, and loses it, or is released, only when not ready and absent. |
| Demo.DemoAdapter.StoreVips | pkg/frame/controller/resourceconsist_controller_suite_test.go:445-463 | The store gains exactly the requested records, the last of an id winning. |
| Demo.DemoAdapter.DeleteVips | pkg/frame/controller/resourceconsist_controller_suite_test.go:465-473 | The store loses exactly the requested ids. |
| Demo.DemoAdapter.StoreRealServers | pkg/frame/controller/resourceconsist_controller_suite_test.go:493-511 | The same for real servers. |
| Demo.DemoAdapter.DeleteRealServers | pkg/frame/controller/resourceconsist_controller_suite_test.go:513-521 | The same for real servers. |
| Demo.DemoAdapter.CreateOrUpdateEmployer | pkg/frame/controller/resourceconsist_controller_suite_test.go:138-182 | Meets the adapter contract whenever it does not error; on an error everything is reported failed although it is stored. |
| Demo.DemoAdapter.DeleteEmployer | pkg/frame/controller/resourceconsist_controller_suite_test.go:184-205 | Meets the adapter contract whenever it does not error; on an error everything is reported failed although it is gone. |
| Demo.DemoAdapter.CreateOrUpdateEmployees | pkg/frame/controller/resourceconsist_controller_suite_test.go:273-320 | Meets the adapter contract whenever it does not error; on an error everything is reported failed although it is stored. |
| Demo.DemoAdapter.DeleteEmployees | pkg/frame/controller/resourceconsist_controller_suite_test.go:322-345 | Meets the adapter contract whenever it does not error; on an error everything is reported failed although it is gone. |
| Demo.DemoAdapter.GetExpectedEmployer | pkg/frame/controller/resourceconsist_controller_suite_test.go:105-118 | Nothing is expected of a deleting employer; of a live one exactly one record, under the employer's own name; and what is expected compares equal to itself, as the convergence theorems ask. |
| Demo.DemoAdapter.GetExpectedEmployee | pkg/frame/controller/resourceconsist_controller_suite_test.go:208-254 | Nothing is expected of a deleting employer; otherwise exactly one entry for each selected pod that is not being deleted, under its name, with full weight exactly when the pod is ready. |
| Demo.DemoAdapter.SyncThroughDemo | pkg/frame/controller/consister.go:190-208 | Through this adapter a sync of employees without call errors is one the engine's theorems are about, and leaves nothing to do. |
| Demo.DemoAdapter.SyncVipsThroughDemo | pkg/frame/controller/consister.go:39-56 | The same for employer records. |
| Demo.DemoMeetsAssumptions | pkg/frame/controller/resourceconsist_controller_suite_test.go:405-421 | Ids are names, statuses are pods' and equality is reflexive on all employees it expects: the premises of the run theorems. |
| InterleavedAdds.FreshStep | pkg/frame/controller/consister.go:720-782 | Every Get, version-checked Update and foreign write keeps: a read whose version is still stored is what is stored. |
| InterleavedAdds.NoFinalizerLost | pkg/frame/controller/consister.go:720-782 | In every interleaving, no step of the wave loses a finalizer of anybody; at most this one is appended. |
| InterleavedAdds.NilMeansCommitted | pkg/frame/controller/consister.go:720-782 | A call that returned nil took effect at a step of its own: its Update stored the pod with the finalizer, or its Get found it there already, or found no such pod. |
| InterleavedAdds.AllNilMeansAllCommitted | pkg/utils/utils.go:83-98 | If every call of the wave returned nil, every named pod carried the finalizer at its call's own commit point, or did not exist when its call read it. |
| InterleavedAdds.UndisturbedAdd | pkg/frame/controller/consister.go:731-778 | A call whose pod nobody writes between its Get and its Update returns nil and leaves the finalizer after all the others. |
| InterleavedAdds.OtherAnswers | pkg/frame/controller/consister.go:731-778 | A call with nothing to do returns nil at once without a write; a failed call, or one whose pod was written since it was read, says so and writes nothing. |

## Left out

- Multi-cluster branches and the "#cluster" form of names, in every file.
- Manager wiring, watches, event handlers, logging and events: they touch none of the three stores.
- What RecordStatuses and RecordErrorConditions write. An error of RecordStatuses is modelled. The demo adapter's RecordErrorConditions updates the employer from the local copy after an error; after a refused record patch that copy already holds the new record text, so for this adapter `Limits.RefusedPatchLosesPod` needs the deferred update to be refused too.
- Certificates, secrets and files of the webhook package, and keys and certificates in `pkg/utils/utils.go`.
- Handle of the webhook (decoding a request and building the JSON patch): only Mutating is modelled.
- Adapters without ReconcileLifecycleOptions, which `pkg/frame/controller/consister.go:300` does not support.
- The SLB client: its answer is any list of IPs.
- Stale informer caches: a pass reads what is stored when it is fetched.
- The API server's own rules beyond removal of a deleting object without finalizers. It may refuse new finalizers on a deleting object, which would rule out the foreign writer of `Limits.LostForeignFinalizer`.
- Employees that are not pods: the option to follow the pod lifecycle stands for both conditions of `pkg/frame/controller/consister.go:291-299`.
- Consist.Consist.Interfere: others move between phases, and each phase is one atomic step.
- SlowStart.RunWave: the goroutines of a wave are calls completing one after another in any order; calls interleaved inside each other are treated for the lifecycle adds only, in `InterleavedAdds.dfy`.
- Pods.DeleteFinalizers: its calls share one error variable in the source, so it is modelled call by call.
- Expected.DistinctKeysCommute: two employers' merge patches interleaved inside one read-modify-write can overwrite each other, so steps are atomic here.
- Expected.AddEntries: a write that fails is taken as not applied.
- Expected.AddEntryRun: the batch closures of the expected finalizers are state-passing functions; the succeed flags set in place are a set of indices.
- Record.WrittenEntriesOnRecord: entries written by the webhook alone are not claimed to be on record, nor is every selected pod claimed to carry an entry (a recreated pod whose name is still recorded is skipped).
- Lifecycle.CarriersStayOnRecord: does not claim it for a sync with failures; `Lifecycle.FailedCarrierDropsOut` and `Limits.RefusedUpdateDropsOut` show it false there.
- Demo.DemoAdapter.StoreVips: one provider store per employer, not the demo's store shared by all of them, and not its mock data.
