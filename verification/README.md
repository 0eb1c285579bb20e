# Verified model of the GKE multi-tenancy framework

The repository starts and stops one set of controllers for each `ProviderConfig`. This project models its three
stateful parts in Dafny and proves what they guarantee over all runs.

1. **The ProviderConfig lifecycle.** Worker goroutines take keys from a deduplicating, rate limited queue and start or
   stop the controllers of each key, adding and removing a finalizer. API calls fail or lose their answers, the starter
   fails or panics, other writers change and delete objects, and the informer lags behind.
2. **Dual-emission metrics.** All tenants share one global collector for each metric name and keep a local vector each.
3. **Filtered views.** A tenant sees a shared informer through a label filter.

## How the model follows the source

`Lifecycle` is a step machine. A step is one access to shared state, so every sequence of actions is an interleaving of
workers, queue, informer, API server and other writers; a disabled action does nothing. The stages of a worker are the
statements of `sync`, `StartControllersForProviderConfig` and `StopControllersForProviderConfig` in order
(`Lifecycle.SyncStep`), around them the loop of `runInternal` (`GetStep`, `BusyStep`). `sync` hands on the *cached
pointer*, so `Marked` changes the cached object before the update is sent, and a failed update leaves the mark behind.
`ApiServer` has resource versions, optimistic concurrency, deletion timestamps and finalizers; `WorkQueue` is the
contract of the client-go queue. Fields called history in comments record what happened and decide nothing.

The same code is there a second time in the form it is written in, as classes whose methods update their fields, and each
of these classes is tied to the machine its lemmas are about.

* `Manager` and `Controller`: every method leaves exactly the state that the step machine reaches when the statements of
  one sync run without interruption (`Solo.Complete`); `CallContracts` says what that state is.
* `TaskQueue`: `RunInternal` computes the function `Loop`. `SoloWorker.LoopIsARun`: for every script of what others do
  before each turn and what the calls of its sync are answered, there are turns of the worker, of its own steps only, such
  that the run made of the script and these turns ends with the queue and the worker of `Loop`, on the rounds that the
  script makes: what the others do to the queue, and the result of the whole sync.
* `FilteredEvents`: `AddEventHandler` leads to the state in which the runs begin, and `StorePut`, `StoreRemove`,
  `StoreResync` and `Cleanup` call the handlers and are proved to take the state `Model()` by one `Step`.
* `MtWrappers`: a `Ledger` of the vectors and children keeps a state of `DualEmission`; obtaining a wrapper, emitting and
  resetting are proved to take it by `With`, by the two halves of an emission, and by `ResetVec`.
* `MetricsTracker`, `MetricFactory`: the methods compute the functions that the runs repeat.

| module | source |
|---|---|
| Lifecycle, MutualExclusion, StopChannels, Convergence, Retries, Shutdown, Finalizers, FinalizersAtRest, Settling, BlindStart | pkg/framework, all four files together |
| Manager, Solo, CallContracts | pkg/framework/manager.go, controller_map.go |
| Controller | pkg/framework/controller.go |
| TaskQueue, SoloWorker, WorkQueue | pkg/framework/taskqueue/taskqueue.go and the client-go work queue |
| Filtering, FilteredCache, FilteredEvents, FilteredFactory | pkg/filteredinformer |
| MetricsTracker, MetricFactory, DualEmission, MtWrappers, Gatherer | pkg/mtmetrics |

## Where the code and its promises part

The model follows the code. These are the places where a comment or the repository's README promises more.

* *Finalizers make deletion wait until the controllers are stopped* (README.md:17). Not after a **blind start**, one that the
  guard let through on a snapshot that lists the finalizer while the server's object does not (controller.go:151-186,
  manager.go:105-117). `Finalizers.SecuredIffNeverBlind`: a run is secured in all its states if and only if it has no blind
  start. `Finalizers.BlindGuardHasCause`: on a snapshot of what the server stores, a guard is blind if and only if the
  finalizer on it is a mark made in memory whose update has not been applied; on any other blind guard the snapshot is out
  of date, as after a rollback or a Stop. `BlindStart.ControllerOutlivesItsObject` is a run of the first kind: in the end
  the object is deleted, its controller stays open and nothing is left to do.
* *The stop channel is closed when the controller needs to shut down* (controller.go:33-35). Nothing closes it then:
  `Shutdown.ShutdownLeavesChannelsOpen`, with the run `BlindStart.StoppedButRunning`.
* *Shutdown waits for the workers to acknowledge* (taskqueue.go:113). If the cache never synced, no worker was spawned
  and the wait never ends: `Shutdown.ShutdownReturnsIffRun`, with the run `Shutdown.StoppedBeforeSync`.
* *A starter returns a channel or an error* (controller.go:29-31). If it returns both, the channel is dropped: nobody stores
  it and nobody closes it, and whatever runs on it is never stopped (`StopChannels.ExactlyOnePlace`).
* *List returns the objects matching the filter* (filteredcache.go:33). With `allowMissing` the index path leaves out the
  unlabelled ones: `FilteredCache.PathsAgree`, with the store `FilteredCache.PathsDiffer`.
* *Replaying the events gives the filtered store* holds under a condition on the shared informer, which the source neither
  checks nor states: the final state that a deletion reports passes the filter if the stored one did. Reporting the stored
  state is enough. Otherwise the tenant keeps an object that is gone: `FilteredEvents.UnfaithfulDeletion`.
* *Labels are recorded if the metric is not registered* (mt_metrics.go:44-47). They stay recorded when the registration
  then fails, and bind the name for good: `MetricsTracker.FirstCallFixesLabels`, with the run
  `MetricsTracker.FailureBlocksName`.
* A metric with a label of its own called `tenant_uid` is registered globally and never locally:
  `MetricFactory.TenantLabelIsReserved`. The constant labels of a later request for a name are lost globally:
  `MetricFactory.ConstantLabelsAreLocal`. Tenants that describe one metric in different words cannot be gathered together:
  `Gatherer.FamiliesFitTogether`, with the run `Gatherer.HelpTextsClash`.
* After `Cleanup`, a filtered factory goes on handing out the informers it has stopped:
  `FilteredFactory.FilteredSharedInformerFactory.AnyRun`, with the calls of `FilteredFactory.AskedAgain`.

## Model

Runs are arbitrary: every lemma with a `run` holds for every number of workers and every sequence of actions.

| member | source | states |
|---|---|---|
| Domain.WithoutShrinksIffPresent | pkg/framework/manager.go:72-73 | The length test of the in-place filter is right: the list shrinks exactly when the name was in it, is untouched otherwise, and every other name keeps its multiplicity |
| Domain.WithoutConcat | pkg/framework/manager.go:72 | Filtering distributes over concatenation, so the other names keep their order |
| WorkQueue.AddKeepsValid | vendor/k8s.io/client-go/util/workqueue/queue.go:227-251 | An Add before shutdown marks the key and no other; the queue holds each dirty key that nobody processes once, and a key is dirty exactly if its last Add has had no sync since |
| WorkQueue.GetKeepsValid | vendor/k8s.io/client-go/util/workqueue/queue.go:265-284 | The key handed out was marked and was with no worker; the same invariant holds afterwards |
| WorkQueue.DoneKeepsValid | vendor/k8s.io/client-go/util/workqueue/queue.go:289-302 | A key marked while it was processed is queued again, once and behind the others, so the invariant survives |
| WorkQueue.EndKeepsValid | pkg/framework/taskqueue/taskqueue.go:81-87 | AddRateLimited or Forget keep the failure count equal to the failures since the last success |
| MutualExclusion.StepKeeps | pkg/framework/taskqueue/taskqueue.go:74-89 | Every step keeps: the keys in processing are exactly the keys of busy workers, each held by one worker |
| MutualExclusion.Reachable | pkg/framework/manager.go:20-21 | The manager's assumption holds in every reachable state: no key is processed twice at once |
| Retries.NoSharedSet | pkg/framework/manager.go:149-152 | Two workers never hold the same ControllerSet, so the unlocked accesses to stopCh cannot meet |
| Retries.NoLostRetry | pkg/framework/taskqueue/taskqueue.go:81-88 | The requeue count is the number of failures, panics included, since the last success; until shutdown a key with such a failure is waiting, dirty or in process |
| StopChannels.SyncStepKeeps | pkg/framework/manager.go:86-182 | A statement of a sync changes the entry, the sets and the channels of its own key at most, and accounts for every open channel of that key |
| StopChannels.ExactlyOnePlace | pkg/framework/manager.go:97-133 | In every reachable state each channel the starter returned is in exactly one place: in the map under its key, with the one worker of its key, closed, or dropped; dropped if and only if it came with an error; none is ever closed twice |
| StopChannels.EntriesHaveReasons | pkg/framework/manager.go:97-131 | An entry nobody works on holds an open channel unless a start of that key panicked; a start that finds an entry without a channel finds it because of a panic |
| StopChannels.RunsRefine | pkg/framework/manager.go:86-182 | Every run refines a machine that only starts a stopped key on an unused channel and stops a running key on its own channel; the open channels of each key are those of that machine |
| StopChannels.StartsAreStopped | pkg/framework/manager.go:86-182 | In every reachable state a key has been started as often as stopped, or once more, and once more exactly if a channel of it is open |
| Convergence.Converges | pkg/framework/controller.go:86-194 | Until shutdown a cached entry is still going to be looked at, or it is a ProviderConfig that runs exactly if it is not terminating |
| Convergence.RestIsRight | pkg/framework/controller.go:147-194 | At rest the cached keys with an open channel are exactly the ProviderConfigs that are not terminating, with one channel each |
| Settling.CalmSettles | pkg/framework/taskqueue/taskqueue.go:72-90 | While every call succeeds and nothing changes outside, every step of a worker with something to do, every notification and every expired back-off lowers a potential, from whatever state is under way |
| Settling.CalmRunsSettle | pkg/framework/controller.go:86-194 | From any reachable state of a running controller whose cached entries are ProviderConfigs under their own names, every schedule has a bounded number of such steps, and when none is left the controller is at rest with exactly the right keys running |
| Settling.RestIsReachable | pkg/framework/controller.go:86-194 | From any such state there is a way to that rest without any help from outside, even if cached objects are out of date |
| FinalizersAtRest.RestReleases | pkg/framework/manager.go:139-182 | Among writers that leave the manager's finalizer alone, at rest the server does not list it on any cached ProviderConfig that is terminating, so that nothing of the manager's blocks the deletion |
| FinalizersAtRest.RestIsRightOnServer | pkg/framework/manager.go:82-182 | If no start was blind, at rest a cached key lists the finalizer on the server, and has an open channel, exactly if it is a ProviderConfig that is not terminating |
| Shutdown.StatementCounts | pkg/framework/manager.go:86-182 | Every sync takes a bounded number of statements, whatever the outcomes |
| Shutdown.WorkShrinks | pkg/framework/taskqueue/taskqueue.go:72-90 | After shutdown has begun no step adds work, and every step of a worker takes some away |
| Shutdown.ShutdownTerminates | pkg/framework/taskqueue/taskqueue.go:114-121 | From any reachable state in shutdown, the workers take a bounded number of further steps under every schedule, and once they have taken it all have left |
| Shutdown.FairShutdownEnds | pkg/framework/taskqueue/taskqueue.go:114-121 | A worker that is offered more turns than there is work has left, whatever the other workers and the environment do |
| Shutdown.ShutdownDrains | pkg/framework/taskqueue/taskqueue.go:114-121 | When Shutdown has returned, all workers have left, queue, dirty and processing are empty, and every accepted Add was followed by the beginning of a sync |
| Shutdown.ExitIsFinal | pkg/framework/taskqueue/taskqueue.go:75-78 | A worker that has closed its done channel never runs again, so it is closed once |
| Shutdown.ShutdownReturnsIffRun | pkg/framework/controller.go:103-125 | A begun shutdown can still return if and only if the workers were ever spawned; after a failed cache sync it never does |
| Shutdown.StoppedBeforeSync | pkg/framework/controller.go:109-113 | The run that stops before the cache has synced: Shutdown never returns after it |
| Shutdown.ShutdownLeavesChannelsOpen | pkg/framework/controller.go:122-125 | When Run has returned, the open channels are those in the map, and they stay open whatever happens later |
| BlindStart.StoppedButRunning | pkg/framework/controller.go:122-125 | A run after which Run has returned and a channel is open |
| Finalizers.OthersConserved | pkg/framework/manager.go:65-179 | Among any other writers, a worker's step changes no object but that of its key, and there keeps order and number of all finalizers but the manager's, which it appends once or removes altogether; the object goes away only if its deletion waited for nothing else |
| Finalizers.StepSecures | pkg/framework/manager.go:105-133 | One step breaks "open channel implies the server's object lists the finalizer" exactly if it is a blind start |
| Finalizers.SecuredIffNeverBlind | pkg/framework/manager.go:86-182 | Among writers that leave the manager's finalizer alone, no channel is open without the finalizer on the server in any state of a run if and only if no start of the run was blind |
| Finalizers.BlindGuardHasCause | pkg/framework/manager.go:105-111 | In every reachable state, on a snapshot of what the server stores a guard trusts wrongly if and only if the finalizer is a mark made in memory, and then the marking start's update has not been applied |
| Finalizers.GuardSetsFlag | pkg/framework/manager.go:106-119 | A start goes on to the starter with the blind flag exactly if the guard trusted wrongly |
| BlindStart.ControllerOutlivesItsObject | pkg/framework/manager.go:105-117 | One lost update suffices: at the end the object is gone from server and cache, its channel is open, and the controller has nothing left to do |
| CallContracts.StartContract | pkg/framework/manager.go:86-137 | A running key is left alone; otherwise Start succeeds exactly if the finalizer was ensured and the starter returned a channel without an error; a failure without panic leaves map and channels as before; no other object on the server changes; afterwards the server lists the finalizer unless the snapshot wrongly did |
| CallContracts.StartFailureRollsBack | pkg/framework/manager.go:119-131 | A starter failure takes back a finalizer this call wrote if the calls for that get through, and never one it found |
| CallContracts.GuardContract | pkg/framework/manager.go:105-117 | A start that could not ensure the finalizer starts nothing |
| CallContracts.StarterContract | pkg/framework/manager.go:119-136 | A channel without an error is stored, a panic leaves the entry, any other result drops the entry this call made, and a channel that came with an error |
| CallContracts.RollbackContract | pkg/framework/manager.go:65-80 | Rollback removes exactly the manager's finalizer from the latest object, if both calls get through, and touches no other object |
| CallContracts.RemovalContract | pkg/framework/manager.go:161-181 | The removal succeeds exactly if there is nothing to remove or the update is applied and answered; success means that the server does not list the finalizer |
| CallContracts.StopContract | pkg/framework/manager.go:143-182 | Stop always drops the entry and closes its channel and no other, even if it fails, and changes no other object on the server; it succeeds exactly if the finalizer removal did; a retry closes nothing again |
| CallContracts.ForeignKindFails | pkg/framework/manager.go:87-89 | Start and Stop fail on an object of another kind and change nothing at all |
| CallContracts.TerminatingIsSkipped | pkg/framework/manager.go:90-93 | Start on a terminating ProviderConfig succeeds and changes nothing |
| Manager.ControllerMap.Get | pkg/framework/controller_map.go:27-32 | Finds the set stored under the key, or nothing |
| Manager.ControllerMap.GetOrCreate | pkg/framework/controller_map.go:36-44 | The existing set with nothing changed, or a new set without a channel as the only change |
| Manager.ControllerMap.Delete | pkg/framework/controller_map.go:47-52 | Removes this key's entry and no other |
| Manager.Manager.StartControllersForProviderConfig | pkg/framework/manager.go:86-137 | Outcome and state are those of the step machine's uninterrupted start |
| Manager.Manager.EnsureFinalizer | pkg/framework/manager.go:105-117 | Marks the cached object in place, then updates the server, unless the cached object lists the finalizer |
| Manager.Manager.RunStarter | pkg/framework/manager.go:119-136 | From the starter call to the stored channel, the panic or the undoing, as in the step machine |
| Manager.Manager.Undo | pkg/framework/manager.go:123-130 | Drops only an entry this call made, and rolls back only a finalizer this call wrote |
| Manager.Manager.RollbackFinalizerOnStartFailure | pkg/framework/manager.go:65-80 | The rollback of the step machine, errors swallowed |
| Manager.Manager.StopControllersForProviderConfig | pkg/framework/manager.go:143-182 | Outcome and state are those of the step machine's uninterrupted stop |
| Manager.Manager.DeleteAndClose | pkg/framework/manager.go:149-156 | The entry goes first, then its channel is closed, and closing a closed one panics |
| Manager.Manager.RemoveFinalizer | pkg/framework/manager.go:161-181 | Fetches the latest object, treats a missing one as success, and updates only if there is something to remove |
| Controller.Controller.Sync | pkg/framework/controller.go:147-194 | Level triggered dispatch on the cached object: the whole sync of the step machine, error cases included |
| Controller.Controller.SyncWrapper | pkg/framework/controller.go:127-145 | A panic becomes an error, so the key is retried |
| TaskQueue.PeriodicTaskQueue.constructor | pkg/framework/taskqueue/taskqueue.go:141-152 | One open done channel for each worker, and an empty queue |
| TaskQueue.PeriodicTaskQueue.New | pkg/framework/taskqueue/taskqueue.go:129-133 | No queue without workers |
| TaskQueue.PeriodicTaskQueue.Enqueue | pkg/framework/taskqueue/taskqueue.go:101-111 | Adds the keys up to the first object without one, and nothing behind it |
| TaskQueue.AddAllMarks | pkg/framework/taskqueue/taskqueue.go:101-111 | Before shutdown exactly the accepted keys become marked, each queued once behind what was there; afterwards nothing changes |
| TaskQueue.AddAllQueues | pkg/framework/taskqueue/taskqueue.go:101-111 | Before shutdown, the keys that were neither marked nor in process are queued behind the others, in the order of the call, each once |
| TaskQueue.TurnKeepsValid | pkg/framework/taskqueue/taskqueue.go:74-89 | One turn of the worker loop syncs the oldest key and leaves the rest in order, blocks, or ends the loop exactly if the queue is empty and shutting down |
| TaskQueue.LoopKeepsValid | pkg/framework/taskqueue/taskqueue.go:72-90 | Whatever others do to the queue between the turns, the loop keeps the queue's invariant, keeps no key for itself, and ends only on an empty queue in shutdown |
| TaskQueue.LoopDrains | pkg/framework/taskqueue/taskqueue.go:72-90 | In shutdown a worker that nobody helps syncs every queued key once, oldest first, and leaves in the next round, whatever arrives meanwhile |
| TaskQueue.PeriodicTaskQueue.RunInternal | pkg/framework/taskqueue/taskqueue.go:72-90 | For any queue and any rounds, before shutdown and in it, leaves the queue where the function `Loop` does, and closes the done channel exactly if the loop ends |
| SoloWorker.TurnIsARun | pkg/framework/taskqueue/taskqueue.go:74-89 | A turn of the loop with the whole sync inside is a run of the step machine's worker, with the same queue, result and world, and the worker leaves exactly if the turn ends the loop |
| SoloWorker.LoopIsARun | pkg/framework/taskqueue/taskqueue.go:72-90 | For every script the loop is a run of the step machine: before each turn the others act as the script says, the turn is of the worker's own steps and syncs under the script's answers, and at the end queue and worker are those of the loop |
| TaskQueue.PeriodicTaskQueue.Shutdown | pkg/framework/taskqueue/taskqueue.go:114-121 | Waits for the done channels in turn; returns if and only if every worker has left before or leaves while it waits |
| Filtering.GetFilteredListByValue | pkg/filteredinformer/helpers.go:44-52 | The loop computes the filtered list in order |
| Filtering.MatchesMeans | pkg/filteredinformer/helpers.go:31-61 | An object passes by its label's value or, without the label, by allowMissing; a tombstone passes exactly if the object in it does; nothing without metadata passes |
| Filtering.FilteredKeepsMatches | pkg/filteredinformer/helpers.go:31-52 | The filtered list holds exactly the matching objects, each as often as before |
| Filtering.FilteredConcat | pkg/filteredinformer/helpers.go:44-52 | Filtering keeps the order of the list |
| Filtering.ViewsShareUnlabelled | pkg/filteredinformer/helpers.go:31-61 | The views for different values share exactly the unlabelled objects if both filters allow them, and nothing otherwise |
| Filtering.SizesCount | pkg/filteredinformer/helpers.go:31-61 | The sizes of the views of any set of values add up to the number of objects labelled with one of them |
| Filtering.ViewsPartition | pkg/filteredinformer/helpers.go:31-61 | The views of all label values and the unlabelled objects account for every object with metadata exactly once |
| FilteredCache.ProviderConfigFilteredCache.ByIndex | pkg/filteredinformer/filteredcache.go:16-22 | The indexed objects restricted to the view, each once; an unknown index is an error |
| FilteredCache.ProviderConfigFilteredCache.Index | pkg/filteredinformer/filteredcache.go:25-31 | The objects sharing an index value, restricted to the view; an unknown index, or an index function that fails on the object, is an error |
| FilteredCache.ProviderConfigFilteredCache.List | pkg/filteredinformer/filteredcache.go:34-42 | What an index of the filter key's name files under the value, or without one the whole view, each object once |
| FilteredCache.ProviderConfigFilteredCache.ListKeys | pkg/filteredinformer/filteredcache.go:45-54 | The names of a list that List may show; with the label index and objects stored under their keys, exactly the keys of what is shown, each once |
| FilteredCache.ProviderConfigFilteredCache.Get | pkg/filteredinformer/filteredcache.go:57-63 | A lookup in the view; an object without a key is an error |
| FilteredCache.ProviderConfigFilteredCache.GetByKey | pkg/filteredinformer/filteredcache.go:66-75 | A lookup in the view |
| FilteredCache.FilteredListing | pkg/filteredinformer/filteredcache.go:16-42 | Filtering a listing of any keys, in any order, lists those of the keys that are in the view |
| FilteredCache.SameListing | pkg/filteredinformer/filteredcache.go:34-42 | Listings of the same keys are equal as multisets, whatever order the map iteration took |
| FilteredCache.IndexOmitsUnlabelled | pkg/filteredinformer/helpers.go:15-27 | The index path shows the view less exactly the unlabelled objects |
| FilteredCache.PathsAgree | pkg/filteredinformer/filteredcache.go:34-42 | With the label index, fast and slow List agree as multisets if and only if allowMissing is off or nothing is unlabelled |
| FilteredCache.PathsDiffer | pkg/filteredinformer/filteredcache.go:34-42 | A store of one unlabelled object that the filter allows: listed without the index, not listed with it |
| FilteredEvents.ProviderConfigFilteredInformer.NewFilteredInformer | pkg/filteredinformer/filteredinformer.go:24-39 | Installs the label index unless an index has that name, and keeps all others |
| FilteredEvents.ProviderConfigFilteredInformer.GetIndexer | pkg/filteredinformer/filteredinformer.go:76-93 | The filtered cache over the shared indexer |
| FilteredEvents.ProviderConfigFilteredInformer.OnAdd | pkg/filteredinformer/filteredinformer.go:47-73 | Delivered if the object passes the filter and the informer is not stopped |
| FilteredEvents.ProviderConfigFilteredInformer.OnUpdate | pkg/filteredinformer/filteredinformer.go:47-73 | Becomes an update, an add, a delete or nothing, by which of the two objects passes, even if a cleanup comes between the two tests |
| FilteredEvents.ProviderConfigFilteredInformer.StorePut | pkg/filteredinformer/filteredinformer.go:47-73 | An object added or replaced in the store, with its handler call, is the step `Put`, or `TornPut` if a cleanup comes in between |
| FilteredEvents.ProviderConfigFilteredInformer.StoreRemove | pkg/filteredinformer/filteredinformer.go:47-73 | An object taken out of the store, with its handler call, is the step `Remove` |
| FilteredEvents.ProviderConfigFilteredInformer.StoreResync | pkg/filteredinformer/filteredinformer.go:56-65 | A resync is the step `Resync` |
| FilteredEvents.ProviderConfigFilteredInformer.OnDelete | pkg/filteredinformer/filteredinformer.go:47-73 | A deletion, tombstones included, is judged by the state it deletes |
| FilteredEvents.ProviderConfigFilteredInformer.Cleanup | pkg/filteredinformer/filteredinformer.go:96-103 | Raises the stop flag and touches nothing else |
| FilteredEvents.ProviderConfigFilteredInformer.AddEventHandler | pkg/filteredinformer/filteredinformer.go:47-54 | A handler that joins is told of every stored object that passes, each once, in some order |
| FilteredEvents.JoinedIsRight | pkg/filteredinformer/filteredinformer.go:47-73 | Replaying what a joining handler is told gives exactly the filtered store, whatever the order |
| FilteredEvents.PutTells | pkg/filteredinformer/filteredinformer.go:47-73 | A stored object is announced as what happens in the tenant's view: an update from the state seen before if it stays, an add if it appears, a delete of the state seen before if it disappears, and otherwise not at all |
| FilteredEvents.ResyncTells | pkg/filteredinformer/filteredinformer.go:56-73 | A resync is announced as an update of an object in the view, and of no other |
| FilteredEvents.RemoveTells | pkg/filteredinformer/filteredinformer.go:47-73 | A deletion that reports the stored state is announced exactly if the object was in the view |
| FilteredEvents.TombstoneRemoves | pkg/filteredinformer/helpers.go:32-34 | A tombstone takes the same object out of the store as the object in it would, and leads the tenant to the same picture |
| FilteredEvents.StreamFits | pkg/filteredinformer/filteredinformer.go:47-73 | From joining, over every run with faithful deletions, the tenant is told to add only what it does not know and to update only from the state it knows, and, if deletions report what is stored, to delete only what it knows |
| FilteredEvents.ReconstructsIffFaithful | pkg/filteredinformer/filteredinformer.go:47-73 | From joining an informer with any store, over every run until cleanup, replaying the delivered events gives exactly the filtered store at every moment, if and only if each deletion of a visible object was reported in a state that passes the filter |
| FilteredEvents.StoredStateSuffices | pkg/filteredinformer/helpers.go:31-41 | If every deletion reports the stored state, as such or in a tombstone, the replayed events are the filtered store at every moment of the run |
| FilteredEvents.UnfaithfulDeletion | pkg/filteredinformer/helpers.go:31-41 | A deletion that reports another label than the one last delivered: the store is empty and the tenant still has the object |
| FilteredEvents.Frozen | pkg/filteredinformer/filteredinformer.go:96-103 | After cleanup the delivered stream never changes again |
| FilteredEvents.TornUpdateIsBeforeOrAfter | pkg/filteredinformer/filteredinformer.go:68-73 | A cleanup between the two filter calls of an update leaves the tenant for ever with the filtered store of before or after that update |
| FilteredFactory.FilteredSharedInformerFactory.Informer | pkg/filteredinformer/filteredfactory.go:132-142 | One informer for each kind for the factory's life, registered for cleanup when made, and returned again as it is, stopped or not |
| FilteredFactory.FilteredSharedInformerFactory.Cleanup | pkg/filteredinformer/filteredfactory.go:40-47 | Stops every informer handed out so far |
| FilteredFactory.FilteredSharedInformerFactory.AnyRun | pkg/filteredinformer/filteredfactory.go:39-166 | After any run of calls there is an informer of a kind exactly if one was asked for, never two, and it is stopped if and only if a cleanup came after the kind was first asked for |
| FilteredFactory.AskedAgain | pkg/filteredinformer/filteredfactory.go:135-137 | Asked, cleaned up and asked again, a factory returns the informer it returned before, stopped |
| MetricsTracker.GlobalMetricsTracker.ValidateLabelsLocked | pkg/mtmetrics/mt_metrics.go:48-72 | Accepts a new name and records its labels, or exactly the recorded label list |
| MetricsTracker.GlobalMetricsTracker.GetOrCreateCollector | pkg/mtmetrics/mt_metrics.go:76-200 | The four get-or-create methods: recorded collector of the right type, or a registration with all its failures |
| MetricsTracker.RunExtends | pkg/mtmetrics/mt_metrics.go:48-200 | Over every run labels and collectors, once recorded, never change, and every collector has recorded labels |
| MetricsTracker.OneCollectorPerName | pkg/mtmetrics/mt_metrics.go:76-200 | Two successful calls for one name asked for the same kind and labels and got the same collector |
| MetricsTracker.OutcomeOfCall | pkg/mtmetrics/mt_metrics.go:76-200 | What every call of every run returns: nothing for labels other than the first call's; after a success for the name, the same collector for everybody who asks for that type; before one, the new or existing collector exactly if its registration serves |
| MetricsTracker.RepeatedCallSucceeds | pkg/mtmetrics/mt_metrics.go:83-88 | A call that repeats a successful one, by whichever tenant, returns the same collector |
| MetricsTracker.NewCollectorsDiffer | pkg/mtmetrics/mt_metrics.go:90-103 | Collectors made for different names are different |
| MetricsTracker.FirstCallFixesLabels | pkg/mtmetrics/mt_metrics.go:56-70 | Other labels than those of the first call are refused for good, even if that call failed to register |
| MetricsTracker.FailureBlocksName | pkg/mtmetrics/mt_metrics.go:56-101 | A registration that fails and a call with other labels: the second is refused although nothing was ever registered |
| MetricFactory.MtMetricFactory.NewMetric | pkg/mtmetrics/mt_metrics.go:369-505 | The four constructors: the tracker's collector, then a local vector with the tenant label and the constant labels of the options, and every error path |
| MetricFactory.NewMetricMeans | pkg/mtmetrics/mt_metrics.go:369-505 | A successful constructor returns the factory's tenant, the tracker's collector and a counter or histogram vector as asked for, registered under the name and constant labels with `tenant_uid` behind the label names; nothing else is registered, and nothing at all on failure |
| MetricFactory.WrappersFitTogether | pkg/mtmetrics/mt_metrics.go:391-395 | After any run every wrapper carries the tenant of its factory, and wrappers for one metric name share the global collector, the type and the label names |
| MetricFactory.ChildrenMean | pkg/mtmetrics/mt_metrics.go:312-361 | A scalar shows its one series at once; asking a vector for values adds exactly that series, with the tenant of the factory behind the values; a Reset takes away exactly the series of its vector |
| MetricFactory.LocalRefusesIffUnfit | pkg/mtmetrics/mt_metrics.go:369-396 | After the tracker has agreed, the local registration fails if and only if a label repeats or this factory made one of that name with another help text or other constant labels; the branches for another type cannot be reached |
| MetricFactory.ConstantLabelsAreLocal | pkg/mtmetrics/mt_metrics.go:79-103 | Two successful requests for one name get the same global collector whatever their constant labels, and vectors of their own locally |
| MetricFactory.TenantLabelIsReserved | pkg/mtmetrics/mt_metrics.go:370-389 | A caller's label called like the tenant label leaves a global collector and no local one |
| MtWrappers.Emit | pkg/mtmetrics/mt_metrics.go:245-297 | Every child that is present receives the amount, or none when a counter panics on a negative one |
| MtWrappers.MtVec.WithLabelValues | pkg/mtmetrics/mt_metrics.go:312-354 | The local child is filed under the values and the tenant, the global one under the values; a child that exists is found, a new one starts at zero, and a missing vector gives a missing child |
| MtWrappers.MtVec.Reset | pkg/mtmetrics/mt_metrics.go:326-361 | Empties the local vector only |
| MtWrappers.Ledger.WithLabelValues | pkg/mtmetrics/mt_metrics.go:312-354 | Obtaining a wrapper takes the accounts by the step `With` |
| MtWrappers.Ledger.EmitOn | pkg/mtmetrics/mt_metrics.go:245-297 | An emission takes the accounts by its two steps, local and global, or not at all if it panics |
| MtWrappers.Ledger.Reset | pkg/mtmetrics/mt_metrics.go:326-361 | A Reset takes the accounts by the step `ResetVec` |
| DualEmission.Conservation | pkg/mtmetrics/mt_metrics.go:239-361 | Over every run of any number of factories, sum and count of the global child, together with what is on its way there, equal those of all local children of the series, detached ones and emissions through old wrappers included |
| DualEmission.ResetsAreInvisible | pkg/mtmetrics/mt_metrics.go:325-361 | Whatever is reset in a run, and whenever, every global child holds what it would hold if nobody had ever reset anything |
| DualEmission.GlobalIsShownPlusHidden | pkg/mtmetrics/mt_metrics.go:239-361 | The global sum, with what is on its way there, is what the tenants show now plus what their resets have hidden |
| Gatherer.MultiGatherer.Register | pkg/mtmetrics/gatherer.go:58-66 | A tenant is registered once; a second attempt is an error and changes nothing |
| Gatherer.MultiGatherer.Unregister | pkg/mtmetrics/gatherer.go:70-74 | Removes this tenant only |
| Gatherer.MultiGatherer.Gatherers | pkg/mtmetrics/gatherer.go:80-92 | Every registered gatherer once, in the order of the sorted tenant UIDs |
| Gatherer.BelowIsLexicographic | pkg/mtmetrics/gatherer.go:86 | The order is the lexicographic one: a prefix comes first, and otherwise the smaller character at the first difference |
| Gatherer.SortedListingUnique | pkg/mtmetrics/gatherer.go:82-91 | There is only one such order, so it does not depend on the map iteration |
| Gatherer.FamiliesFitTogether | pkg/mtmetrics/mt_metrics.go:369-505 | In any two factories' registries, after any run, families of one name have the same type and labels, so they merge if and only if their help texts agree |
| Gatherer.SeriesCarryTenant | pkg/mtmetrics/mt_metrics.go:312-323 | Every series that a factory's registry shows after any run ends in the tenant label, with the tenant of that factory |
| Gatherer.TenantsAreDisjoint | pkg/mtmetrics/mt_metrics.go:312-505 | No run makes the registries of two tenants show the same series |
| Gatherer.HelpTextsClash | pkg/mtmetrics/gatherer.go:80-95 | Two tenants that describe one counter in different words both succeed, and their families cannot be merged |

## Left out

- Generated code, API types, `mtcontext`, logging, sync IDs and stack traces: no effect on the state modelled here.
- `pkg/mtmetrics/metrics.go`: the single-tenant factory repeats the register-or-reuse pattern that the tracker has.
- client-go and Prometheus internals: contracts only. Back-off delays, fairness and wall-clock time are a free choice of the schedule; reflectors, metric and label syntax, histogram buckets and the exposition format do not occur.
- Gauges and the empty `Cleanup` methods of the metric factories: not implemented in the source.
- Manager.Manager.StartControllersForProviderConfig: runs without interleaving here; concurrency is covered by the step machine, whose steps it is proved to take.
- Manager.Manager.StopControllersForProviderConfig: likewise without interleaving.
- Controller.Controller.Sync: the construction of the controller, its two event handlers and `Run` exist only as actions of the step machine (`Notify`, `CacheSynced`, `Stop`, `ShutdownReturns`).
- TaskQueue.PeriodicTaskQueue.RunInternal: runs as many rounds as it is given, because the original loop does not end before shutdown; what others do to the queue comes between its turns, and finer interleavings are in the step machine.
- TaskQueue.PeriodicTaskQueue.Shutdown: returns false where the original waits for ever.
- Shutdown.FairShutdownEnds: is about schedules that give the worker its turns; that a scheduler does, and that every API call and starter call returns, is assumed.
- Settling.CalmRunsSettle: is about times when calls succeed and nothing changes outside; an entry of another type or under another name makes its key fail for ever, as in the source.
- Finalizers.SecuredIffNeverBlind: is about writers that leave the manager's finalizer alone; whoever removes it by hand breaks the guarantee without a blind start.
- StopChannels.ExactlyOnePlace: assumes that the starter returns a channel nobody has seen, as one made by `make` is.
- FilteredEvents.ProviderConfigFilteredInformer.NewFilteredInformer: an error of AddIndexers on a running informer is ignored by the source and not modelled; without the index, List takes its slow path, which is modelled.
- DualEmission.Conservation: exact real numbers in place of floating point; rounding and NaN are not modelled. Global collectors start at zero and are fed through wrappers only; one that an equal collector of somebody else's stands in for is not covered.
- MtWrappers.MtVec.WithLabelValues: asks that the local and the global vector are different objects, as the factory makes them.
- Gatherer.MultiGatherer.Gatherers: an insertion stands in for the library's sort, and the merge that follows is the library's.
- MetricsTracker.GlobalMetricsTracker.GetOrCreateCollector: the maps exist from construction on; the zero value with missing maps is not modelled.
