# The VirtualMachine controller, its webhooks and its queue

This project models ci-vm-operator's reconciliation of `VirtualMachine` records with GCE instances, and proves what
holds in every run of it: any number of workers, users editing and deleting records, garbage collection, GCE operations
in progress, refused calls, lost answers and process restarts, interleaved call by call.

`dafny verify dfyconfig.toml` checks the whole project.

## How the model is built

- `types`, `string_sets`, `keys`, `admission`: the record, the sorted string set, queue keys, and the two webhooks.
- `virtual_machines`: the record on the heap (its finalizers and disks are arrays) with the generated deep copies.
- `protocol`: one reconcile as an automaton over its remote calls. Every call is a step of its own: a position says
  which call comes next, and each answer leads to the next position.
- `waiting`, `controller`: the methods of the source in imperative form. Each is proved to follow the automaton, call by
  call, against services that answer arbitrarily; the two polling loops are proved against specifications over whole
  streams of observations and a clock.
- `conduct`: what the controller sends and returns, said of the exchanges alone and in literals, without the automaton:
  which call is due after which history, with what in it, and with what result a history ends. The automaton is proved
  to do exactly this. `outcomes`: what a nil return says about the trace of calls.
- `work_queue`: the vendored rate-limited queue as a value and as a class. The two are tied by the class's contracts.
- `worlds`, `systems`: the API server, GCE, secrets, the queue and the workers as one transition system. A worker's step
  is one call of the automaton, and what it does and is answered is what the services do and answer on the very call
  sent (`CallSentIsServed`), so everything proved of runs is about the code that `controller` follows.
- `key_queues`: the queue of strings that the controller uses and the queue of keys of the system do the same.
- `scheduling`, `machines`, `origins`, `frozen`, `removals`, `coverage`: what holds in every run, whoever strips
  finalizers; among it, what an accepted removal means and exactly which events cost an instance its guarded record.
- `records`, `protection`, `leaking`, `leak_run`: what the finalizer protects while only the controller strips it.
- `agreement`, `stranding`, `disagreement`: whether the secret's key opens the instance, in runs under unique names.
- `reconciles`, `isolation`: a reconcile by itself; and everything that concerns two names, interleaved.
- `convergence`, `cleanup`, `quiet_run`, `repair`: fault-free reconciles of live and of deleted records, that they are
  behaviours of the system, and what they achieve from every state of every run.
- `reachable`: runs built event by event, for the two examples.

## What is assumed of the environment

- API server: every accepted write makes a new resourceVersion, writing what is already stored makes none, and a write
  from an old version is a conflict. The status endpoint changes only the status and the main endpoint ignores it
  (`deploy/crd.yaml:12-13`). A record being deleted goes with its last finalizer. Uids are never used twice. Creation
  passes `mutate` and updates pass `validate` (`deploy/admission-controller-registration.yaml:14-17`, `37-40`).
- GCE: an accepted insert makes the instance visible at once and a taken name is refused. Operations on one instance end
  in the order in which they were accepted, and act on the instance they were accepted for. An operation that reports no
  errors took effect; one that reports errors may have. A lookup may fail in any way, but says "not found" only of what
  is not there. Instances may vanish at any time.
- A generated public key is one line, and never generated before.
- Secrets of records' names are written only by the controller. Anybody may remove one at any time.
- Fair runs (`FairRun`), needed only for what the finalizer protects: only the controller removes its finalizer from a
  record that has it. The webhooks do not enforce this.
- Homed runs (`HomedRun`), needed only for agreement (`AgreementExactly`, `OverwritesExplained`, `UnstrandedAgree`) and
  for `LiveIsNotErased`: a name is used in one namespace
  only, since the instance is named by the record's bare name (`pkg/controller/gce.go:83`, `119`, `164`).
- One process at a time. `Crash` empties the queue and idles the workers, whatever they were doing. A panic (an instance
  without network interfaces, `pkg/controller/gce.go:213`) skips the error handling, and the deferred `Done` frees the
  key (`pkg/controller/controller.go:161`); the process may crash then or at any other time.
- "From any world" means any in which GCE's own books are in order (`MachinesOk`: pending operations are numbered in order
  of submission and belong to their instance). Every state of every run is such a world (`Origins.RunGrounded`).
- A fault-free reconcile (`Quiet`) is one in which every call is served and the operations on the instance succeed in
  order while the controller pauses. If an earlier deletion has taken the instance of the operation it waits for, that
  operation ends with arbitrary errors, or none.

## Where the code falls short of what its documentation says

- `README.md:39-40` says the finalizer ensures that GCE is cleaned up before the record goes. It does not always:
  `handleError` returns the error of the status write (`pkg/controller/gce.go:290-296`), so a failed deletion looks
  successful when that write succeeds. If the status changed, the version has moved on and the finalizer update
  conflicts. If the same text was there already, nothing changed, the update is accepted, and the instance stays without
  a record. `LeakIsReachable` builds such a run from the empty system, `SameRefusalTwiceLeaks` shows that the same
  refusal twice always does it, `SwallowedExactly` says when one reconcile does it and `LeaksExactly` when a run does.
- A secret left without its instance is never replaced: the next reconcile creates an instance with a new key and fails
  to store it, and all later ones find instance and secret and are content. Secret and instance agree exactly as long as
  that never happens (`AgreementExactly`), and no later reconcile mends it (`ReconcileOpensExactly`). The controller never
  brings it about by itself: it takes an instance that vanishes, or a name used again before the old secret is collected
  (`OverwritesExplained`). `DisagreementIsReachable` builds such a run from the empty system.
- The delays of R retries sum to 5 ms × (2^R - 1) only up to R = 18, where the queue's cap of 1000 seconds sets in
  (`TotalBackoffExact`). With 15 retries no delay is capped (`BackoffInRuns`).
- The time of the SSH attempts is bounded by retries × (timeout + delay) only if the timeout is positive: zero means no
  timeout at all (`TimeoutBoundsLoopExactly`).
- If a deletion of the instance is still in progress when a live record is reconciled (its record was let go and its
  name used again), refreshing the key is overtaken by the deletion: that reconcile ends with neither instance nor
  secret, and may still report success. The next one makes both (`OneReconcileCompletes`, `RunsRecover`).
- The boot disk names its type by path, the data disks by bare name (`pkg/controller/gce.go:148`, `156`); the model does
  the same.

## Model

| member | source | states |
|---|---|---|
| Protection.NoLeakedInstance | pkg/controller/controller.go:209-233 | in every fair run, at every state: each instance's record exists with the same uid and carries the finalizer, unless a removal for that very record passed the guards of the leaking path, and unless a failure to delete its instance was swallowed before |
| Protection.LeaksExactly | README.md:39-40 | a fair run keeps every instance covered if and only if no accepted removal passes all of these guards: deletion failed and swallowed, status as read already told of it, record unchanged since, instance present |
| Removals.RemovalExplained | pkg/controller/controller.go:216-228 | in every run, whoever strips finalizers or recreates records: whenever the finalizer update is accepted, the record is as this reconcile read it, and the instance is gone or the failure was swallowed with its text already in the status |
| Coverage.CoverageExactly | pkg/controller/controller.go:209-233 | every run keeps every instance covered by a guarded record if and only if none of three things happens: a removal passes the guards of the leaking path, a user strips the finalizer while the instance is there, or a worker makes an instance for a record that has lost its guard |
| Coverage.UncoveredIsExplained | pkg/controller/controller.go:209-233 | in every run, an instance without its guard lost it by one of those three with its very record |
| Coverage.ForsakesAfterSwallowing | pkg/controller/gce.go:290-296 | in every run, a removal passes the guards of the leaking path only after a failure to delete that record's instance was swallowed |
| Origins.RemovalPassesValidation | pkg/admission-controller/controller.go:106-139 | in every run, the controller's finalizer update is accepted exactly when its version is current: validation never refuses it |
| Origins.RunGrounded | pkg/admission-controller/controller.go:106-139 | in every state of every run, each stored record and each copy a worker acts on, outdated or not, belongs to its key and has the spec its uid was admitted with |
| Protection.RunSound | pkg/controller/controller.go:191-234 | the invariant of every reachable state: queue discipline, guarded records, ordered operations, and what each worker's copy and each awaited deletion are worth |
| Leaking.SwallowedExactly | pkg/controller/gce.go:290-296 | after a failed deletion the finalizer goes, with the instance untouched, if and only if the status already held the failure's text; otherwise a conflict is returned and the status is updated |
| Leaking.RefusedDeletionReports | pkg/controller/gce.go:97-107 | a reconcile whose delete request is refused comes, with nothing changed, to report exactly that refusal |
| Leaking.SameRefusalTwiceLeaks | pkg/controller/gce.go:97-107 | from any world, the same refusal in two successive reconciles always ends in success with the record released and the instance still there |
| LeakRun.LeakIsReachable | pkg/controller/controller.go:209-228 | some fair run from the empty system ends with an instance whose record is gone |
| Records.StatusWrite | pkg/controller/gce.go:290-296 | recording a failure makes a new version, and outdates the copy, exactly when the status does not say so already |
| Records.RemovalWrite | pkg/controller/controller.go:222-228 | the finalizer update releases the record exactly when it comes from the current version, and otherwise changes nothing |
| Records.CallKeepsHeld | pkg/controller/controller.go:199-234 | along a reconcile the copy first read stays good: the record, if it still has the copy's uid, is the copy unless its version moved on, and a swallowed failure is in the status or has made a new version |
| Machines.CallClears | pkg/controller/gce.go:77-108 | a worker gets to the removal only through a truthful lookup, a deletion that ended without errors, or a swallowed failure |
| Machines.ProceedKeeps | pkg/controller/gce.go:254-275 | a deletion being waited for removes the instance if it ends without errors, whatever other operations end before it |
| Agreement.FormatRoundTrip | pkg/controller/gce.go:196 | stripping the metadata's formatting recovers the public key |
| Agreement.OverwritingDisagrees | pkg/controller/gce.go:119-138 | creating an instance over its record's secret breaks their agreement, since keys are never generated twice |
| Agreement.AgreementExactly | pkg/controller/gce.go:189-252 | under unique names, whoever strips finalizers: a record's secret and instance agree throughout a run if and only if the instance is never created over the secret; refreshes, failed operations, lost answers and abandoned waits never break it |
| Stranding.OverwritesExplained | pkg/controller/gce.go:113-138 | under unique names, an instance is created over a secret only after it has vanished other than by an operation, or after its name was used again before the secret was collected |
| Stranding.UnstrandedAgree | pkg/controller/gce.go:189-252 | with unique names, instances removed only by operations, and secrets collected before a name is used again, secret and instance agree in every state, whatever fails, is lost or is abandoned |
| Disagreement.DisagreementIsReachable | pkg/controller/gce.go:119-138 | a fair run under unique names, from the empty system, in which the instance is lost once, ends with a secret that does not open it |
| Convergence.DrainSettles | pkg/controller/gce.go:254-275 | when the operations on an instance succeed in order, the last has its effect and reads as done if no deletion comes before it; else the instance is gone and the operation still pending |
| Convergence.OneReconcileCompletes | pkg/controller/gce.go:113-138 | from any world, after one fault-free reconcile of a live record instance and secret exist if and only if both did before or no deletion of the instance was in progress; it says exactly when an error is returned, what key each has, and that the record stays live |
| Convergence.CompleteIsStable | pkg/controller/gce.go:119-129 | with instance and secret there, a fault-free reconcile changes nothing and succeeds |
| Convergence.TwoReconcilesSucceed | pkg/controller/gce.go:189-252 | from any world, two fault-free reconciles of a live record make both exist, the second with success; a third changes nothing, and neither does the second if the first was enough |
| Convergence.ReconcileOpensExactly | pkg/controller/gce.go:234-249 | from any world, the secret's key opens the instance after one fault-free reconcile if and only if it did before, or there was neither secret nor deletion in progress; after two if and only if it did before or there was no secret |
| Repair.LiveIsNotErased | pkg/controller/controller.go:209-233 | in fair runs under unique names in which no instance of the name was forsaken, no deletion is in progress on a live record's instance, and one reconcile is enough |
| Repair.RunsRecover | pkg/controller/controller.go:232-233 | from every state of every run, two fault-free reconciles of a live record complete it with success and a third changes nothing; the first is enough if and only if no deletion was in progress or it was complete; with a new key the secret opens the instance in the end if and only if it did before or there was none |
| Repair.RunsCleanUp | pkg/controller/controller.go:209-230 | from every state of every run, the first fault-free reconcile of a deleted, guarded record removes the instance of its name, the second at the latest lets the record go, and a third changes nothing |
| Cleanup.OneReconcileDeletes | pkg/controller/controller.go:209-230 | from any world, the instance goes; the record is let go unless an earlier deletion overtook this one and its failure is news to the status, and then the reconcile ends in a conflict |
| Cleanup.TwoReconcilesRelease | pkg/controller/controller.go:209-230 | from any world, two fault-free reconciles remove the instance and let the record go with success, secrets untouched |
| QuietRun.QuietIsPossible | pkg/controller/controller.go:191-234 | in any state with a fresh key, a worker's reconcile can go on as the fault-free one does, by enabled steps that are its own calls or ends of operations |
| Scheduling.RunDisciplined | pkg/controller/controller.go:156-187 | in every reachable state the queue is consistent, the keys in processing are exactly those of the busy workers, one each, and failure counts are within the budget |
| Scheduling.MutualExclusion | pkg/controller/controller.go:149-154 | no key is in two reconciles at once, whatever the number of workers |
| Scheduling.NoLostWakeup | pkg/controller/controller.go:139-147 | after an enqueue, a reconcile of the key has started since, or the key waits in the queue, or is dirty while a worker has it |
| Scheduling.FirstComeFirstServed | vendor/k8s.io/client-go/util/workqueue/queue.go:120-142 | a key with p others before it is taken by exactly the next p + 1 starts |
| Scheduling.CounterCountsRetries | pkg/controller/controller.go:169-187 | the failure counter has risen by the number of rate-limited adds since failures were last forgotten, whatever plain adds came between |
| Scheduling.RetryBudget | pkg/controller/controller.go:33 | at most 15 rate-limited adds of a key between two times its failures are forgotten |
| Scheduling.DropsSixteenthFailure | pkg/controller/controller.go:178-186 | a failing reconcile is dropped if and only if 15 re-adds have been made since the start, the last restart, or the last time failures were forgotten |
| Scheduling.BackoffInRuns | pkg/controller/controller.go:28-33 | every backoff asked for in a run is uncapped and at most 5 ms × 2^14 |
| Scheduling.TurnIsHandled | pkg/controller/controller.go:161-166 | the steps that end an undisturbed turn leave the queue as handleErr followed by Done does, and after a panic as Done alone |
| WorkQueues.BackoffDoubles | vendor/k8s.io/client-go/util/workqueue/default_rate_limiters.go:89-108 | the backoff is 5 ms × 2^failures up to 17 failures, and 1000 seconds, which is less, after that |
| WorkQueues.TotalBackoffExact | pkg/controller/controller.go:28-33 | R delays sum to 5 ms × (2^R - 1) if and only if R is at most 18, and never to more |
| WorkQueues.ShutDownAddsNothing | vendor/k8s.io/client-go/util/workqueue/delaying_queue.go:144-149 | while shutting down an item is added neither now nor later |
| WorkQueues.DoneKeepsValid | vendor/k8s.io/client-go/util/workqueue/queue.go:144-155 | Done keeps the queue duplicate-free and queued exactly what is dirty and unprocessed |
| WorkQueues.GetKeepsValid | vendor/k8s.io/client-go/util/workqueue/queue.go:120-142 | Get keeps it too, and never hands out a key in processing |
| WorkQueues.WorkQueue.Add | vendor/k8s.io/client-go/util/workqueue/queue.go:87-107 | the queue's state becomes that of the specification's Add: nothing for a dirty item or when shutting down, no queueing while processing |
| WorkQueues.WorkQueue.Get | vendor/k8s.io/client-go/util/workqueue/queue.go:120-142 | the first item is handed out and moves from dirty to processing; none tells the worker to quit |
| WorkQueues.WorkQueue.Done | vendor/k8s.io/client-go/util/workqueue/queue.go:144-155 | the item leaves processing, and joins the queue again if it is dirty |
| WorkQueues.WorkQueue.ShutDown | vendor/k8s.io/client-go/util/workqueue/queue.go:160-165 | only the flag changes: queued items stay to be handed out |
| WorkQueues.WorkQueue.When | vendor/k8s.io/client-go/util/workqueue/default_rate_limiters.go:179-189 | the delay is one of the item's backoff and the bucket's delay and at least both; one more failure is counted |
| WorkQueues.WorkQueue.AddRateLimited | vendor/k8s.io/client-go/util/workqueue/delaying_queue.go:144-163 | one more failure, and the item is due at the earlier of its present and its new time |
| Keys.KeyRoundTrip | vendor/k8s.io/client-go/tools/cache/store.go:95-107 | what enqueue puts in the queue, reconcile splits into the same namespace and name |
| Keys.SplitKeyExact | vendor/k8s.io/client-go/tools/cache/store.go:95-107 | a key is understood if and only if it has at most one slash, as what stands before and after it |
| KeyQueues.QueuesAgree | pkg/controller/controller.go:139-187 | on names without slashes, adding, taking, error handling and Done do to the controller's queue of strings what the system's steps do to its queue of keys |
| Controllers.Controller.Enqueue | pkg/controller/controller.go:139-147 | the object's key is added as a string that splits into the key again |
| Conduct.HistoriesExactly | pkg/controller/controller.go:191-234 | the histories of the automaton are exactly those in which every call was due when it was sent; what is due is defined on the exchanges before it: which call, after which answers, with which contents |
| Conduct.ConductExact | pkg/controller/controller.go:191-234 | after every history exactly one call is due and it is the one sent, or none is and the result is exactly the one that the last answers call for, error texts included |
| Conduct.WaitsForLatest | pkg/controller/gce.go:254-275 | every pause and every poll is for the operation observed last, and so is the poll whose success releases a record |
| Conduct.DeletesWhatIsShown | pkg/controller/gce.go:83-98 | an instance is deleted only right after a lookup that showed it without an error, for a record being deleted |
| Conduct.FailedLookupEndsDeletion | pkg/controller/gce.go:83-90 | a deletion whose lookup fails other than by an API 404 ends there with that error, nothing more being sent |
| Conduct.CreatesExactly | pkg/controller/gce.go:119-137 | a live record gets a new instance if and only if the lookup shows none and succeeds, says 404, or fails with an error that is no API error |
| Conduct.FailedLookupEndsCreation | pkg/controller/gce.go:131-135 | a lookup that shows none and fails with any other API error ends the reconcile there with that error |
| Conduct.SecretHoldsKey | pkg/controller/gce.go:222-246 | every secret sent holds the private and public key generated in the same reconcile, each in its place, the uid read, and an SSH configuration, line by line, with the name and first address just shown |
| Conduct.StatusTellsFailure | pkg/controller/gce.go:290-296 | every status written follows a failure, has phase "error" and as message the prefix for deletion or for other operations and the failure's own text, and changes nothing else |
| Conduct.RequestOf | pkg/controller/gce.go:140-187 | the request sent is exactly the one described field by field in literals: machine type and disk paths, metadata, network, access configuration, disks |
| Conduct.KeyLineOf | pkg/controller/gce.go:196 | the metadata is the user, a colon, the key without its final newline if it has one, a blank and the user |
| Worlds.CallSentIsServed | pkg/controller/gce.go:39-75 | what a run does and answers at a position is what the API server and GCE, defined by the call they receive, do and answer on the call sent there |
| Outcomes.NilExactlyWhenJustified | pkg/controller/controller.go:191-234 | over all answers, reconcile returns nil if and only if its calls are one of: record absent; deleted and unguarded; finalizer removed right after a warrant; instance and secret both found; secret created after the instance was seen; failure written to the status |
| Controllers.Controller.Reconcile | pkg/controller/controller.go:191-234 | the method's calls are a run of the automaton ending in its result, every one of them due and the result the one due, nil exactly when justified; a key is uploaded only after connecting with that key to the address shown was tried; a malformed key is an error without calls |
| Controllers.Controller.ReconcileKey | pkg/controller/controller.go:199-234 | from reading the record on, every call made is the automaton's next |
| Controllers.Controller.RemoveFinalizer | pkg/controller/controller.go:221-229 | what is sent is the object as read, less the finalizer |
| Controllers.Controller.DeleteVM | pkg/controller/gce.go:77-108 | nil leads to the removal with one of the three warrants, anything else ends the reconcile |
| Controllers.Controller.EnsureVM | pkg/controller/gce.go:113-138 | follows the automaton from the lookup to the end, including creation after an error without a code |
| Controllers.Controller.RunVMOpPollSSH | pkg/controller/gce.go:189-210 | one new key, one operation with it, and then the report of a failure or the upload |
| Controllers.Controller.PublishKey | pkg/controller/gce.go:208-252 | the upload follows the second lookup whether SSH could be reached or not; an instance without an address ends in a panic |
| Controllers.Controller.UploadKey | pkg/controller/gce.go:221-252 | one secret is sent, under the record's name, with its uid, the private and the public key each in its place |
| Controllers.Controller.ConnectAndUpload | pkg/controller/gce.go:213-252 | the attempts to connect come first, to the first address shown, as cloud-user, with the private key; the upload follows whatever they come to |
| Controllers.NewInstance | pkg/controller/gce.go:163-185 | the request sent is the one the record's spec asks for, its disks described one by one |
| Controllers.BuildDisks | pkg/controller/gce.go:142-161 | the loop builds the boot disk followed by the spec's disks in order |
| Controllers.CheckOp | pkg/controller/gce.go:277-288 | a prior error comes first, then the operation's errors, joined |
| Protocol.JoinedExact | pkg/controller/gce.go:282-287 | joining keeps every message, in order, with a newline of its own |
| Controllers.Controller.WaitForOperation | pkg/controller/gce.go:254-275 | ends as the first terminal observation says, nil if and only if that is a success within the deadline, after at most 120 polls; never looks at the operation of a failed poll |
| Controllers.Controller.HandleError | pkg/controller/gce.go:290-296 | one status is sent: the object as read with phase "error" and the text as message; the object itself is unchanged and the result is that of the write |
| Controllers.Controller.PollForSSHConnection | pkg/controller/secrets.go:43-85 | connects if and only if the key parses and the first accepted attempt within the retries shakes hands; dials, sleeps and time are bounded |
| Controllers.Controller.HandleErr | pkg/controller/controller.go:169-187 | an error is retried if the key has failed fewer than 15 times, and forgotten otherwise, as after a success |
| Controllers.Controller.ProcessNextWorkItem | pkg/controller/controller.go:156-167 | one Get is paired with one Done after the error handling, which a panic skips |
| Waiting.EndIsFirstTerminal | pkg/controller/gce.go:262-274 | the loop's end is unique, and free of error if and only if some observation in time is a success after quiet ones only |
| Waiting.PollBudget | pkg/controller/gce.go:26-29 | however the service answers, at most 120 polls fit before the deadline |
| Waiting.PollsOnInTime | pkg/controller/gce.go:268-273 | a quiet check is followed by a poll if five seconds end before ten minutes are over, and by the timeout if they end after |
| Waiting.SpentBySilentHost | pkg/controller/secrets.go:59-80 | a host that accepts too late, if at all, is refused every time and costs exactly attempts × (timeout + delay), in seconds |
| Waiting.TimeoutBoundsLoopExactly | pkg/controller/secrets.go:55-80 | over all hosts, the attempts keep to retries × (timeout + delay) if and only if the timeout is positive |
| Waiting.SpentBounded | pkg/controller/secrets.go:59-80 | with a positive timeout, n refused attempts take at most n × (timeout + delay) |
| Frozen.SpecNeverChanges | pkg/admission-controller/controller.go:106-139 | between any two states of any run a record's spec keeps its meaning, nil and empty disk lists being the same |
| Frozen.InstanceMatchesRecord | pkg/controller/gce.go:140-187 | in every run, an instance whose record is there, guarded or not, was made by the request that record's spec asks for |
| Frozen.DisksExact | pkg/controller/gce.go:142-161 | 1 + n disks, boot first, sizes, images, types and order kept, all deleted automatically |
| Frozen.NoDiskLeftBehind | pkg/controller/gce.go:97-100 | in every run the disks in existence are exactly those of the instances in existence |
| Admission.SemanticEqualExact | vendor/k8s.io/apimachinery/third_party/forked/golang/reflect/deep_equal.go:158-176 | two specs compare equal if and only if they ask for the same machine |
| Admission.Validate | pkg/admission-controller/controller.go:106-139 | a status update is allowed; any other exactly if both objects decode and ask for the same machine; each refusal is given in full |
| Admission.Mutate | pkg/admission-controller/controller.go:141-175 | the patched object is the submitted one but for its finalizers: the submitted ones and ours, sorted, each once; an undecodable object is refused with its error |
| Admission.FinalizerListsExact | pkg/admission-controller/controller.go:149-152 | the webhook's and the controller's lists are the only sorted duplicate-free ones with the right elements |
| Admission.FinalizerRoundTrip | pkg/controller/controller.go:222-224 | inserting twice is inserting once, and removal undoes insertion up to order and duplicates |
| Admission.StrippedEmpty | pkg/controller/controller.go:222-225 | the removal leaves no finalizer if and only if nobody else had one |
| StringSets.LessExact | vendor/k8s.io/apimachinery/pkg/util/sets/string.go:201-203 | one string comes before another if and only if it is a proper prefix or smaller where they first differ |
| StringSets.SortedUnique | vendor/k8s.io/apimachinery/pkg/util/sets/string.go:168-175 | a sorted duplicate-free list is determined by its elements |
| StringSets.List | vendor/k8s.io/apimachinery/pkg/util/sets/string.go:168-175 | listing a set gives its elements sorted, each once, whatever the order of iteration |
| VirtualMachines.VirtualMachine.DeepCopyInto | pkg/apis/virtualmachines/v1alpha1/zz_generated.deepcopy.go:44-51 | equal value and nil-ness, and arrays of its own |
| VirtualMachines.VirtualMachine.DeepCopy | pkg/apis/virtualmachines/v1alpha1/zz_generated.deepcopy.go:54-61 | a new object of equal value that shares no part with any existing one |
| VirtualMachines.VirtualMachineSpec.DeepCopyInto | pkg/apis/virtualmachines/v1alpha1/zz_generated.deepcopy.go:138-147 | equal value, the disks copied to a new array, nil kept nil |
| VirtualMachines.VirtualMachineList.DeepCopyInto | pkg/apis/virtualmachines/v1alpha1/zz_generated.deepcopy.go:105-117 | as many items, equal in order, each with parts of its own that no other item and no existing object shares |
| Isolation.CallIsLocal | pkg/controller/gce.go:77-252 | a call changes only the record, secret, instance, operations and disks of its own name |
| Isolation.StepsCommute | pkg/controller/gce.go:77-252 | two steps that concern different names, be they calls, ends of operations or changes by users, garbage collection and GCE, can be swapped: same world, same answers |
| Isolation.InterleavingIsSequential | pkg/controller/controller.go:191-234 | any interleaving of two reconciles for different names, the ends of their operations and any other changes to the two names ends in the world, and the results, of everything about the first followed by everything about the second; and that order makes sense if the interleaving does |

## Left out

- HTTP, TLS, JSON and the patch format of the webhooks: a request carries the decoded object or the decoder's error, and
  `mutate` yields the object that its patch produces. The failures of serializing and of patch generation are not modelled.
- Key generation, PEM and SSH encodings, dialling and the SSH handshake: fresh key pairs and streams of outcomes and times.
- The GCE client wrappers, clientsets, listers and informers; an event or a resync is a `Notify` of any key at any time.
- `add`, `update`, `delete` and the tombstones of `delete`: all of them only enqueue the object's key.
- Logging, event recording, metrics, flags, configuration and `main`; the labels, annotations and owner references of records.
- Secrets keep the uid of their owner; that the garbage collector removes them with it is an environment step
  (`CollectSecret`), as is any other removal of a secret.
- Blocking in `Get`, the condition variable, the delaying queue's heap and channel, and the token bucket, whose delay is
  a parameter.
- `Run` and the worker loop; shutting the queue down is a method of `WorkQueue` but not a step of `Systems`.
- The text of a timeout names the elapsed time; in the model it is any text.
- Sizes of disks are unbounded integers, since the code only passes them on.
- Items of a list are separate objects in the model; in the source they are values in one slice.
- Controllers.Controller.ProcessNextWorkItem: states a turn that no other worker and no event disturbs; the interleaved
  steps of a turn are those of `Systems`, and `Scheduling.TurnIsHandled` says that they add up to the same.
- Protection.NoLeakedInstance: a forsaken instance may still vanish, or get its guard back from a user who puts the
  finalizer back on a record others still hold; exact are `Protection.LeaksExactly` for runs and
  `Leaking.SwallowedExactly` for a call.
