# Kubernetes identity federation: a verified model

The system gives pods of a Kubernetes cluster cloud credentials. Users write CloudRoleBindings; a
webhook merges the bindings of each ServiceAccount into one resolved object with a hash, and injects
an agent, the role and the hash into new pods; the agent mints tokens from a federation service,
which compares the hash, and keeps a token file fresh; an issuer publishes the key the tokens are
signed with. This project models those parts and proves what they promise together.

The parts, and the modules that model them:

- **Merging.** `Merge` has the loop with its four accumulators and early returns, proved against a
  function of the first n bindings; `MergeTheorems` says what it means without any order, and
  `MergeMeaning` in the fields of the bindings alone. `Json` and `Encoding` have the text that is hashed
  and a reader of it, `Build` the objects and statuses a merge leads to.
- **Controller.** `Queue` and `Reconcile` are the imperative code of the queue and of one reconcile.
  `Controller` is the step machine: a watcher, a locked set of keys in flight, a bounded channel, any
  number of workers with program counters, and the API server (`ApiServer`); every lock operation,
  channel operation and call is one step, any call may fail, users edit at any time. `Ownership`,
  `Convergence`, `Invariant` and `Results` prove what every run keeps, `Progress` that runs drain,
  `Effects` says field by field what a reconcile leaves behind, and
  `Solo` that an undisturbed worker does what the code of one reconcile does, `Dropped` when dropped
  events, errors and moves do harm, `Statuses` what users read, and `Witnesses` builds runs on which the
  stronger claims fail.
- **Admission and minting.** `Injection` and `Mutate` (pods as values, and the in-place edits),
  `MutatedPod` (the volumes, mounts and variables that come of it), `Admission`, `Username`, `Mint`, and
  `Coherence`, which goes from admission to token.
- **Agent.** `AgentTiming` (real time) and `AgentFiles` (single file-system calls).
- **Keys.** `Signing` (startups cut off anywhere) and `Issuer` (the last good key set).

Assumptions, each a parameter or a hypothesis of the theorems that need it: one webhook process; no
task panics; nobody but the controller writes or deletes resolved objects, and the ones a restart
finds were written by earlier processes of it; one startup of the federation service at a time; a hash
function without collisions (`Build.CollisionFree`); one clock for the agent and the federation
service; sane encodings (`Signing.Sane`). Hashing, signing, token review, RSA, UTF-8 decoding and the
clock are parameters.

## What the proofs found

- An event that arrives while its key is in flight is dropped. If the worker has listed already and
  nothing lists or edits the key again, the change is lost exactly when the bindings merge differently
  from the worker's listing (`Dropped.DroppedEvent`, with a run for any two versions of a binding in
  `Witnesses.LostUpdate`). A reconcile that fails is not repeated (`Witnesses.FailedReconcile`), and a
  binding that moves to another account leaves its merge behind (`Witnesses.MovedAway`). In all these
  cases the last listing that got as far as the spec decides: a key is up to date exactly when that and
  the present bindings merge alike (`Dropped.LastPatchDecides`). The book-keeping set `missed` of the
  machine covers all such keys; for every other key the whole stored object becomes the one built from
  the present bindings (`Results.QuietMeansConverged`).
- The statuses of the bindings then follow from the same merge (`Statuses.QuietMeansTold`), as long as
  bindings keep their accounts and no name is used again after a deletion; a binding that is deleted and
  created again while its key is worked on can be left without a status (`Witnesses.CreatedAgain`).
- From the first patch of an object to the second, and for good if the second fails, the spec is that of
  one build and the status that of another. The object is whole exactly when both merged to the same
  spec (`Results.WholeExactly`), which is to say that the first patch changed nothing of it
  (`Results.TornExactly`). A pod admitted then gets the role of one merge and the hash of the other
  (`Coherence.MixedExactly`), and admission fails for want of an AWS block exactly when the status is
  of bindings that could be merged and the spec of some that cannot (`Admission.AwsMissingExactly`).
- A status write causes an event for the account it belongs to, so the controller can keep itself
  busy for ever without any edit (`Witnesses.SelfSustaining`).
- With the default settings a token is always replaced in time over six failures in a row, if sleeps
  overrun by at most 39/7 seconds, but never over seven: a token's times are whole seconds, rounded down
  (`AgentTiming.DefaultsSurviveSix`).
- `upsert_env` rewrites the first entry of a name, while the last one counts. A container that gives one
  of the variables twice keeps its own last value (`Injection.InjectionTakesEffect`), so that a pod can
  be admitted with one role and run with another (`Coherence.OwnRoleKept`). Only the name of a mount is
  looked at before the token's is added:
  a container that mounts a volume called `kif-aws` elsewhere does not find its token
  (`Injection.InjectedSeesToken`), and one that mounts another volume at `/var/run/kif/aws` ends up with
  two mounts at that path, which Kubernetes refuses (`Injection.PathsStayDistinct`).
- After the last binding of an account is deleted its resolved object stays, not ready, so that new
  pods of the account meet the failure mode and are not admitted unchanged
  (`Admission.SettledAdmission`).
- The repository's own README calls the lenient failure mode `Skip` and says that in `Fail` mode pods
  without a valid resolved object are denied. The code calls it `Ignore`, and admits a pod unchanged
  if there is no resolved object at all. The model follows the code.

## Model

| member | source | states |
|---|---|---|
| Merge.MergeInputs | app/crates/kif-webhook/src/merge.rs:223-331 | The loop returns the fault of the first faulty binding, or the combination of everything the bindings contribute |
| Merge.AddExtra | app/crates/kif-webhook/src/merge.rs:287-302 | The inner loop over a sorted map: the least key already taken, or the union |
| MergeTheorems.SucceedsIffMergeable | app/crates/kif-webhook/src/merge.rs:235-315 | A merge succeeds exactly when all inputs have a provider block, one sets AWS, and any two occurrences are compatible: not both AWS, equal flags, disjoint extra keys |
| MergeTheorems.ResultIsMerge | app/crates/kif-webhook/src/merge.rs:317-330 | The result is the AWS block, the agreed flag or true, and the union of the extra maps, absent when empty |
| MergeTheorems.MergeUnique | app/crates/kif-webhook/src/merge.rs:317-330 | A bag of bindings has at most one such merge |
| MergeTheorems.OrderIndependent | app/crates/kif-webhook/src/merge.rs:41-45 | Any permutation of the inputs succeeds or fails alike, with an equal spec and an equal observed generation |
| MergeTheorems.FailureJustified | app/crates/kif-webhook/src/merge.rs:235-315 | A failure reports the first binding that does not fit, all earlier ones being mutually consistent, with the right type, reason, message and names; if every binding fits, it reports the missing AWS block and blames all |
| MergeMeaning.SucceedsExactly | app/crates/kif-webhook/src/merge.rs:235-315 | In the fields alone: a merge succeeds exactly if every binding has a provider block, one has an AWS block, and no two both have that, give opposite flags or give one key |
| MergeMeaning.ResultMerges | app/crates/kif-webhook/src/merge.rs:317-330 | The result has the one AWS block, the flag false exactly if a binding says so, and just the extra entries that the bindings give |
| MergeMeaning.FailsExactly | app/crates/kif-webhook/src/merge.rs:235-315 | The first binding that does not fit decides type, reason, message and blame: its missing block, or else a second AWS block, or else an opposite flag, or else the least repeated key |
| MergeMeaning.NoneConfiguredMeans | app/crates/kif-webhook/src/merge.rs:307-315 | The final failure is an invalid spec that failed validation, and blames exactly the names of the inputs |
| MergeTheorems.BlamedAreInputs | app/crates/kif-webhook/src/merge.rs:253-300 | Every non-empty blamed name is the name of an input |
| MergeTheorems.FailureStable | app/crates/kif-webhook/src/merge.rs:235-304 | Appending bindings to inputs that fail keeps type, reason and message, but for the final error |
| MergeTheorems.ReportedClash | app/crates/kif-webhook/src/merge.rs:235-315 | Whatever fault is reported is true of the bag of inputs, in whatever order they come |
| MergeTheorems.BlameOrderFree | app/crates/kif-webhook/src/merge.rs:235-315 | If only one thing is wrong with the bag, every order reports it |
| MergeTheorems.FirstMissingBlamed | app/crates/kif-webhook/src/merge.rs:242-249 | Of two bindings without a provider block the first is blamed |
| MergeTheorems.FirstKindReported | app/crates/kif-webhook/src/merge.rs:242-262 | Of two kinds of fault in a bag the order decides which is reported |
| MergeTheorems.StatusesIgnored | app/crates/kif-webhook/src/merge.rs:223-331 | Statuses of the inputs never matter to a merge |
| Json.TextRead | app/crates/kif-webhook/src/merge.rs:36-36 | The JSON text of a value is read back as that value, by the rules of RFC 8259 for strings (section 7), numbers and objects |
| Json.EscapeCanonical | app/crates/kif-webhook/src/merge.rs:36-36 | Only what has to be is escaped, by two characters where there is such an escape, else by six in lower case |
| Json.TextInjective | app/crates/kif-webhook/src/merge.rs:36-36 | Equal JSON texts come from equal values |
| Encoding.RoundTrip | app/crates/kif-api/src/crds.rs:52-103 | Decoding the text of a spec, field by field under the declared names and in their order, gives the spec back, whatever options and providers are set |
| Encoding.EncodeInjective | app/crates/kif-api/src/crds.rs:52-103 | Two specs with the same text are equal |
| Ordered.SortedIsSorted | app/crates/kif-webhook/src/merge.rs:233-233 | The key order of a sorted map visits every key once, in increasing order |
| Ordered.LessMeans | app/crates/kif-webhook/src/merge.rs:233-233 | The order of keys is the lexicographic one: a common beginning, then the end or a smaller character |
| Build.BuiltCoherent | app/crates/kif-webhook/src/merge.rs:28-115 | What a merge builds is ready with the hash of its own spec and an AWS block, or not ready with neither hash nor providers; ready exactly when the inputs can be merged |
| Build.BuiltSpecOrderFree | app/crates/kif-webhook/src/merge.rs:223-331 | The spec built depends on the bag of bindings only, and not on their statuses |
| Build.SummaryTells | app/crates/kif-webhook/src/merge.rs:208-219 | A summary names exactly the providers that are set, and two summaries are equal exactly when the same ones are |
| Build.PartsExactly | app/crates/kif-webhook/src/merge.rs:342-354 | The spec of one build under the status of another is what one build makes, and is coherent, exactly when both merged to the same spec |
| Build.BuildCrbStatus | app/crates/kif-webhook/src/merge.rs:117-206 | The conditions pushed one by one are those of the status function |
| Build.StatusMeans | app/crates/kif-webhook/src/merge.rs:127-205 | A status says Ready exactly when there is no issue, has pairwise distinct condition types, and tells the issue's type and reason |
| ApiServer.ListingIsCurrent | app/crates/kif-webhook/src/reconcile.rs:102-106 | A fresh listing in any order, filtered, holds exactly the bindings of the account |
| ApiServer.CurrentSameBag | app/crates/kif-webhook/src/reconcile.rs:102-106 | Two up-to-date listings are the same bag of bindings, statuses aside |
| ApiServer.StatusWriteKeepsCurrent | app/crates/kif-webhook/src/reconcile.rs:127-129 | A status write leaves every listing as up to date as it was |
| Queue.Queue.Enqueue | app/crates/kif-webhook/src/queue.rs:27-39 | A key is dropped, sent, waiting for room, or given back when the receiver is gone, with the exact new contents |
| Queue.Queue.TryInsert | app/crates/kif-webhook/src/queue.rs:28-34 | The section under the lock inserts a key that is not there |
| Queue.Queue.Send | app/crates/kif-webhook/src/queue.rs:36-38 | The send appends the key, waits, or removes it from the set |
| Queue.Queue.Done | app/crates/kif-webhook/src/queue.rs:41-44 | The key leaves the set, and nothing else changes |
| Reconcile.ReconcileKey | app/crates/kif-webhook/src/reconcile.rs:96-163 | One reconcile, with the server failing any one call, leaves the specified store and returns the specified outcome |
| Reconcile.WriteStatuses | app/crates/kif-webhook/src/reconcile.rs:117-151 | The loops write the specified statuses in order up to the first failure |
| Reconcile.Server.UpsertResolved | app/crates/kif-webhook/src/merge.rs:333-357 | Two patches, the second only after the first, an empty name refused |
| Reconcile.ReconcileMeans | app/crates/kif-webhook/src/reconcile.rs:103-160 | A reconcile that goes well marks every named binding of the account, or after a failure exactly the blamed ones; no other binding, no spec and no other resolved object changes; the object stored is the one built |
| Reconcile.ReconcileIdempotent | app/crates/kif-webhook/src/reconcile.rs:96-163 | Repeating it with unchanged specs and generations, from a listing in the same order, changes nothing, timestamps aside |
| Reconcile.ReconcileReordered | app/crates/kif-webhook/src/reconcile.rs:96-163 | From a listing in any order, when the bindings can be merged, it changes no binding, and the resolved object only in the order of its sources |
| Reconcile.StatusAfter | app/crates/kif-webhook/src/reconcile.rs:117-151 | The status of any one binding after all writes |
| Effects.SelectPicks | app/crates/kif-webhook/src/reconcile.rs:103-106 | The bindings of an account are picked from a listing one by one, in its order |
| Effects.BuiltRecords | app/crates/kif-webhook/src/merge.rs:28-115 | The object built has one source a binding, the largest generation or 0, and either the merged spec with its hash and no error, or no providers, no hash and the error with its reason and message |
| Effects.StatusMarks | app/crates/kif-webhook/src/merge.rs:117-206 | The status a binding gets: ready without error after a merge, or the type, reason and message of the error if it is blamed, with its own generation and providers; none without a name or blame |
| Effects.ReconcileLeaves | app/crates/kif-webhook/src/reconcile.rs:96-163 | After a reconcile that goes well each binding of the account is marked so, no other binding and no spec changes, the object of the account records the merge, and no other object changes |
| Effects.EndsWellExactly | app/crates/kif-webhook/src/reconcile.rs:96-163 | It goes well exactly if the account has a name and the server answers the listing, a write for each binding that is marked, and two patches |
| Solo.SoloReconcile | app/crates/kif-webhook/src/reconcile.rs:96-163 | A worker of the step machine that is not interleaved leaves, by steps of its own alone, the store that the code of one reconcile leaves, for every call that may fail, and its key is missed exactly if that returns an error |
| Ownership.StepOwned | app/crates/kif-webhook/src/queue.rs:27-45 | Every step keeps: a key in flight is held exactly once by the watcher, the channel or a worker, any other key by nobody |
| Ownership.StepLockHeld | app/crates/kif-webhook/src/queue.rs:28-34 | Every step keeps: the lock is held exactly by the task inside its section |
| Ownership.StepOneReceiver | app/crates/kif-webhook/src/reconcile.rs:64-67 | Every step keeps: at most one worker waits on the shared receiver |
| Ownership.Exclusive | app/crates/kif-webhook/src/reconcile.rs:56-84 | No two workers hold the same key, and a key in a worker's hands is neither in the channel nor with the watcher |
| Ownership.SomeoneHolds | app/crates/kif-webhook/src/queue.rs:27-45 | A key in flight is with the watcher, in the channel or with a worker |
| Ownership.ChannelDistinct | app/crates/kif-webhook/src/queue.rs:28-36 | No key is in the channel twice |
| Ownership.InFlightBounded | app/crates/kif-webhook/src/queue.rs:18-25 | The set of keys in flight has at most buffer + workers + 1 elements |
| Invariant.StepKeeps | app/crates/kif-webhook/src/reconcile.rs:22-163 | Every step of every task, every edit and every failing call keeps the whole invariant |
| Invariant.InitKeeps | app/crates/kif-webhook/src/reconcile.rs:35-40 | A start, or a restart over the objects an earlier process left, meets it |
| Invariant.ReachableInv | app/crates/kif-webhook/src/reconcile.rs:22-163 | It holds in every reachable state |
| Results.AlwaysCovered | app/crates/kif-webhook/src/reconcile.rs:28-45 | In every reachable state the stored object of each key is built from its present bindings, or the key has an event or a list call to come, is worked on from its present bindings, or is booked as missed |
| Results.QuietMeansConverged | app/crates/kif-webhook/src/reconcile.rs:96-163 | In a quiet reachable state nothing is in flight, and for every key not booked as missed the whole stored object, error, conditions, sources and generation included, is built from its present bindings, ready exactly when they can be merged |
| Results.TwoPatchesAtomic | app/crates/kif-webhook/src/merge.rs:333-357 | The stored object is what one build made, in all its parts, whenever nobody is between the two patches and none failed there; ready exactly when a hash is present holds even in between |
| Results.WholeExactly | app/crates/kif-webhook/src/merge.rs:342-354 | In every reachable state an object has the spec of one build and the status of another, and is whole exactly when both merged to the same spec |
| Results.FirstPatchWholeExactly | app/crates/kif-webhook/src/merge.rs:342-347 | The first patch of a whole object leaves a whole one exactly when the object is there and its spec does not change |
| Results.TornExactly | app/crates/kif-webhook/src/merge.rs:342-354 | From the first patch of an object on, over any steps of other tasks and any edits, it is whole exactly under that condition on the state before the patch |
| Results.LeftTornExactly | app/crates/kif-webhook/src/merge.rs:349-354 | If the second patch then fails, the object left behind is whole exactly under that condition |
| Dropped.ListedOnce | app/crates/kif-webhook/src/reconcile.rs:102-160 | A key that is listed once, by a reconcile that does not fail, ends with the object built from that listing, and its spec is up to date exactly when listing and present bindings merge alike |
| Dropped.DroppedEvent | app/crates/kif-webhook/src/queue.rs:30-32 | An event dropped after the list call, of a key then neither listed again nor edited, is lost exactly when the bindings at that moment merge differently from the listing |
| Dropped.UnpatchedDecides | app/crates/kif-webhook/src/reconcile.rs:96-163 | Over any run that does not write a key's spec, errors, drops and moves included, the key ends up to date exactly when the spec stored at the start is the merge of the bindings in the end |
| Dropped.LastPatchDecides | app/crates/kif-webhook/src/merge.rs:342-347 | Over any run after a patch of the spec, up to the next one, exactly when the listing it was made from and the bindings in the end merge alike |
| Dropped.MissedExactly | app/crates/kif-webhook/src/reconcile.rs:69-81 | The book-keeping books a key exactly for news dropped while a worker is past an older listing, for a binding that moves away, or for a call for it that fails, and strikes it off at the next listing |
| Statuses.StepShows | app/crates/kif-webhook/src/reconcile.rs:117-151 | Every step keeps: what a worker has written of its listing is what those bindings show, and a settled key shows the statuses of one listing |
| Statuses.QuietMeansTold | app/crates/kif-webhook/src/reconcile.rs:117-160 | In a quiet state of a run in which bindings keep their accounts and names are not used again, a key not missed has an object that records a listing of its present bindings, and every binding with a name is marked ready if they merge, else every blamed one is marked with the error |
| Results.OneWorkerPerKey | app/crates/kif-webhook/src/reconcile.rs:56-84 | A key is reconciled by one worker at a time and is in flight meanwhile; the set in flight is bounded |
| Progress.NeverStuck | app/crates/kif-webhook/src/queue.rs:28-44 | Unless everything is quiet some task has a step, one in which the server fails no call |
| Progress.RunBounded | app/crates/kif-webhook/src/reconcile.rs:64-84 | The length of any run without edits is bounded by a measure of its first state plus the events its own status writes cause |
| Progress.Drains | app/crates/kif-webhook/src/reconcile.rs:64-84 | That bound again, and a run without edits that cannot be prolonged by steps in which the server answers ends with an empty channel and nothing in flight |
| Progress.NoCharge | app/crates/kif-webhook/src/reconcile.rs:64-84 | A run whose status writes cause no event is bounded by its first state alone |
| Witnesses.LostUpdate | app/crates/kif-webhook/src/queue.rs:30-32 | For any two versions of a binding there is a reachable quiet state that stores the old merge while the new version is there; it is out of date exactly if they merge differently |
| Witnesses.FailedReconcile | app/crates/kif-webhook/src/reconcile.rs:74-82 | For any two versions of a binding there is a reachable quiet state in which the list call for the second failed and the merge of the first is stored, out of date exactly if they merge differently |
| Witnesses.MovedAway | app/crates/kif-webhook/src/reconcile.rs:28-45 | For a binding that moves there is a reachable quiet state in which the old account still has its merge, out of date exactly if that could be merged, and the new account is up to date |
| Witnesses.CreatedAgain | app/crates/kif-webhook/src/queue.rs:30-32 | A binding deleted and created again can end without a status in a quiet, converged state in which nothing was missed |
| Witnesses.PatchReady | app/crates/kif-webhook/src/merge.rs:342-347 | For any earlier build and any binding there is a reachable state with a worker about to write its first patch over that build |
| Witnesses.HalfUpserted | app/crates/kif-webhook/src/merge.rs:342-354 | For any earlier build and any binding there is a reachable state with the spec of the new build and the status of the earlier one, whole exactly if both merged alike |
| Witnesses.TornForGood | app/crates/kif-webhook/src/reconcile.rs:74-82 | After a failed status patch it stays that way with nothing under way, whole exactly if both merged alike |
| Witnesses.SelfSustaining | app/crates/kif-webhook/src/reconcile.rs:35-45 | From a reachable converged state the controller's own steps lead back to it, with no edit |
| Injection.InjectionOverrides | app/crates/kif-webhook/src/mutate.rs:253-279 | Looked up by first entry, the environment after injection is the old one overridden by the AWS entries |
| Injection.InjectionKeeps | app/crates/kif-webhook/src/mutate.rs:268-279 | Distinct names stay distinct, prior entries keep their order, entries not overridden are untouched |
| Injection.InjectionIdempotent | app/crates/kif-webhook/src/mutate.rs:268-279 | Injecting twice is injecting once |
| Injection.ContainerIdempotent | app/crates/kif-webhook/src/mutate.rs:229-266 | The same for a whole container with its mounts |
| Injection.RewritesFirstOnly | app/crates/kif-webhook/src/mutate.rs:268-273 | The value that counts afterwards is the one written if the name occurred at most once, and else still the last one; so the written one exactly in the first case or if that was it already |
| Injection.EntriesTakeEffect | app/crates/kif-webhook/src/mutate.rs:268-279 | The same for each of a list of entries upserted one after the other |
| Injection.InjectionTakesEffect | app/crates/kif-webhook/src/mutate.rs:253-263 | The same for every variable injected into a container |
| Injection.RoleInjected | app/crates/kif-webhook/src/mutate.rs:253-253 | A container runs with the role exactly when it gave the variable at most once, or last with that role |
| Injection.InjectedSeesToken | app/crates/kif-webhook/src/mutate.rs:244-254 | A container has the token's volume, and nothing else, where the environment that counts points, exactly when it used neither the mount's name nor its path, or had just that mount there, and gave the variable at most once, or last with that value |
| Injection.PathsStayDistinct | app/crates/kif-webhook/src/mutate.rs:244-251 | The mutated pod has distinct mount paths exactly when the pod had, and no injected container mounts a volume of another name at the token's path |
| Injection.MutationWellFormed | app/crates/kif-webhook/src/mutate.rs:36-149 | Volume names stay distinct and every mount names a volume, if they did before |
| Injection.MutationReaches | app/crates/kif-webhook/src/mutate.rs:36-149 | Without names of the webhook's own and without mounts at the token's path, every container is kept in order and injected, finds its token and has the role exactly if its own variables leave them be, as with distinct names; the agent comes first |
| MutatedPod.MutationRewrites | app/crates/kif-webhook/src/mutate.rs:36-266 | A pod that uses none of the names gets no default token, a projected token and an empty directory; the agent mounts the one read-only and the other writable and has account, hash, address and port; every container mounts the directory read-only and has role, token file, region and endpoints as asked for, its other variables and mounts unchanged |
| Injection.BlankExactly | app/crates/kif-webhook/src/mutate.rs:230-232 | A role or token counts as missing exactly if it has none but Unicode white space |
| Mutate.ContainerObject.UpsertEnv | app/crates/kif-webhook/src/mutate.rs:268-279 | The in-place search and update is the function on lists |
| Mutate.ContainerObject.InjectAws | app/crates/kif-webhook/src/mutate.rs:229-266 | The in-place edit of a container is the injection, and nothing happens if the role is blank |
| Mutate.PodObject.EnsureVolume | app/crates/kif-webhook/src/mutate.rs:80-149 | A volume is added unless the name is taken |
| Mutate.InjectEach | app/crates/kif-webhook/src/mutate.rs:64-75 | The loop injects into every container but agents, and fails exactly when there is one to inject into and the role is blank |
| Mutate.BuildPodPatch | app/crates/kif-webhook/src/mutate.rs:26-78 | The edits of the pod in place give the mutated pod, or the error for a missing spec or a blank role, exactly when |
| Mutate.PatchedCopy | app/crates/kif-webhook/src/mutate.rs:26-78 | The same for a pod passed by value |
| Admission.Handle | app/crates/kif-webhook/src/admission.rs:24-106 | The handler's response, its error and its event are those decided for the request and the stored objects |
| Admission.AnsweredExactly | app/crates/kif-webhook/src/admission.rs:36-106 | The answer to a fresh pod of account sa in namespace n, "default" where not given: unchanged without an entry for them, the failure mode if that is not ready, an error without hash, AWS block, pod spec or role, else the pod rewritten from that entry |
| Admission.OthersIgnored | app/crates/kif-webhook/src/admission.rs:54-55 | No other entry plays a part |
| Admission.NotAsked | app/crates/kif-webhook/src/admission.rs:33-46 | Anything but a creation, and a pod with an agent, is admitted unchanged; a creation without a pod is an error |
| Admission.SecondAdmission | app/crates/kif-webhook/src/admission.rs:42-46 | A patched pod is admitted without a patch the next time, whatever else has changed |
| Admission.PatchedFrom | app/crates/kif-webhook/src/admission.rs:68-104 | A patch comes from a ready object that has a hash and an AWS block |
| Admission.DeniedExactly | app/crates/kif-webhook/src/admission.rs:68-148 | A pod is refused exactly in Fail mode, and an event emitted exactly in Ignore mode, when the pod is fresh and the object of its account not ready |
| Admission.NeverWithoutHash | app/crates/kif-webhook/src/admission.rs:78-90 | Over reachable states the missing-hash error never occurs, and the missing-AWS error only while the two patches of the account are apart |
| Admission.AwsMissingExactly | app/crates/kif-webhook/src/admission.rs:85-90 | In every reachable state it occurs exactly for a fresh pod when the status is of bindings that could be merged and the spec of bindings that cannot |
| Admission.AwsMissingAfterPatch | app/crates/kif-webhook/src/admission.rs:85-90 | After the first patch: exactly if the object was ready and the listing cannot be merged |
| Admission.AwsCanBeMissing | app/crates/kif-webhook/src/admission.rs:85-90 | A reachable state in which it does occur |
| Admission.SettledAdmission | app/crates/kif-webhook/src/admission.rs:54-104 | In a settled state the answer for a fresh pod is determined by the present bindings of its account |
| Username.ParseInvertsPrint | app/crates/kif-federation/src/k8s.rs:53-67 | Parsing returns two names exactly when both are non-empty and free of colons and the input is their printed form, or that followed by a colon and more |
| Username.ParseFails | app/crates/kif-federation/src/k8s.rs:53-67 | It returns nothing exactly when no two such names exist |
| Username.PrintInjective | app/crates/kif-federation/src/k8s.rs:54-54 | One user name is the name of one account |
| Mint.OthersRefused | app/crates/kif-federation/src/http.rs:53-95 | 401 exactly without a reviewed token of some account, 403 exactly for a reviewed token of another account |
| Mint.CallerServed | app/crates/kif-federation/src/http.rs:97-113 | A caller of the account itself is answered over the stored object, or with 404 |
| Mint.MintedExactly | app/crates/kif-federation/src/http.rs:97-187 | A token is given exactly to a caller of the account, when its object has an AWS block and the hash the caller sent and signing works; it is signed over claims with the issuer, the reviewed user, the audience, lifetime, pod and attributes that the stored spec says |
| Mint.ClaimsUnique | app/crates/kif-federation/src/jwt.rs:47-91 | Those claims are just the ones built: issuer, subject, audience with its default, times, pod and attributes |
| Mint.AnswersExactly | app/crates/kif-federation/src/http.rs:115-178 | The code over any object: 400 without an AWS block, 409 for another hash than the caller's, 200 exactly with the same hash and a signature, else 500 |
| Mint.AnswersOver | app/crates/kif-federation/src/http.rs:115-178 | 400, 409, 200 and 500 told apart by the object |
| Mint.ExpiryExactly | app/crates/kif-federation/src/jwt.rs:64-65 | A token expires its lifetime after issue exactly when that fits into 64 bits, and before issue otherwise |
| Mint.ClaimsTell | app/crates/kif-federation/src/jwt.rs:67-78 | The pod is named exactly with provenance on, the attributes are those of the spec, the part is left out only when empty |
| Mint.MergedClaims | app/crates/kif-federation/src/http.rs:146-166 | Over a merge the token names the pod unless a binding says no, its attributes are just those of the bindings, and audience and lifetime those of the one AWS block |
| Mint.SettledMint | app/crates/kif-federation/src/http.rs:97-187 | In a settled state the answer to a caller of the account is determined by its present bindings and the hash sent |
| Coherence.OneSpecOver | app/crates/kif-webhook/src/admission.rs:78-101 | A pod admitted over one coherent store and a token minted for its agent over another come from one spec: all containers run with its role exactly if the pod's own variables let them, and it gives the lifetime and the claims of the token |
| Coherence.OneSpec | app/crates/kif-federation/src/http.rs:120-166 | The same for any two reachable states in which nobody is between the two patches of the account and none failed there |
| Coherence.OneSpecApplies | app/crates/kif-federation/src/http.rs:97-187 | For every fresh pod of an account with one mergeable binding there are a reachable state, an admitted pod and a minted token to which this applies |
| Coherence.MutatedRunsAs | app/crates/kif-webhook/src/mutate.rs:63-75 | All injected containers of a mutated pod run with the role exactly when none of them gives the variable twice, unless last with that role |
| Coherence.OwnRoleKept | app/crates/kif-webhook/src/mutate.rs:268-273 | A pod that gives the variable twice runs with its own last role |
| Coherence.ConflictExactlyWhenChanged | app/crates/kif-federation/src/http.rs:135-144 | The agent is told of a conflict exactly when the merge has changed since its pod was admitted |
| Coherence.MixedExactly | app/crates/kif-webhook/src/admission.rs:78-101 | A pod admitted over the spec of one build and the status of another gets the role of the one, as far as its variables let it, and the hash of the other, and they go together exactly when both merged alike |
| Coherence.AdmittedExactly | app/crates/kif-webhook/src/admission.rs:78-101 | In every reachable state the role and the hash of an admitted pod go together exactly when the object is from one build |
| Coherence.MixedAdmission | app/crates/kif-webhook/src/merge.rs:342-354 | For any two mergeable bindings a pod gets, in some reachable state, the role of the second, as far as its variables let it, and the hash of the first, a mismatch exactly if they merge differently |
| AgentTiming.SleepKeepsSkew | app/crates/kif-agent/src/main.rs:147-159 | A sleep lasts until skew and jitter before expiry but no shorter than the minimum, and so ends the skew before expiry for every jitter exactly when the lifetime is at least the skew and the minimum |
| AgentTiming.SleepSpares | app/crates/kif-agent/src/main.rs:147-151 | How long before expiry every sleep is over, for all lifetimes from a given one on, and that this is exact |
| AgentTiming.FreshExactly | app/crates/kif-agent/src/main.rs:77-151 | Every run with lifetimes from low on and at most k failures in a row replaces each token in time exactly when 2T + lag + k(T + min + lag) + 1 is at most the skew, or, if low is below skew + min, at most low - min |
| AgentTiming.DelayAddsUp | app/crates/kif-agent/src/main.rs:77-142 | The closed form of that delay |
| AgentTiming.FreshOnWholeSeconds | app/crates/kif-federation/src/jwt.rs:64-65 | Without the lost second the bound needs no extra second |
| AgentTiming.DefaultsSurviveSix | app/crates/kif-agent/src/config.rs:52-65 | With the defaults and lifetimes of at least 330 seconds every run survives six failures in a row exactly if seven times the overrun of a sleep is at most 39 seconds, and not every run survives seven, whatever the overrun |
| AgentTiming.DefaultSleeps | app/crates/kif-agent/src/config.rs:52-65 | With the defaults a token that lives an hour is replaced five to six minutes before it expires, and each second of these is possible |
| AgentTiming.ExpiryIsClaimed | app/crates/kif-federation/src/jwt.rs:64-65 | The expiry used for the timing is the claim of the token minted |
| AgentFiles.Node.AtomicWrite | app/crates/kif-agent/src/federation.rs:79-101 | At every point of a write, failed or stopped anywhere, only the temporary file differs, until the rename shows the whole contents |
| AgentFiles.Node.WriteAll | app/crates/kif-agent/src/federation.rs:88-89 | The contents arrive in pieces in the one file |
| AgentFiles.RefreshLoop | app/crates/kif-agent/src/main.rs:63-144 | At every moment of any run a reader finds no token or one whole minted token; ready implies there is one and never reverts; the loop ends for a changed configuration exactly on status 409 after a readable, non-blank token, and else only when a system call of a write fails; the file shows the token minted last; every sleep is the computed one |
| AgentFiles.ChangedOnlyOnConflict | app/crates/kif-agent/src/federation.rs:60-73 | Of all answers of the federation service exactly the conflict ends the loop, and exactly a minted token is taken |
| AgentFiles.VerdictExactly | app/crates/kif-agent/src/main.rs:78-143 | For every reply, none included: 409 alone means changed, 200 with a token alone is a token, everything else and a missing or blank ServiceAccount token is tried again |
| Signing.Secrets.Ensure | app/crates/kif-federation/src/k8s.rs:79-165 | A startup goes along its path of states and returns what the path says exactly if the server answers every call, and else stops where a call fails |
| Signing.ReturnsExactly | app/crates/kif-federation/src/k8s.rs:88-164 | What it returns is the material in the two entries of the signing secret if that exists, else the material made, exactly if that has a public key set |
| Signing.EndsStored | app/crates/kif-federation/src/k8s.rs:112-164 | Then the signing secret holds the material, unchanged if it existed, and the other secret its key set |
| Signing.Secrets.UpsertJwks | app/crates/kif-federation/src/k8s.rs:167-193 | The published secret gets the document, other entries and secrets stay |
| Signing.OneStartup | app/crates/kif-federation/src/k8s.rs:88-165 | Wherever a startup stops, an existing signing secret is unchanged, what is published agrees with it if it did, other secrets are untouched |
| Signing.EntriesStay | app/crates/kif-federation/src/k8s.rs:150-193 | Other entries of the two secrets, and of any other, stay as they are |
| Signing.NeverChanges | app/crates/kif-federation/src/k8s.rs:88-165 | Over any sequence of startups cut off anywhere a signing secret never changes once written, and the published key set stays its public part |
| Signing.DoneMeansAgreed | app/crates/kif-federation/src/k8s.rs:112-164 | A startup that is done returns the stored material and leaves both secrets agreeing |
| Signing.OneMaterial | app/crates/kif-federation/src/k8s.rs:88-165 | After that, its material is stored and published for good, and every later startup that is done returns it |
| Signing.MalformedLeftAlone | app/crates/kif-federation/src/k8s.rs:89-113 | A signing secret that cannot be used is never overwritten: nothing is written and every later startup fails alike |
| Issuer.Handle | app/crates/kif-issuer/src/kube_watch.rs:26-60 | One event replaces the key set exactly when it carries a valid one |
| Issuer.PayloadExactly | app/crates/kif-issuer/src/jwks.rs:32-39 | An event carries a key set exactly if its secret has the document, it is text, and that parses to at least one key |
| Issuer.RunSecretWatcher | app/crates/kif-issuer/src/kube_watch.rs:24-61 | The store holds the last valid key set seen, is never emptied once loaded, and never holds an empty set |
| Issuer.ServesTheSigningKey | app/crates/kif-issuer/src/jwks.rs:26-39 | Over any history of startups the issuer serves what it started with or exactly the public key of the material in use, under its key id; the latter once it has seen the secret as of a startup that was done |

## Left out

- The issuer's reading of its first key set from a file: the watcher starts over any key set.
- Environment variables from `envFrom`, which any entry overrides, and references inside values.
- Mount paths are compared as texts; a volume mounted above or below the token's directory is not looked at.
- Reconcile.ReconcileIdempotent: assumes the second listing in the same order, because in another order a
  failing merge may blame another binding (MergeTheorems.FirstMissingBlamed); for merges that succeed see
  Reconcile.ReconcileReordered.
- Key rotation: `rotate_keys` is not implemented.
- Azure and GCP: only their presence matters, to merging and to the text that is hashed.
- HTTP servers, routers, TLS, probes, logging, environment parsing and the text of events.
- SHA-256, RSA, JWT signatures, base64 and JSON parsing: parameters. The hashed text is a sequence of
  Unicode characters, its UTF-8 encoding is not modelled.
- Timestamps of conditions: statuses are compared without them. Message texts are constructors, and
  the names of providers are a list, not joined with commas.
- `json_patch::diff`: a patch is modelled as the pod it leads to.
- The API server's optimistic locking and field ownership: each call is one atomic step that succeeds
  or fails. A failing call has no effect; a call whose effect lands while its answer is lost is not modelled.
- Admission reviews that do not parse: `handle` returns an error before it looks at the request.
- Bindings without a namespace, for which the watcher enqueues nothing: the resource is namespaced.
- Watch reconnection and re-listing, an error of the watch, and the end of the receiver: the machine's
  watcher goes on for ever. `Queue` does model the send that finds no receiver.
- Several webhook replicas, simultaneous first startups of the federation service, and panics.
- In the step machine the order of the watcher's events is the order of the writes; a status write may
  or may not cause one.
- Mint.ExpiryExactly: models the wrapping addition of a release build; a debug build panics there.
- AgentTiming.FreshExactly: a run's failed turns last at most the request timeout; reading and writing
  the files is counted into it.
- AgentFiles.Node.AtomicWrite: the creation of parent directories only succeeds or fails; directories
  and permissions are not modelled.
- Signing.Secrets.Ensure: names of the two secrets are assumed different where their contents are related.
