# Knative KMesh: a verified model

KMesh publishes, in the status of a `KMesh` object, which brokers of a cluster take events in (ingresses) and which
triggers carry them on (egresses). A controller keeps that status up to date from `BrokerBinding` objects, from three
in-memory caches and from broker and trigger informers. This project models that controller and the code around it in
Dafny and proves what it keeps, run after run.

| files | what they hold |
|---|---|
| `names.dfy`, `mesh.dfy` | the "namespace/name" join, sorted string lists, the objects and lister replies, counted map values |
| `reconciler.dfy`, `events.dfy` | the controller's shared maps on the heap, its locked sections, filters and handlers |
| `pass_spec.dfy`, `pass_lemmas.dfy` | what one ingress pass must do, stated over the caches before it, and why passes compose |
| `pass_laws.dfy`, `pass_meaning.dfy`, `name_laws.dfy` | what a caller gets from one pass and from a second one, down to the listers' answers; when ingress names differ |
| `interleavings.dfy`, `histories.dfy`, `sample_run.dfy` | every interleaving of concurrent reconciles and events, what holds over all of them, and runs worked through |
| `apiserver.dfy`, `writeback.dfy`, `writeback_laws.dfy` | a server with resource versions and other writers; the generated reconcile loop against it, and what its rules come to |
| `drawing.dfy`, `drawing_laws.dfy` | the box drawing of a topology, its geometry, and a decoder that undoes it |
| `deepcopy.dfy` | the deep copy of the KMesh object graph, pointer by pointer, and the publishing step on the copy |
| `informers.dfy` | the shared informer factory over all sequences of calls |
| `status_table.dfy` | the rows of the status table, with the drawing inside them |

How the main parts fit together:

- `BrokerBindingReconciler.Reconciler` is the controller's object. An entry of `trackedBrokers` or `trackedTriggers`
  holds a pointer to a map, as in Go: a deletion through a local copy of the entry shows in the cache even when the
  pass then stops with an error. `Abs` reads the three caches through those pointers, and each method is proved
  against a relation or function on that value. A range loop over a map takes its keys in an arbitrary order.
- `PassSpec.PassOutcome` says what a pass does in terms of the caches before it alone, although the pass deletes refs
  and creates entries as it goes. An error return leaves a partial effect, which `PassSpec.PartialPass` bounds.
- `Interleavings.Run` is a run of any number of reconciles (merge, pass, publish, each its own step) interleaved
  with filters and handlers. A handler runs at any time after its filter said yes. The lister is an oracle, fixed during
  one locked pass and free between passes. The steps are the functions and relations that the methods are proved against.
- `WriteBack` runs against `ApiServer.Server`. Before every step of ours, any number of writes and deletions by others
  may happen; informers may hand out any object ever stored; the answer to an accepted write may get lost. The server
  keeps every exchange with this controller, and the contracts say which exchanges a call makes, answer by answer.

Where code and documentation disagree, the code is followed. The interface comment in
`pkg/client/injection/reconciler/mesh/v1alpha1/brokerbinding/reconciler.go:58-62` says that changes FinalizeKind makes to
`.Status` or `.Finalizers` are ignored. The code compares the status FinalizeKind left and writes it back, unless a
finalizer write brought a newer copy (`WriteBack.FinalStatus`, which `WriteBack.Reconcile` meets). And `clearFinalizer`
reads the changed finalizers: `WriteBack.FailedFinalizeRemoves` says exactly when a failed finalize removes the finalizer.

What the code does not give is stated as a condition instead of a promise: when the first merge settles
(`PassLaws.FirstMergeSettled`), when ingress names differ (`NameLaws.NamesDifferent`, with a run where they do not in
`SampleRun.PublishedAndLost`), when two keys collide
(`Names.JoinCollision`), when the own finalizer goes (`WriteBack.ClearFinalizer`), when an informer runs twice
(`Informers.RunOnceExactly`, `Informers.SharedRunsTwice`), when a box is drawn straight (`DrawingLaws.StraightExactlyForAscii`).

## Model

| member | source | states |
|---|---|---|
| `BrokerBindingReconciler.CollectEgresses` | pkg/reconciler/brokerbinding/brokerbinding.go:203-229 | ranging over a trigger map that loses entries meanwhile: an error exactly if some `Get` fails otherwise than NotFound; on success one egress per tracked trigger found ready before the loop, and exactly the refs not found are gone; on error only such refs are |
| `BrokerBindingReconciler.VisitTriggers` | pkg/reconciler/brokerbinding/brokerbinding.go:192-233 | the trigger entry of one broker is looked up or made, passed over and stored; on an error a new entry is not stored, while deletions in an existing one stay |
| `BrokerBindingReconciler.CollectIngresses` | pkg/reconciler/brokerbinding/brokerbinding.go:173-235 | the range over one class's brokers, with trigger entries made and pruned in between, lists one ingress per broker ready before the range |
| `BrokerBindingReconciler.RangedTriggers` | pkg/reconciler/brokerbinding/brokerbinding.go:193-229 | trigger entries pruned earlier in the same pass report the same ready triggers and failures as before it, so two brokers under one key see the same egresses |
| `BrokerBindingReconciler.VisitClass` | pkg/reconciler/brokerbinding/brokerbinding.go:166-236 | one class's part of a pass is a pass over that class alone, error exits included |
| `BrokerBindingReconciler.Reconciler.constructor` | pkg/reconciler/brokerbinding/controller.go:76-78 | the three caches start allocated and empty |
| `BrokerBindingReconciler.Reconciler.MergeClasses` | pkg/reconciler/brokerbinding/brokerbinding.go:102-110 | the first merge keeps the binding's list raw, a later one lists the union in ascending order; nothing else changes |
| `BrokerBindingReconciler.Reconciler.ReconcileIngresses` | pkg/reconciler/brokerbinding/brokerbinding.go:159-239 | fails exactly if a visited broker, or a trigger of a ready one, cannot be read; on success lists, class by class in list order and in any order within one, one ingress per ready ref with its ready triggers, all against the caches before; prunes exactly the refs not found; on failure only some of those |
| `BrokerBindingReconciler.Reconciler.ReconcileKMesh` | pkg/reconciler/brokerbinding/brokerbinding.go:93-121 | a reconcile nothing interrupts: a spec without KMesh panics before anything is touched, an unknown KMesh changes nothing, otherwise the pass runs over the merged classes and exactly those are published |
| `BrokerBindingReconciler.Reconciler.FilterBroker` | pkg/reconciler/brokerbinding/controller.go:166-175 | accepts exactly annotated brokers of a tracked class |
| `BrokerBindingReconciler.Reconciler.FilterTrigger` | pkg/reconciler/brokerbinding/controller.go:145-156 | accepts exactly triggers whose namespace and broker name join to a tracked key |
| `BrokerBindingReconciler.Reconciler.HandleBroker` | pkg/reconciler/brokerbinding/controller.go:85-109 | records the ref under its UID through the entry's map; panics exactly if the class is not tracked |
| `BrokerBindingReconciler.Reconciler.HandleTrigger` | pkg/reconciler/brokerbinding/controller.go:111-142 | records the ref under its key and enqueues the entry's binding; panics exactly if the key is not tracked |
| `StringLists.SortedUnion` | pkg/reconciler/brokerbinding/brokerbinding.go:108 | the merged list is ascending and holds exactly the classes of both |
| `StringLists.LessExactly` | pkg/reconciler/brokerbinding/brokerbinding.go:108 | the order of the list is dictionary order: a proper prefix first, otherwise the first difference decides |
| `StringLists.SortedUnionExactly` | pkg/reconciler/brokerbinding/brokerbinding.go:108 | the merged list is the one list with each class of both once, in dictionary order |
| `StringLists.AscendingUnique` | pkg/reconciler/brokerbinding/brokerbinding.go:108 | an ascending list is determined by its elements |
| `Names.JoinCollision` | pkg/reconciler/brokerbinding/brokerbinding.go:187-192 | two namespace and name pairs share a key exactly if they are equal or one namespace runs past a slash into the other's name |
| `Names.JoinInjective` | pkg/reconciler/brokerbinding/controller.go:120 | on namespaces without a slash the key determines namespace and name |
| `PassLemmas.PartialKeepsClass` | pkg/reconciler/brokerbinding/brokerbinding.go:165-237 | however far an earlier class's range got, a later class reports the same ingresses and failures as before it |
| `PassLemmas.AfterPassCompose` | pkg/reconciler/brokerbinding/brokerbinding.go:165-237 | passing over two class lists in turn leaves the caches that one pass over both leaves |
| `PassLemmas.PassCompose` | pkg/reconciler/brokerbinding/brokerbinding.go:165-237 | a pass followed by a pass over one more class is a pass over the longer list, in verdict, caches and listing |
| `PassLemmas.FailureExtends` | pkg/reconciler/brokerbinding/brokerbinding.go:180-183 | a pass that stopped early has done nothing that a pass over the whole list may not do |
| `PassLaws.RunOfClass` | pkg/reconciler/brokerbinding/brokerbinding.go:163-238 | the list splits into consecutive runs, run i holding exactly the ingresses of class i |
| `PassLaws.OrderIndependent` | pkg/reconciler/brokerbinding/brokerbinding.go:173-237 | any two iteration orders give the same verdict and, on success, the same caches and per-class ingresses up to order |
| `PassLaws.ListedExactlyWhenReady` | pkg/reconciler/brokerbinding/brokerbinding.go:165-235 | an ingress is listed exactly if some ref tracked for a visited class is found ready and gives it |
| `PassMeaning.PassLists` | pkg/reconciler/brokerbinding/brokerbinding.go:163-238 | the list falls into one section per class, and a section has exactly one ingress for each tracked broker the lister has and that is ready, in some order, each with the broker's name and address and exactly one egress for each ready tracked trigger of that name, with the trigger's name and its subscriber |
| `PassMeaning.ListedAreReady` | pkg/reconciler/brokerbinding/brokerbinding.go:185-232 | every listed ingress is that of some tracked broker found ready, with its name, its address and its ready triggers' egresses |
| `PassMeaning.PassVerdict` | pkg/reconciler/brokerbinding/brokerbinding.go:175-221 | a pass fails exactly if the lookup of a tracked broker of a visited class, or of a tracked trigger of a ready one, gives neither an object nor NotFound |
| `PassMeaning.PassTouches` | pkg/reconciler/brokerbinding/brokerbinding.go:166-236 | however a pass ends: classes untouched; entries kept with their bindings, their refs lost only to NotFound; entries of other classes and names as before; new ones empty and the pass's own |
| `PassMeaning.PassClears` | pkg/reconciler/brokerbinding/brokerbinding.go:173-236 | after success every visited class and every ready broker's name has an entry, with no ref left that is not found |
| `PassLaws.BrokersPrunedExactly` | pkg/reconciler/brokerbinding/brokerbinding.go:173-184 | a successful pass drops a broker ref exactly if it visits the class and the lister does not find it |
| `PassLaws.TriggersPrunedExactly` | pkg/reconciler/brokerbinding/brokerbinding.go:203-221 | a trigger ref exactly if it is not found and some ready broker of a visited class bears its key |
| `PassLaws.PassIdempotent` | pkg/reconciler/brokerbinding/brokerbinding.go:159-239 | a second pass with the same listers, for any binding, succeeds, changes no cache and lists the same |
| `PassLaws.MergeSettled` | pkg/reconciler/brokerbinding/brokerbinding.go:102-110 | a merge into a known KMesh changes nothing exactly if its list is ascending and holds the classes |
| `PassMeaning.MergeExactly` | pkg/reconciler/brokerbinding/brokerbinding.go:102-110 | a merge touches the one KMesh: its first list is the binding's as it is, a later one holds the classes of both in dictionary order |
| `PassLaws.FirstMergeSettled` | pkg/reconciler/brokerbinding/brokerbinding.go:105-106 | repeating the first merge changes nothing exactly if the binding's own list is ascending |
| `PassLaws.FirstMergeMayMove` | pkg/reconciler/brokerbinding/brokerbinding.go:105-108 | a binding that lists b before a smaller a is kept so by the first merge and sorted by the second |
| `PassLaws.PassPossible` | pkg/reconciler/brokerbinding/brokerbinding.go:159-239 | from any caches and for any listers a pass can end: with a listing exactly if no `Get` on its way fails |
| `PassLaws.ReconcileFixedPoint` | pkg/reconciler/brokerbinding/brokerbinding.go:102-112 | once the KMesh is known, merging and passing again is a fixed point of caches and listing |
| `NameLaws.NamesDifferent` | pkg/reconciler/brokerbinding/brokerbinding.go:186-189 | ingress names are all different exactly if no ready name is met under two refs of a class or at two places of the class list |
| `Interleavings.CachesGrow` | pkg/reconciler/brokerbinding/brokerbinding.go:166-236 | in every run tracked keys, their bindings and merged classes are never taken back |
| `Interleavings.NeverCrashes` | pkg/reconciler/brokerbinding/controller.go:100-101 | in every interleaving no handler writes through a nil map: a filter's yes still stands when its handler runs |
| `Interleavings.ClassesAreMerged` | pkg/reconciler/brokerbinding/brokerbinding.go:102-110 | in every reachable state a KMesh's classes are the union of all merged into it, ascending from the second merge on |
| `Interleavings.FirstMergeIsRaw` | pkg/reconciler/brokerbinding/brokerbinding.go:105-106 | after a single merge the list is that binding's own, order and repetitions included |
| `Interleavings.MergesConfluent` | pkg/reconciler/brokerbinding/brokerbinding.go:107-109 | two runs that merged the same classes at least twice, in any order, cache the same list |
| `Interleavings.PublishedSnapshot` | pkg/reconciler/brokerbinding/brokerbinding.go:112-121 | in every interleaving the published classes include those the published ingresses were computed over, which include the binding's own; and the ingresses are those of one pass of the run |
| `Interleavings.BrokerRefIsLatest` | pkg/reconciler/brokerbinding/controller.go:94-101 | every tracked broker ref is that of the latest event handled for its class and UID |
| `Interleavings.BrokersAreSeen` | pkg/reconciler/brokerbinding/controller.go:94-101 | every tracked broker ref was delivered by an event carrying its class |
| `Interleavings.TriggerRefIsLatest` | pkg/reconciler/brokerbinding/controller.go:120-128 | every tracked trigger ref is that of the latest event handled for its key and UID |
| `Interleavings.TriggersAreSeen` | pkg/reconciler/brokerbinding/controller.go:120-128 | every trigger ref tracked under a key was delivered by an event whose namespace and broker join to it |
| `Histories.BrokerEventRecords` | pkg/reconciler/brokerbinding/controller.go:94-101 | a handled broker event puts its ref under its class and UID and changes nothing else in the three caches |
| `Histories.TriggerEventRecords` | pkg/reconciler/brokerbinding/controller.go:120-128 | a handled trigger event puts its ref under its namespace and broker's key and its UID and changes nothing else |
| `Histories.ClassBindingMerged` | pkg/reconciler/brokerbinding/brokerbinding.go:166-172 | the binding kept for a class was merged into a KMesh that lists the class |
| `Histories.TriggerBindingReaches` | pkg/reconciler/brokerbinding/brokerbinding.go:193-200 | the binding kept for a broker's triggers was merged into a KMesh listing a class under which that broker was recorded |
| `Histories.EnqueueReachesClass` | pkg/reconciler/brokerbinding/controller.go:129-140 | every later pass against that KMesh visits that class, so the enqueued reconcile reaches the broker |
| `Histories.EnqueuedPassReports` | pkg/reconciler/brokerbinding/controller.go:129-140 | and it helps: every later successful pass against that KMesh that finds the broker, tracked under that class, and the trigger ready lists an ingress of the broker with the trigger's egress, until a pass does not find the trigger |
| `Histories.BrokerLostToNotFound` | pkg/reconciler/brokerbinding/brokerbinding.go:175-179 | over whole runs a recorded broker ref is lost only to a pass over its class that got NotFound for it |
| `Histories.TriggerLostToNotFound` | pkg/reconciler/brokerbinding/brokerbinding.go:206-213 | a trigger ref only to a pass that met a ready broker of its key and got NotFound for it |
| `Histories.RecordedIsListed` | pkg/reconciler/brokerbinding/brokerbinding.go:173-237 | until then the ref is tracked, and every successful pass over its class that finds it ready lists it |
| `Histories.RecordedTriggerIsListed` | pkg/reconciler/brokerbinding/brokerbinding.go:203-232 | likewise a recorded trigger ref stays tracked until such a pass, and every successful pass that finds it ready has its egress in every ingress listed under its broker's name |
| `Histories.MovedTriggerStaysListed` | pkg/reconciler/brokerbinding/controller.go:120-128 | a trigger whose event names another broker is recorded there and not taken from the old one: until a pass does not find it, every ingress listed for either broker has its egress |
| `Histories.MovedBrokerStaysListed` | pkg/reconciler/brokerbinding/controller.go:88-101 | a broker whose class annotation changes is recorded under the new class and not taken from the old one: until a pass over that class does not find it, every successful pass over either that finds it ready lists it |
| `Histories.HandledWasFiltered` | pkg/reconciler/brokerbinding/controller.go:144-182 | a handled event was let through by its filter at an earlier moment, while its class or key was tracked |
| `Histories.BrokerRefAfterTracking` | pkg/reconciler/brokerbinding/controller.go:165-176 | a tracked broker ref comes from an event let through after its class was tracked, so an earlier event leaves nothing behind |
| `Histories.TriggerRefAfterTracking` | pkg/reconciler/brokerbinding/controller.go:144-156 | likewise a tracked trigger ref, after its broker's key was tracked |
| `SampleRun.NameListedTwice` | pkg/reconciler/brokerbinding/brokerbinding.go:173-189 | two ready refs of one visited class with one name, as a broker made anew leaves them, put that name into the list twice |
| `SampleRun.PublishedAndLost` | pkg/reconciler/brokerbinding/brokerbinding.go:93-121 | for every binding, class, broker, pair of UIDs and trigger there is a run that publishes that broker's name twice and the trigger as its egress, after the trigger's event was enqueued, and then loses the trigger to a pass that does not find it |
| `SampleRun.RecordedAndLost` | pkg/reconciler/brokerbinding/brokerbinding.go:165-236 | likewise one that records a broker and later loses it |
| `Histories.ListedIsAttributed` | pkg/reconciler/brokerbinding/controller.go:120-128 | every egress comes from a recorded trigger event naming the ingress's broker, in that broker's namespace if namespaces hold no slash |
| `Histories.PublishedIsAttributed` | pkg/reconciler/brokerbinding/brokerbinding.go:119-121 | and so does every published one, in every run |
| `ApiServer.Server.Write` | pkg/client/injection/reconciler/mesh/v1alpha1/brokerbinding/reconciler.go:381-396 | the server accepts a write only over the version it carries |
| `WriteBack.WriteServer` | pkg/client/injection/reconciler/mesh/v1alpha1/brokerbinding/reconciler.go:334-339 | with others writing at any moment, an accepted write replaces exactly the object it was computed from |
| `WriteBack.UpdateStatus` | pkg/client/injection/reconciler/mesh/v1alpha1/brokerbinding/reconciler.go:311-341 | the exchanges with the server are exactly those of the retry protocol: the first try from the informer's copy, another after each conflict over a fresh read, five in all; at most one write is accepted, it is the last exchange's, changes the status only, and replaces exactly the object the protocol had read for it; on nil the status stood on the server at some moment of the call; nothing is written if the informer's copy had it |
| `WriteBack.UpdateFinalizersFiltered` | pkg/client/injection/reconciler/mesh/v1alpha1/brokerbinding/reconciler.go:346-405 | the exchanges are exactly one look at the lister and, if its answer is not as wanted, one write over that very object with the own finalizer added or removed and all others kept; an accepted write is that one and replaces exactly that object; a failure is reported exactly if the lister or the write failed |
| `WriteBack.SetFinalizerIfFinalizer` | pkg/client/injection/reconciler/mesh/v1alpha1/brokerbinding/reconciler.go:407-423 | a live resource never loses the finalizer here, and a write asking for it is sent exactly if the lister's second answer lacks it |
| `WriteBack.ClearFinalizer` | pkg/client/injection/reconciler/mesh/v1alpha1/brokerbinding/reconciler.go:425-450 | the finalizer is wanted exactly if the event was neither nil nor Normal and the resource still has it; a write that brings this about is sent exactly if the lister's second answer is not so |
| `WriteBack.RunKind` | pkg/client/injection/reconciler/mesh/v1alpha1/brokerbinding/state.go:86-97 | which method runs, from leadership and deletion alone; with it exactly the exchanges of its finalizer step, the own finalizer added or removed exactly if called for; and the status it leaves to be compared, in every case |
| `WriteBack.Report` | pkg/client/injection/reconciler/mesh/v1alpha1/brokerbinding/reconciler.go:284-308 | an error is returned exactly for an event wrapped in an error and for any other error |
| `WriteBack.SyncStatus` | pkg/client/injection/reconciler/mesh/v1alpha1/brokerbinding/reconciler.go:260-281 | the status update runs exactly for a leader, a changed status and no wish to skip it; otherwise nothing is sent |
| `WriteBack.Reconcile` | pkg/client/injection/reconciler/mesh/v1alpha1/brokerbinding/reconciler.go:169-309 | the exchanges of a call and its result follow from the answers got: the lookup, the due Kind method's finalizer step, the status update; the copies it worked from are those the lister answered with and were stored on the server; at most one finalizer write and then at most one status write are accepted, each over exactly the object read for it, none without leadership when the state was taken; on success the finalizer write called for was accepted, a changed status stood on the server at some moment, and an error is returned exactly for a failing event |
| `WriteBackLaws.ValidKeyExactly` | pkg/client/injection/reconciler/mesh/v1alpha1/brokerbinding/state.go:48-53 | a call refuses exactly the keys that are neither a plain name nor a namespace and a name with one slash between them |
| `WriteBackLaws.KindExactly` | pkg/client/injection/reconciler/mesh/v1alpha1/brokerbinding/state.go:77-97 | leaders reconcile what lives and finalize what is being deleted, followers only observe, and only what lives |
| `WriteBackLaws.EventsExactly` | pkg/client/injection/reconciler/mesh/v1alpha1/brokerbinding/reconciler.go:284-308 | which events end a finalize cleanly and which make the call fail |
| `WriteBackLaws.DoneExactly` | pkg/client/injection/reconciler/mesh/v1alpha1/brokerbinding/reconciler.go:169-309 | a call gets through exactly if the key is valid, it leads or observes, the lookup finds the resource, no answer in the finalizer step is bad, and the status update's last answer is good |
| `WriteBackLaws.StatusUpdateRetries` | pkg/client/injection/reconciler/mesh/v1alpha1/brokerbinding/reconciler.go:311-341 | a status update's exchanges: writes over the object at hand, each after a conflict and a fresh read, never of a status already there, and at most five; what ends it and what it then returns |
| `WriteBackLaws.StatusWriteReplaces` | pkg/client/injection/reconciler/mesh/v1alpha1/brokerbinding/reconciler.go:311-341 | no status update is lost: an accepted one replaces exactly the object the call had read for it, and changes its status only |
| `WriteBackLaws.FinalizerWriteReplaces` | pkg/client/injection/reconciler/mesh/v1alpha1/brokerbinding/reconciler.go:346-405 | an accepted finalizer write replaces exactly the object the lister gave the step, by what was sent |
| `WriteBackLaws.FinalizersSentExactly` | pkg/client/injection/reconciler/mesh/v1alpha1/brokerbinding/reconciler.go:362-386 | what is sent: the object as it was with the own finalizer added last, or taken out and the others sorted |
| `WriteBackLaws.StatusExactly` | pkg/client/injection/reconciler/mesh/v1alpha1/brokerbinding/reconciler.go:225-281 | the status a call comes to compare, by the method that ran and the finalizer write it made |
| `WriteBack.Conclude` | pkg/client/injection/reconciler/mesh/v1alpha1/brokerbinding/reconciler.go:216-308 | the same for the part of a call after the lookup |
| `WriteBack.RemovedOnlyCleanly` | pkg/client/injection/reconciler/mesh/v1alpha1/brokerbinding/reconciler.go:245-252 | where the two lister reads agree, a call removes the own finalizer only as leader, while finalizing, and cleanly or because FinalizeKind dropped it |
| `WriteBack.FailedFinalizeRemoves` | pkg/client/injection/reconciler/mesh/v1alpha1/brokerbinding/reconciler.go:58-62 | against the interface's comment: on every call that gets through a finalize without a clean end, the two lister reads being the same, the own finalizer is removed exactly if the copy had it and FinalizeKind dropped it |
| `WriteBack.FailedFinalizeLosesFinalizer` | pkg/client/injection/reconciler/mesh/v1alpha1/brokerbinding/reconciler.go:58-62 | an input of that kind: a resource with the one finalizer, dropped by a FinalizeKind that fails |
| `WriteBack.OthersFinalizersKept` | pkg/client/injection/reconciler/mesh/v1alpha1/brokerbinding/reconciler.go:346-405 | every write of a call keeps the set of all other finalizers, and the spec |
| `Drawing.Node.Insert` | pkg/print/draw.go:43-47 | one new childless node is appended and returned |
| `Drawing.Connect` | pkg/print/draw.go:79-111 | the part between the boxes does not depend on the carried state: it is a function of the child count, the child and the row |
| `Drawing.SPPrint` | pkg/print/draw.go:55-113 | for a node with children the loop with carried state writes the drawing defined row by row without any |
| `DrawingLaws.StraightExactlyForAscii` | pkg/print/draw.go:133-144 | edges count bytes and the text row characters, so a box is straight exactly if its name is ASCII |
| `DrawingLaws.BoxDrawn` | pkg/print/draw.go:122-144 | a box has its four corners, bars between them, and the name between walls with two blanks on each side |
| `DrawingLaws.ChildlessBox` | pkg/print/draw.go:114-118 | a childless node named without a percent sign comes out as its three rows on one line |
| `DrawingLaws.RowColumns` | pkg/print/draw.go:71-112 | with an ASCII root of box width W every row is the root column, five columns and a child, which starts at column W + 5 |
| `DrawingLaws.RootDrawnOnce` | pkg/print/draw.go:63-78 | the root's box stands beside child k / 2 and nowhere else |
| `DrawingLaws.ConnectorUnbroken` | pkg/print/draw.go:79-111 | column W + 1 is drawn exactly from row 1 to row 3(k - 1) + 1, and column W exactly on the root's text row |
| `DrawingLaws.ArmsMeet` | pkg/print/draw.go:79-111 | the connector's character on every row points up, down, left and right exactly where its neighbours point back |
| `DrawingLaws.BranchDrawn` | pkg/print/draw.go:79-111 | the last three columns before a child are two bars and an arrowhead on its text row and blank elsewhere |
| `DrawingLaws.RenderedLines` | pkg/print/draw.go:66-113 | the drawing has three lines a child, exactly the rows |
| `DrawingLaws.RenderDecodes` | pkg/print/draw.go:55-113 | a decoder gets the root's name and the ordered children's back, for any names on one line |
| `DrawingLaws.RenderInjective` | pkg/print/draw.go:55-113 | so the drawing determines them |
| `DeepCopies.CopyEgress` | pkg/apis/mesh/v1alpha1/zz_generated.deepcopy.go:134-142 | an equal egress with a destination of its own |
| `DeepCopies.CopyEgresses` | pkg/apis/mesh/v1alpha1/zz_generated.deepcopy.go:155-164 | an equal slice, new itself and in every destination |
| `DeepCopies.CopyIngress` | pkg/apis/mesh/v1alpha1/zz_generated.deepcopy.go:177-192 | an equal ingress, nil or empty slices as they were, with nothing shared |
| `DeepCopies.CopyIngresses` | pkg/apis/mesh/v1alpha1/zz_generated.deepcopy.go:205-214 | an equal slice of ingresses with nothing shared |
| `DeepCopies.KMesh.DeepCopyInto` | pkg/apis/mesh/v1alpha1/zz_generated.deepcopy.go:227-233 | the target gets the same value, nil and empty slices told apart, and nothing reachable from its status existed before, also when it is the receiver itself |
| `DeepCopies.KMesh.DeepCopy` | pkg/apis/mesh/v1alpha1/zz_generated.deepcopy.go:236-243 | a new object with the same value and nothing shared |
| `DeepCopies.ValueExactly` | pkg/apis/mesh/v1alpha1/zz_generated.deepcopy.go:177-303 | objects of one value agree field by field: metadata, conditions, classes, and every ingress with its address, name and egresses, nil apart from empty |
| `DeepCopies.NewStatusExactly` | pkg/apis/mesh/v1alpha1/zz_generated.deepcopy.go:177-303 | of a new status the slices, and every address, egress slice and destination under them, did not exist before |
| `DeepCopies.DeepCopyPointer` | pkg/apis/mesh/v1alpha1/zz_generated.deepcopy.go:236-243 | nil copies to nil, and the original keeps its value |
| `DeepCopies.Publish` | pkg/reconciler/brokerbinding/brokerbinding.go:119-121 | putting the new classes and ingresses into the copy leaves the informer's object as it was |
| `DeepCopies.BrokerBindingSpec.DeepCopyInto` | pkg/apis/mesh/v1alpha1/zz_generated.deepcopy.go:91-104 | the spec's copy is equal and shares neither the class list nor the KMesh reference |
| `DeepCopies.SpecExactly` | pkg/apis/mesh/v1alpha1/zz_generated.deepcopy.go:91-104 | specs of one value have the same classes and the same reference, nil apart from empty |
| `Informers.SharedInformerFactory.InformerFor` | pkg/client/informers/externalversions/factory.go:147-166 | a known type gives its informer and calls nothing; an unknown one calls the constructor with its custom or the default resync period and keeps the result |
| `Informers.SharedInformerFactory.Start` | pkg/client/informers/externalversions/factory.go:111-121 | launches exactly the informers of the registered types not started yet, each once, in any order |
| `Informers.SharedInformerFactory.WaitForCacheSync` | pkg/client/informers/externalversions/factory.go:124-143 | reports exactly the started types, each with what waiting for its informer came to |
| `Informers.MemoIsForever` | pkg/client/informers/externalversions/factory.go:151-155 | over all call sequences a type keeps its informer forever |
| `Informers.AllCallersShare` | pkg/client/informers/externalversions/factory.go:147-166 | whoever asks for a type, and whenever, gets what the first request made |
| `Informers.LaunchedAreStarted` | pkg/client/informers/externalversions/factory.go:115-120 | in every reachable state the launched informers are, counted, those of the started types, and those are registered |
| `Informers.EachRunsAtMostOnce` | pkg/client/informers/externalversions/factory.go:115-120 | no informer runs twice exactly if no two started types share one |
| `Informers.RunOnceExactly` | pkg/client/informers/externalversions/factory.go:111-166 | after a `Start`, no informer has run twice exactly if the first requests of different types brought different informers |
| `Informers.DifferentRunOnce` | pkg/client/informers/externalversions/factory.go:111-166 | in every reachable state that is enough |
| `Informers.SharedRunsTwice` | pkg/client/informers/externalversions/factory.go:111-166 | one informer handed out for two types is launched twice |
| `Informers.StartLaunchesAll` | pkg/client/informers/externalversions/factory.go:111-121 | after `Start` every registered informer has been launched |
| `Informers.SnapshotIsLastStart` | pkg/client/informers/externalversions/factory.go:125-136 | a waiter waits for exactly the types registered before the last `Start` |
| `StatusTable.IngressEntry` | magefile.go:255-266 | an ingress prints exactly if no nil address, destination or reference is followed, and then with its drawing |
| `StatusTable.PrintableExactly` | magefile.go:256-262 | printing takes an address, and for every egress a destination with a reference, and nothing else |
| `StatusTable.IngressEntries` | magefile.go:249-268 | one entry per ingress in order, a dash for none |
| `StatusTable.NewMeshTableRow` | magefile.go:214-247 | as many rows as the longer padded column; row r pairs class min(r, last) with entry min(r, last); no index is out of range; the rows show every class and every entry, and nothing else |
| `StatusTable.PairingShowsAll` | magefile.go:228-245 | rows paired by the clamped index drop no class and no entry |
| `StatusTable.RowsExactly` | magefile.go:228-245 | row r shows class r and entry r, the last one of a list from its end on, and that the mesh is ready |
| `StatusTable.EntryShowsAll` | magefile.go:256-264 | entries with equal texts come from the same broker, URL and destinations in order, where these are on one line each |
| `StatusTable.EntryHasLines` | magefile.go:256-264 | an entry's lines are the broker's, the URL's and, if it has egresses, a blank, a heading, the drawing's lines and a blank |
| `StatusTable.TopologyShows` | magefile.go:259-262 | the drawing decodes to the broker at the root and each destination's namespace and name, in order, as its children |
| `StatusTable.PairRows` | magefile.go:227-245 | the two loops pair every row of the longer list with the clamped element of the shorter one |
| `StatusTable.LabelIdentifies` | magefile.go:261 | a destination's label determines namespace and name where namespaces hold no slash |

## Left out

- Logging, contexts, event recording and the status conditions (`MarkBindingReady` and the like): no effect on the caches or on what is published. A Kind method's effect on its resource is a parameter (`WriteBack.Outcome`), which absorbs `PreProcessReconcile` and `PostProcessReconcile`.
- The JSON patch made and sent at publish (brokerbinding.go:122-154): publishing hands over the classes and the ingresses.
- `uriResolver` and tracker calls in the handlers: external, their results are discarded.
- Listers, informers, work queue and leader election inside: the lister is an oracle per locked pass, answering the same for the same name during it; leadership is a parameter, read once per call.
- Sharing beyond the ref maps: an ingress's address and an egress's destination point into the listers' objects, the published class slice is the cached one, and the first merge keeps the binding's own slice; the model copies these values, as no code here writes to them.
- Data races of the filters' and the publishing step's unlocked reads: each is taken as one atomic step.
- The nested range loops over brokers and triggers are split into methods over the same maps, because their invariants are about different maps.
- WriteBack.RunKind: a Kind method that changes its copy's name, namespace or deletion timestamp is not modelled, because it is handed the copy for its status.
- ApiServer.Server.Write: an object being deleted stays stored when its last finalizer goes, while an API server drops it then; a status write after that may succeed here and cannot there. That the object is gone at once is covered as a deletion by another writer.
- WriteBack.Reconcile: for a resource that no longer exists, the answer of an `ObserveDeletion` handler is not modelled, because the wrapped reconciler decides it; which error is returned is not told apart, only that one is.
- The error message of a failed read, and the order in which a failing pass met its refs: only the verdict and the bound on the effect are modelled.
- `pkg/client/injection/reconciler/mesh/v1alpha1/kmesh`: the same generated code for another kind.
- Object metadata, type metadata, conditions, destinations and addresses are values of their own in the deep copy: their inner copies are library code. `BrokerBinding`, the list types and the copies of `BrokerBindingStatus` follow the same pattern and are not repeated.
- DrawingLaws.RowColumns: is stated for ASCII root names, because the text row of another root is narrower than its edges and the columns shift.
- DrawingLaws.RenderDecodes: is stated for names on one line and at least one child, because a newline in a name breaks its row in two.
- Drawing.SPPrint: formats a childless node's lines through a parameter, because the source uses the line itself as the format string (draw.go:116); what comes out is stated for names without a percent sign only, in DrawingLaws.ChildlessBox.
- The informer factory's options, typed accessors and filtered factories: thin wrappers; the mutex makes each call one step. A constructor function that calls the factory back would deadlock in the source and is not modelled.
- Colours of the status table and everything else in magefile.go: kubectl and helm calls, YAML reading, text splitting.
- Typed clients, fakes, injection wiring, registration, defaulting, validation, command mains, Helm and YAML files: no logic that a harder property needs.
