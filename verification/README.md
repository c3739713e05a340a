# WyrePlumber runtime model

This project models the parts of WyrePlumber in which correctness depends on many steps taken
together, and proves what those parts are for.

- **SPA pod codec** (`Wire`, `PodValues`, `PodShapes`, `PodCodec`, `PodRoundTrip`, `PodCanonical`,
  `PodSlots`, `PodObjects`, `PodRawBytes`, `PodExactness`, `PodReparse`, `PodLayout`,
  `PropertyForms`, `PodLoops`, `PodObjectClass`). The recursive parser and builder of PipeWire's SPA POD format, for arbitrary
  valid property tables. Every value that builds parses, from any place in any buffer, to its normal
  form, if it embeds no raw bytes; and any value comes back unchanged if and only if it is canonical,
  a condition on the value alone. The same question is answered for values that were parsed from any
  bytes. Which bytes a value becomes is stated digit by digit, and which struct, array or object a typed
  property value becomes field by field. The loops that move through buffers and
  lists are methods proved against the recursive definitions, and `SpaPodObject` is a class.
- **The native connection** (`EventStream`, `Dispatch`, `DispatchSafety`, `DispatchAnswers`,
  `DispatchRuns`, `Ledger`, `WpConnection`). Event numbering with a bounded queue and capture as a baseline reset; the mutation
  FIFO, split at its locks, with cancellation, reconnection and stop; the managed-link ledger. The
  steps are functions; the guarantees are about every run of them; the class `WpConnection` updates
  its fields as the C code does, and each method is proved to take exactly one of the steps.
- **Its consumers** (`Events`, `Projections`, `RuntimeClient`, `RuntimeQueue`, `Optimistic`,
  `EndToEnd`, `Outcomes`, `Observations`, `ObservationLaws`, `ConfirmedMutation`, `MutationEndings`,
  `ManagedLinks`, `LinkEndings`). The projection that
  follows the event stream, the Python queue, sequence-guarded controls, and the confirmed-mutation loop.
  Composed with the connection, in one run of all of them, they give the end-to-end results: nothing
  is lost silently, and a guarded control executes only on what its caller had seen.
- **Snapshots** (`RuntimeSnapshots`, `UnresolvedEntries`, `SnapshotPayload`, `Envelopes`,
  `SnapshotRecords`). Unique
  indexes, reference resolution, derived references and merging, the versioned JSON envelopes, and
  snapshots restored from their envelopes.

`Wrappers` holds the options and results that all modules share.

Eight of the properties the code could be expected to have do not hold as they stand; each is stated
with its exact condition and with the input that breaks it:

- not every pod that builds comes back unchanged: `PodExactness.RoundTripIff` says exactly which do,
  and `PodRawBytes.RawBytesNeverReturn` that raw bytes embedded at any depth never do;
- not every parsed pod does either: what holds raw bytes as an embedded pod, or a property value that
  its spec would not present, is built to something else (`PodReparse.ReparseIff`), and an array of
  strings builds again at all exactly when each fills its slot (`PodReparse.StringArrayIff`);
- a counted and an uncounted profile-classes struct decode alike exactly when there are entries
  (`PodSlots.CountedAndUncounted`): with none, the counted form reads as the empty list and the
  uncounted one is left a struct (`PodSlots.NoClassEntries`);
- a plain mapping that carries both envelope markers does not survive serialization:
  `Envelopes.EnvelopeRoundTripIff`;
- a link identity whose owner contains U+001F can reach another identity's ledger entry
  (`Ledger.SeparatorConfuses`, exactly when: `Ledger.KeyCollisionIff`), and two creates for one
  topology can both be recorded before the first link is bound (`Ledger.TwoOwnersOneTopology`; the
  exact step is `Ledger.CreateBreaksOneIff`, its consequence `Ledger.ForgetsAllIff`), though not while
  each create finds all recorded links bound (`Ledger.BoundRunsKeepOne`);
- a remove need not reach the link its identity's create made: the ledger compares endpoints, not the
  link itself, so after a link that left without its properties a foreign link on the same endpoints is
  destroyed (`Ledger.ForeignLinkDestroyed`, exactly when: `Ledger.DestroysOwnIff`);
- a confirmed mutation need not end in an outcome, not even after its request was dispatched: a
  capture that fails without a message or whose payload does not convert, and an observation that is no
  JSON value, escape as exceptions (`ConfirmedMutation.ReturnsIff` says exactly which runs return;
  `ConfirmedMutation.RaisesAfterDispatch` and `ConfirmedMutation.MethodRaises` are such runs);
- a call admitted after a disconnect can still execute in the old generation, exactly when the object
  manager is set again before the generation counter moves: `DispatchRuns.CanRunIff` and
  `OldGenerationNeedsManager`, with the guard itself in `ExecutesIff` and the breaking run in
  `ExecutesBeforeInstall`.

`dafny verify dfyconfig.toml` checks the whole project.

## Model

| member | source | states |
|---|---|---|
| PodRoundTrip.ParseOfBuild | src/wyreplumber/spa_pod.py:41-328 | for every value that builds, the pod's length is a multiple of 8, its header holds its type and its body's size, and parsing it at any offset of any buffer gives its normal form (raw embedded bytes, which have none, are `RawBytesNeverReturn`) |
| PodExactness.RoundTripIff | src/wyreplumber/spa_pod.py:650-947 | what builds comes back unchanged, from any place in any buffer, if and only if it is canonical, for every value |
| PodReparse.ReparseIff | src/wyreplumber/spa_pod.py:41-60 | for any bytes that parse, what the value builds to, with its own type or the inferred one, parses back to the same value exactly when the value holds no raw bytes as an embedded pod and its property values are in the form their specs present |
| PodReparse.ParsedSettles | src/wyreplumber/spa_pod.py:61-328 | whatever parses has an inferred type, and is canonical for it and for its own type exactly under that condition, by induction over all containers of any bytes |
| PodReparse.StringArrayIff | src/wyreplumber/spa_pod.py:727-758 | any parsed array of strings builds again, and then comes back, exactly when every string and its terminator fill the slot |
| PodLayout.EmptyAndBooleans | src/wyreplumber/spa_pod.py:664-667 | None is an empty pod of type 1, a boolean four bytes of type 2, each with size, type and zero padding in their places |
| PodLayout.Integers | src/wyreplumber/spa_pod.py:904-947 | an integer is written in four bytes of type 4 if it fits in 32 bits, in eight of type 5 if it fits in 64, and is refused otherwise, in two's complement and least byte first; an enumeration member is four unsigned bytes of type 3 |
| PodLayout.Floats | src/wyreplumber/spa_pod.py:674-675 | a float is written in four bytes of type 6 |
| PodLayout.StringsAndBytes | src/wyreplumber/spa_pod.py:678-690 | a string is its bytes and a NUL, type 8; bytes and bitmaps are written as they are, types 9 and 12 |
| PodLayout.Pairs | src/wyreplumber/spa_pod.py:682-687 | rectangles and fractions are two words of types 10 and 11, width first and numerator first, refused out of range |
| PodLayout.Pointers | src/wyreplumber/spa_pod.py:885-890 | a pointer is its type, a zero word and its eight-byte address, type 17 |
| PodLayout.TypedWords | src/wyreplumber/spa_pod.py:666-671 | an integer written with a given type 2, 3 or 4 is that boolean, id or int |
| PodLayout.TypedLongs | src/wyreplumber/spa_pod.py:672-702 | and with type 5 or 18 its eight bytes; a double is eight bytes of type 7 |
| PodLayout.StructPods | src/wyreplumber/spa_pod.py:761-767 | a struct or a plain list is type 14 around its items' pods, each as it is built alone, in order |
| PodLayout.ArrayPods | src/wyreplumber/spa_pod.py:727-758 | an array is type 13: the size and the type of the items, declared or those of the first item, and then their bodies without padding, all of that size |
| PodLayout.ChoicePods | src/wyreplumber/spa_pod.py:770-804 | a choice is type 19: kind and flags, then the same as an array |
| PodLayout.SequencePods | src/wyreplumber/spa_pod.py:866-882 | a sequence is type 16: the unit, a zero word, and for each control its offset, its kind and its value's pod |
| PodLayout.ObjectPods | src/wyreplumber/spa_pod.py:807-863 | an object is type 15: its type and id, and for each property its number, its flags and the pod of the prepared value |
| PodLayout.PropertyWritten | src/wyreplumber/spa_pod.py:837-863 | that number is the key itself, the object's own number for the name, or the table's; the value is what the spec of that number prepares; the pod type is the declared one unless the value has its own or none is declared |
| PodLayout.EmbeddedPods | src/wyreplumber/spa_pod.py:893-901 | an embedded pod is type 20 around the pod of the value |
| PodLayout.EmbeddedBytes | src/wyreplumber/spa_pod.py:893-901 | raw bytes are kept as far as their own header declares, rounded up to eight |
| PodLayout.BuildRefusals | src/wyreplumber/spa_pod.py:650-708 | raw bytes without a header, an empty array of no type and a plain mapping do not build |
| PodLayout.UnknownProperties | src/wyreplumber/spa_pod.py:840-851 | nor does an object whose first property has a name without a number |
| PodLayout.ShortPods | src/wyreplumber/spa_pod.py:41-60 | a buffer without a header, or without the body the header declares, is refused with the error for it |
| PodLayout.ParsedWords | src/wyreplumber/spa_pod.py:59-70 | types 1, 2, 3, 4 and 6 parse to nothing or to their four bytes' value, signed for 4, whatever size is declared, and are refused when these bytes are not there |
| PodLayout.ParsedLongs | src/wyreplumber/spa_pod.py:67-99 | types 5, 7 and 18 parse to their eight bytes' value, signed for 5 and 18 |
| PodLayout.ParsedPairs | src/wyreplumber/spa_pod.py:80-313 | types 10 and 11 parse to two words, and a pointer to its type with an address of eight, four or no bytes |
| PodLayout.ParsedBytes | src/wyreplumber/spa_pod.py:73-110 | a string ends at the first NUL of its body; bytes, bitmaps and unknown types keep all of it |
| PropertyForms.PreparesSingle | src/wyreplumber/spa_pod.py:364-395 | a value without a spec, or with a plain one, is written as it is; a mapping with a pod type marker is refused here |
| PropertyForms.ArrayForms | src/wyreplumber/spa_pod.py:364-395 | a list on an array property becomes an array of type 4, 6 or 3 |
| PropertyForms.ChoiceForms | src/wyreplumber/spa_pod.py:364-395 | alternatives without a type of their own take the property's, or 3 for enumerated properties |
| PropertyForms.DictInfoForms | src/wyreplumber/spa_pod.py:470-478 | a mapping of strings, and no other, becomes a struct of its number of entries and then keys and values in turn |
| PropertyForms.ParamsForms | src/wyreplumber/spa_pod.py:496-504 | a mapping becomes a struct of keys and values in turn |
| PropertyForms.LabelsForms | src/wyreplumber/spa_pod.py:521-534 | a list of labels becomes a struct of values and texts in turn exactly when each entry is a mapping or a pair |
| PropertyForms.ClassesForms | src/wyreplumber/spa_pod.py:578-602 | a list of classes becomes a struct of their number and, for each, name, count, property and the devices as an array of type 4 |
| PropertyForms.ObjectForms | src/wyreplumber/spa_pod.py:605-629 | a mapping on a nested-object property becomes an object of type 0x40002 and id 2, or 0x40003 and id 4, with its entries in order, clear flags, and the numbers its table knows |
| PropertyForms.ReadsDictInfo | src/wyreplumber/spa_pod.py:457-467 | a parsed struct is presented as a mapping of strings exactly when the number in front is that of the pairs and all of these are strings, each key with its last value, and is left a struct otherwise |
| PropertyForms.ReadsParams | src/wyreplumber/spa_pod.py:481-493 | the same of pairs without a number, whose keys alone must be strings |
| PropertyForms.ReadsLabels | src/wyreplumber/spa_pod.py:507-518 | a parsed struct is presented as a list of value and label mappings exactly when every second item is a string |
| PropertyForms.ReadsMembers | src/wyreplumber/spa_pod.py:430-438 | a number or boolean on an enumerated property is presented as the member with it, if there is one |
| PropertyForms.ReadsNumbers | src/wyreplumber/spa_pod.py:398-427 | a parsed array is presented as the list of its numbers, or of members where they are members, and refused with any other item |
| PodExactness.CanonicalIff | src/wyreplumber/spa_pod.py:650-708 | the normal form of a value is the value itself exactly when it is canonical, by induction over nested arrays, choices, structs, objects, sequences and embedded pods |
| PodRawBytes.RawBytesNeverReturn | src/wyreplumber/spa_pod.py:893-901 | a value that builds and holds raw bytes as an embedded pod, at any depth, never comes back unchanged |
| PodRawBytes.NeverReturns | src/wyreplumber/spa_pod.py:41-328 | the same of every body wherever it lies, by induction over arrays, choices, structs, sequences, objects and embedded pods |
| PodRawBytes.SlotReflects | src/wyreplumber/spa_pod.py:340-395 | a property value shown as itself was parsed as exactly what was built for it, unless that holds no raw bytes |
| PodExactness.SlotIff | src/wyreplumber/spa_pod.py:340-395 | for every property spec, what is prepared for the wire, normalized and specialized again is the original value exactly when the value is in the form the spec presents |
| PodExactness.ParamsIff | src/wyreplumber/spa_pod.py:481-504 | a params struct comes back as the same mapping exactly when its entries are canonical |
| PodExactness.LabelsIff | src/wyreplumber/spa_pod.py:507-534 | a list of labels comes back unchanged exactly when each label has the canonical two entries |
| PodSlots.ClassesIff | src/wyreplumber/spa_pod.py:537-602 | a list of profile classes comes back unchanged exactly when each class is canonical |
| PodSlots.DictInfoIff | src/wyreplumber/spa_pod.py:457-478 | a dict-info struct comes back as the same mapping exactly when its keys are distinct and plain and its values strings |
| PodSlots.CountedAndUncounted | src/wyreplumber/spa_pod.py:537-575 | the counted and the uncounted profile-classes struct of the same entries decode to one and the same list exactly when there are entries and all are class structs, and the list is the counted form's |
| PodSlots.ClassEntriesIff | src/wyreplumber/spa_pod.py:554-575 | entries read as classes, one for one and field for field, exactly when all of them are class structs |
| PodSlots.NoClassEntries | src/wyreplumber/spa_pod.py:541-543 | with no entries the counted form reads as the empty list and the uncounted one is left a struct |
| PodObjects.AssembleIff | src/wyreplumber/spa_pod.py:154-218 | the object loop rebuilds a given object from its wire properties exactly when keys are distinct and filed where parsing files them, flags and numeric keys name just these, and the values agree |
| PodLoops.ArrayAndChoiceCounts | src/wyreplumber/spa_pod.py:113-135 | on any bytes an array or choice body with items of a positive size c yields exactly floor((size-8)/c) or floor((size-16)/c) items unless one fails, and none for size zero |
| PodLoops.ItemCount | src/wyreplumber/spa_pod.py:237-241 | the item loop takes as many items as fit and no more |
| PodLoops.PodsLieInside | src/wyreplumber/spa_pod.py:138-151 | on any bytes the pods of a struct body lie inside it one after the other, header and declared body, each smaller than it, and the items are what they parse to |
| PodLoops.PropertiesLieInside | src/wyreplumber/spa_pod.py:174-193 | the same of an object's properties, each with the key and flags before its pod and showing what the pod parses to |
| PodLoops.ControlsLieInside | src/wyreplumber/spa_pod.py:282-296 | the same of a sequence's controls, each with the offset and kind before its pod |
| PodLoops.EmbeddedLiesInside | src/wyreplumber/spa_pod.py:316-328 | an embedded pod that parses lies inside the body and is smaller than it |
| PodLoops.ItemsLieInside | src/wyreplumber/spa_pod.py:113-135 | the items of an array are parsed from successive windows inside the body, each smaller than it |
| PodLoops.AlternativesLieInside | src/wyreplumber/spa_pod.py:221-249 | the same of the items of a choice, after its kind and flags |
| PodLoops.ParseItemLoop | src/wyreplumber/spa_pod.py:113-135 | the item loop, moving `current`, computes the recursive parse of the items |
| PodLoops.ParseStructLoop | src/wyreplumber/spa_pod.py:138-151 | the struct loop computes the recursive parse of a struct body |
| PodLoops.ParsePropertyLoop | src/wyreplumber/spa_pod.py:174-211 | the loop over an object's properties, filing each in the growing object, computes the assembly of the properties parsed recursively, or the first error |
| PodLoops.ParseObjectLoop | src/wyreplumber/spa_pod.py:154-218 | with its head before the property loop, the object parser computes the recursive parse of an object body |
| PodLoops.ParseSequenceLoop | src/wyreplumber/spa_pod.py:273-298 | the control loop computes the recursive parse of a sequence body |
| PodLoops.BuildItemLoop | src/wyreplumber/spa_pod.py:727-758 | the item loop of arrays and choices, with its equal-size check, computes the recursive build |
| PodLoops.BuildPropertyLoop | src/wyreplumber/spa_pod.py:807-863 | the property loop computes the recursive build of an object's properties |
| PodLoops.BuildControlLoop | src/wyreplumber/spa_pod.py:866-882 | the control loop computes the recursive build of a sequence |
| PodShapes.PrepareSize | src/wyreplumber/spa_pod.py:364-395 | preparing a property value never makes it bigger in the measure by which building terminates |
| PodObjectClass.TableHolds | src/wyreplumber/_spa_pod_types.py:887-890 | a table made of specs with distinct keys and names finds each by both, and is valid |
| PodObjectClass.SpaPodObject.SetItem | src/wyreplumber/_spa_pod_types.py:768-773 | storing a property files it under its stored key with its flags and numeric key, leaves every other one alone, and keeps the object well kept |
| PodObjectClass.StoringKeeps | src/wyreplumber/_spa_pod_types.py:768-773 | after an assignment stored keys are still distinct, stored where their number is stored, and each has its flags and, if its name is known, its numeric key |
| PodObjectClass.SpaPodObject.GetItem | src/wyreplumber/_spa_pod_types.py:750-766 | reads the value stored under a key by name or by number |
| PodObjectClass.SpaPodObject.DelItem | src/wyreplumber/_spa_pod_types.py:775-780 | removes a property with its flags and numeric key and nothing else, or reports that there is none |
| PodObjectClass.TypedObjectReturns | src/wyreplumber/_spa_pod_types.py:765-780 | a typed object filled by assigning and deleting items comes back with id, values, flags and numeric keys exactly when its values are in the form their specs present |
| PodObjectClass.AnyObjectReturns | src/wyreplumber/_spa_pod_types.py:694-721 | an object constructed with any flags and numeric keys comes back exactly when, besides, these name just its properties and each is filed where parsing files it |
| Events.RequireContinuity | src/wyreplumber/runtime/events.py:151-185 | an event continues a position exactly when it has its generation, the next number and no demand for a snapshot |
| Events.ContinuityErrorsIff | src/wyreplumber/runtime/events.py:151-185 | which error it is otherwise: another generation before a gap, and a gap before a demand for a snapshot |
| EventStream.DeliveryOrder | native/wp_connection/runtime_events.c:257-328 | in every run delivered pairs (generation, sequence) strictly increase, none is a snapshot's pair, and the queue stays within capacity |
| EventStream.OneOverflowBetweenCaptures | native/wp_connection/runtime_events.c:312-328 | between two captures at most one discontinuity enters the queue, and the invalid flag says exactly whether one has |
| EventStream.SafeStep | native/wp_connection/capture_runtime.c:585-611 | every step, capture included, keeps the queue ordered, bounded and made only of events recorded under their own number |
| EventStream.PublishIff | native/wp_connection/runtime_events.c:257-328 | a publication always spends one number; the event is appended, replaced by a discontinuity under its number that empties the queue, dropped, or lost, exactly as memory, the two flags and the room decide |
| EventStream.StepsIff | native/wp_connection/capture_runtime.c:585-611 | a capture takes the next number and empties the queue, installing restarts the numbers of a new generation, and a read takes a prefix of the queue, all of it for zero |
| Projections.NoSilentLoss | examples/runtime_orchestration.py:68-120 | after every run the client's projection is its snapshot folded with exactly the events numbered from the snapshot to the projection's own number, all of them ordinary: it holds an object in a state exactly when the last of them that writes or removes the object writes that state, or none does and the snapshot holds it |
| Projections.ReplayIff | examples/runtime_orchestration.py:68-79 | the same of any snapshot and any entries: present with a state exactly when that is the last thing said of the key |
| Projections.FoldIff | examples/runtime_orchestration.py:96-104 | a drain is folded in exactly when each event of it is of the generation and is covered already or the next number without a demand for a snapshot, and then reaches the highest number |
| Projections.DrainIff | examples/runtime_orchestration.py:90-109 | a drain gives a view of the captured snapshot, leads to another attempt, or raises and leaves the old view, exactly as its events are valid and fit |
| Projections.CaptureIff | examples/runtime_orchestration.py:90-95 | a client's capture spends a number and becomes the candidate unless it fails or does not decode |
| Projections.NextIff | examples/runtime_orchestration.py:111-120 | a read asks for a new snapshot exactly when it gets a valid event that is not the successor, and otherwise moves on by one or not at all |
| Projections.LossIsNeverSkipped | examples/runtime_orchestration.py:68-120 | a number spent on an overflow, a failed allocation, another capture or an invalidating event is never passed by a projection resting on the same snapshot |
| Projections.RefusalMeansLoss | examples/runtime_orchestration.py:111-120 | continuity is refused only when something after the projection was lost or the generation moved |
| Projections.ResnapshotCatchesUp | examples/runtime_orchestration.py:90-109 | a resnapshot followed by ordinary events only succeeds at once and brings the client level with the connection |
| Projections.FoldReaches | examples/runtime_orchestration.py:96-104 | folding in everything an intact history still holds is never refused and reaches its last number |
| RuntimeClients.RuntimeProjection.Apply | examples/runtime_orchestration.py:68-79 | applies exactly the successor, or changes nothing and reports the continuity error; after an accepted removal the object is gone, after any other event with a current state it has exactly that state, and every other object is as before |
| RuntimeClients.RuntimeProjection.Fold | examples/runtime_orchestration.py:96-104 | the drain loop computes the fold the guarantees are about |
| RuntimeClients.RuntimeClient.Resnapshot | examples/runtime_orchestration.py:90-109 | the loop takes its view from the first attempt that succeeds, retries on continuity errors only, and keeps the old view when it raises |
| NativeConnection.WpConnection.NewEvent | native/wp_connection/runtime_events.c:257-287 | spends the next number even when the payload cannot be built |
| NativeConnection.WpConnection.Enqueue | native/wp_connection/runtime_events.c:290-328 | a closed or invalid queue refuses; a full one is cleared and holds just a discontinuity with the event's number; otherwise the event is appended |
| NativeConnection.WpConnection.CommitCapture | native/wp_connection/capture_runtime.c:585-611 | a capture takes the next number, empties the queue and makes it valid, or changes nothing |
| NativeConnection.WpConnection.NextPayload | native/wp_connection/runtime_events.c:531-583 | a read that does not wait removes and returns the first event |
| NativeConnection.WpConnection.DrainPayloads | native/wp_connection/runtime_events.c:586-617 | removes and returns the first `max` events in order, all of them for zero |
| NativeConnection.WpConnection.PublishConnection | native/wp_connection/runtime_events.c:487-505 | without a health record nothing is published and no number is spent; without a payload the number is spent |
| NativeConnection.ConnectionEvents | native/wp_connection/runtime_events.c:487-505 | a connection event says "connection changed" with the state, under the next number, and asks for no snapshot |
| NativeConnection.WpConnection.OnManagerInstalled | native/wp_connection/wp_connection.c:177-191 | moves the generation, restarts sequence and dispatch order in one region, then publishes "connected" as far as memory allows |
| NativeConnection.WpConnection.OnCoreDisconnected | native/wp_connection/wp_connection.c:158-175 | empties the ledger, and unless stopping cancels the queue and publishes as far as memory allows, then drops the manager |
| NativeConnection.WpConnection.EnqueueMutation | native/wp_connection/mutation_dispatch.c:1127-1153 | rejects at once when stopped or of another generation, otherwise numbers, queues and schedules |
| NativeConnection.WpConnection.DispatchNext | native/wp_connection/mutation_dispatch.c:539-578 | one run of the idle source is pop, check and execute, complete, reschedule |
| NativeConnection.WpConnection.CancelPending | native/wp_connection/mutation_dispatch.c:1160-1179 | completes the queued calls front to back with the reason and leaves the queue empty |
| NativeConnection.WpConnection.BeginReconnect | native/wp_connection/lifecycle.c:26-54 | refused once stopping, changing nothing; otherwise cancels the queue as lost and remembers the generation to move past |
| NativeConnection.WpConnection.RequestStop | native/wp_connection/lifecycle.c:110-119 | sets the stop flag and drains the queue |
| NativeConnection.WpConnection.StopOnThread | native/wp_connection/lifecycle.c:96-107 | disconnects without cancelling again, publishes "stopped" as far as memory allows and closes the queue |
| DispatchRuns.CompletedExactlyOnce | native/wp_connection/mutation_dispatch.c:507-578 | in every interleaving an admitted call with a result was completed exactly once, and one without is in the queue exactly once or held by the dispatcher |
| DispatchRuns.ResultIsFinal | native/wp_connection/mutation_dispatch.c:507-522 | a result once given never changes |
| DispatchRuns.QueueIsServed | native/wp_connection/mutation_dispatch.c:525-536 | at most one dispatch source exists, and a non-empty queue has one or a dispatch under way |
| DispatchRuns.QueueDrains | native/wp_connection/mutation_dispatch.c:539-578 | left alone, the dispatcher answers every call, one turn of four regions each |
| DispatchRuns.NothingQueuedAfterDrain | native/wp_connection/lifecycle.c:110-135 | after stop's drain no call is ever queued again |
| DispatchRuns.ExecutionOrder | native/wp_connection/mutation_dispatch.c:550-569 | every execution happens in the generation its call was queued in and expected and at its expected number, in increasing (generation, order); a call has an operation's answer exactly when it was executed |
| DispatchRuns.OrderIsRank | native/wp_connection/mutation_dispatch.c:1139-1145 | the k-th call admitted in a generation carries order k |
| DispatchRuns.LostGenerationNeverRuns | native/wp_connection/wp_connection.c:177-191 | an admitted call not yet executed when the generation has passed it is never executed in any later run, and no answer it gets is its operation's |
| DispatchRuns.LostIsCancelled | native/wp_connection/mutation_dispatch.c:550-571 | such a call that still waits, queued or popped but not checked, gets no answer in any later run but a cancellation: generation lost or runtime stopped |
| DispatchRuns.LostIsAnswered | native/wp_connection/mutation_dispatch.c:539-578 | and with the dispatcher between turns, one turn for each queued call does give it that answer |
| DispatchRuns.CheckedIsAnswered | native/wp_connection/mutation_dispatch.c:550-578 | a call already checked keeps the result of that check: later runs complete it with just this, or have not completed it yet |
| DispatchRuns.ExecutesIff | native/wp_connection/mutation_dispatch.c:550-569 | a popped call executes exactly when not stopped, the manager is set, the generation is the one it was queued in and expects, and the sequence is the expected one if any; only then is the answer its operation's |
| DispatchRuns.NothingRunsWithoutManager | native/wp_connection/mutation_dispatch.c:557-558 | while the manager is gone and not set again nothing executes, in any run |
| DispatchRuns.OldGenerationNeedsManager | native/wp_connection/wp_connection.c:158-191 | a run after a disconnect executes something in the old generation only if the manager is set again before the generation moves |
| DispatchRuns.CanRunIff | native/wp_connection/wp_connection.c:75-117 | from a connection at rest something can still execute in a generation already begun exactly when the manager is set and that generation is the current one |
| DispatchRuns.OldGenerationWindow | native/wp_connection/wp_connection.c:158-191 | after a disconnect nothing of the old generation can run, once the manager is set it can, once the generation has moved it cannot |
| DispatchRuns.ExecutesBeforeInstall | native/wp_connection/wp_connection.c:75-117 | the run that does it, from any connection at rest |
| DispatchRuns.TicketsAccepted | src/wyreplumber/runtime/controls.py:441-491 | the ticket validator accepts what the dispatcher says of any completed call in any run |
| DispatchAnswers.AdmitIff | native/wp_connection/mutation_dispatch.c:1127-1153 | a call is refused as stopped or as of a stale generation exactly when the connection is stopping or not running, or the generation is another; else it gets the next order and is queued last |
| DispatchAnswers.CheckIff | native/wp_connection/mutation_dispatch.c:550-569 | the answer of a popped call, and the position it is checked at: stopped, generation lost, stale generation, stale sequence or the operation's own, each exactly when |
| DispatchAnswers.CancelIff | native/wp_connection/mutation_dispatch.c:1160-1179 | cancelling completes every call still waiting in the queue, and no other, with the reason and the generation, and empties the queue |
| DispatchAnswers.AnswersMean | native/wp_connection/mutation_dispatch.c:507-578 | in every run: stale generation is only answered to calls never queued that expected another generation, stale sequence only where in the call's own generation the number was not the expected one, and an operation's answer only where both were as expected |
| DispatchAnswers.TicketSays | native/wp_connection/mutation_dispatch.c:581-664 | a ticket repeats the call's fields, and its disposition and its failure code say exactly which result it was |
| Outcomes.TicketAcceptedIff | native/wp_connection/mutation_dispatch.c:581-664 | dispositions and failure codes always fit each other; only a ready ticket without an order would be refused |
| Optimistic.GuardedExecution | src/wyreplumber/runtime/controls.py:640-695 | in every run a control given (g, s) that executed did so in generation g when exactly s + 1 numbers had been issued, the last one its own preflight |
| Optimistic.NothingInBetween | src/wyreplumber/runtime/controls.py:640-695 | when a guarded control executes, a faithful projection at its position holds every event of the generation but the control's own capture |
| EndToEnd.ActsOnWhatItSaw | examples/runtime_orchestration.py:122-136 | in every run of connection, client and controls together, when a control the client began executes, the history of its generation is what the client's faithful projection stood for when it began, followed by the control's own capture |
| EndToEnd.ClientStaysFaithful | examples/runtime_orchestration.py:68-120 | in the same runs the client's projection stays faithful whatever the controls capture and dispatch |
| Optimistic.UndisturbedExecutes | src/wyreplumber/runtime/controls.py:687-695 | a guarded control that nothing disturbs does execute |
| Ledger.EntriesRecordCreates | native/wp_connection/mutation_dispatch.c:170-185 | in every run the entry of an identity that no create runs into is the latest create executed for it since the last disconnect |
| Ledger.PlainApart | native/wp_connection/mutation_dispatch.c:77-79 | if no owner holds U+001F, no create runs into another identity |
| Ledger.StoredIff | native/wp_connection/mutation_dispatch.c:351-446 | an entry is stored exactly when the endpoints exist, no bound link has the topology or the identity, and the factory makes the link |
| Ledger.CheckLinksIff | native/wp_connection/mutation_dispatch.c:351-399 | the preflight is a conflict exactly when a bound link has the topology or the identity but not both, or two have both |
| Ledger.CreateAnswersIff | native/wp_connection/mutation_dispatch.c:402-446 | a create answers target not found exactly when one of the four endpoints is missing; ownership conflict exactly when a bound link has the topology or the identity without the other or two have both; native rejected exactly when no bound link has either and the factory fails; and ready otherwise |
| Ledger.RemoveAnswersIff | native/wp_connection/mutation_dispatch.c:449-475 | a remove destroys exactly the first link with the id if the identity's entry has its endpoints, conflicts exactly if it has not, and is ready with nothing to do exactly when there is no such link |
| Ledger.RemoveMatchesRecord | native/wp_connection/mutation_dispatch.c:449-475 | in every run none of whose creates runs into the identity, a remove requests destruction only of a live link with the given id and the endpoints of the identity's latest create |
| Ledger.DestroysOwnIff | native/wp_connection/mutation_dispatch.c:449-475 | a remove, given whatever id, destroys only the link its entry's create made exactly when no other live link within reach lies on the recorded endpoints |
| Ledger.ForeignLinkDestroyed | native/wp_connection/mutation_dispatch.c:147-167 | a create whose link leaves without its properties keeps its entry, and a remove then destroys any foreign link on those endpoints |
| Ledger.KeyCollisionIff | native/wp_connection/mutation_dispatch.c:77-79 | two identities share a key exactly when equal or one owner runs into the other's id at a separator |
| Ledger.SeparatorConfuses | native/wp_connection/mutation_dispatch.c:100-106 | after one create with a separator in its owner, a remove for an identity nobody created reaches its link |
| Ledger.StoreKeepsOneIff | native/wp_connection/mutation_dispatch.c:170-185 | storing keeps one entry per topology exactly when no other identity has those endpoints |
| Ledger.CreateBreaksOneIff | native/wp_connection/mutation_dispatch.c:351-446 | a create whose link is made ends with two entries for one topology exactly when the endpoints exist, another identity's entry has them, and no bound link clashes |
| Ledger.ContestedByKey | native/wp_connection/mutation_dispatch.c:351-399 | that another identity holds the topology does not depend on the table's iteration order |
| Ledger.TwoOwnersOneTopology | native/wp_connection/mutation_dispatch.c:402-446 | two creates for one topology before its link is bound both store |
| Ledger.BoundRunsKeepOne | native/wp_connection/mutation_dispatch.c:351-446 | in every run in which each create finds the links of all entries bound, the ledger keeps one entry per topology |
| Ledger.ForgetsAllIff | native/wp_connection/mutation_dispatch.c:147-167 | forgetting a topology leaves no entry for it exactly when there was at most one |
| Ledger.OrderIrrelevant | native/wp_connection/mutation_dispatch.c:124-167 | with one entry per topology, lookup and forget do not depend on the table's iteration order |
| NativeConnection.WpConnection.PreflightLinks | native/wp_connection/mutation_dispatch.c:351-399 | the scan over links and table entries computes the preflight |
| NativeConnection.WpConnection.ExecuteCreate | native/wp_connection/mutation_dispatch.c:402-446 | answers as specified and replaces the entry exactly when a link was made |
| NativeConnection.WpConnection.ExecuteRemove | native/wp_connection/mutation_dispatch.c:449-475 | answers as specified, and reports the link whose destruction it requests |
| NativeConnection.WpConnection.ForgetEndpoints | native/wp_connection/mutation_dispatch.c:147-167 | removes the first entry with the endpoints in iteration order and no other |
| RuntimeQueue.NothingLostUnnoticed | src/wyreplumber/runtime/queue.py:86-204 | since the last reset the consumer accepted a prefix of what was offered without a gap, refused at most one event, and while the queue is open and asks for no resnapshot nothing offered is missing |
| RuntimeQueue.SuccessorOrRefused | src/wyreplumber/runtime/queue.py:130-163 | every event a consumer gets is its exact successor, or the single one that asks for a resnapshot |
| RuntimeQueue.ResnapshotIff | src/wyreplumber/runtime/queue.py:86-128 | an open queue starts to ask for a resnapshot exactly when an offered event breaks its run or finds no room |
| RuntimeQueue.PublishIff | src/wyreplumber/runtime/queue.py:86-128 | an event is taken exactly while the queue is open and asks for no resnapshot; a fitting one is appended, one that asks for a snapshot stands alone, and for any other a discontinuity under its number does |
| RuntimeQueue.GetIff | src/wyreplumber/runtime/queue.py:130-166 | what a read gives, exactly when, and that it removes just the event it gives |
| RuntimeQueue.ResetIff | src/wyreplumber/runtime/queue.py:168-181 | a reset fails exactly when the queue is closed |
| RuntimeQueue.RuntimeEventQueue.PublishEvent | src/wyreplumber/runtime/queue.py:86-128 | publication takes exactly the specified step and says whether the event was taken |
| RuntimeQueue.RuntimeEventQueue.GetNoWait | src/wyreplumber/runtime/queue.py:130-166 | a read removes the first event, or distinguishes closed, resnapshot needed and empty |
| RuntimeQueue.RuntimeEventQueue.ResetTo | src/wyreplumber/runtime/queue.py:168-181 | a reset discards the deltas and moves to the given position, unless closed |
| ConfirmedMutation.DispatchedIff | src/wyreplumber/runtime/controls.py:617-697 | exactly one request is dispatched when the request is not expired, stale, refused an observation or already satisfied and the preflight could be read, otherwise none; a guarded one carries the preflight's number |
| ConfirmedMutation.ConfirmedMeansObserved | src/wyreplumber/runtime/controls.py:666-738 | confirmed means one confirmation per condition, all from one snapshot of the expected generation that satisfies them: the preflight with nothing dispatched, or one captured after the one dispatch |
| ConfirmedMutation.ReturnsIff | src/wyreplumber/runtime/controls.py:617-738 | an execution ends in an outcome, and one its constructor accepts, exactly unless the polling loop, the preflight or the ticket meets a fault: a capture that is read in time and fails without a message or does not convert, a refused observation, or a ticket its constructor refuses |
| MutationEndings.EndingsIff | src/wyreplumber/runtime/controls.py:617-738 | each ending by status, phase and code, exactly when: confirmed, timed out before the dispatch or over open captures, cancelled with the generation lost or the runtime stopped, failed internally or rejected natively, or an exception, as the clock, the preflight, the ticket and the first capture that is not open decide |
| MutationEndings.RejectionsIff | src/wyreplumber/runtime/controls.py:644-665 | each rejection, exactly when: a stale generation or sequence of the preflight, or what the native side answered |
| MutationEndings.FailureCarries | src/wyreplumber/runtime/controls.py:1942-1967 | the confirmations a failure carries are those of the last snapshot before it, and it is retryable exactly when the native side cancelled the request because its generation was lost |
| MutationEndings.SaysIff | src/wyreplumber/runtime/controls.py:1916-1939 | a message counts as a stop exactly when it contains the words in any case |
| MutationEndings.ConfirmationsInOrder | src/wyreplumber/runtime/controls.py:1804-1821 | exactly the satisfied conditions are confirmed, in their order, each with the number and the observation of the snapshot |
| ConfirmedMutation.PollRaisesIff | src/wyreplumber/runtime/controls.py:698-738 | the polling loop raises exactly when it reaches a faulty capture: the clock has not expired, and every capture before was of the expected generation and left a condition open |
| ConfirmedMutation.RaisesAfterDispatch | src/wyreplumber/runtime/controls.py:708-715 | after a ready ticket, a first capture that fails without a message or does not convert ends the call without an outcome although its request was dispatched |
| ConfirmedMutation.MethodRaises | src/wyreplumber/runtime/controls.py:1849-1851 | a PRESENT condition on the defaults field `to_dict` raises in the preflight, with nothing dispatched |
| ConfirmedMutation.ConfirmationsIff | src/wyreplumber/runtime/controls.py:1804-1821 | confirmations are as many as conditions exactly when the snapshot satisfies them all, then one each in order |
| ConfirmedMutation.TicketReturns | src/wyreplumber/runtime/controls.py:1885-1913 | every accepted ticket that is not ready becomes an outcome its constructor accepts |
| ConfirmedMutation.Run | src/wyreplumber/runtime/controls.py:617-738 | the polling loop ends under a clock that reaches the deadline, with the ending and the dispatches that `EndingsIff`, `RejectionsIff` and `DispatchedIff` pin down |
| ConfirmedMutation.CollectConfirmations | src/wyreplumber/runtime/controls.py:1804-1821 | the loop over conditions computes the specified confirmations |
| Observations.SelectsById | src/wyreplumber/runtime/controls.py:1872-1882 | a target by number selects exactly the node, device or port the collection holds under that id |
| Observations.SelectsByKey | src/wyreplumber/runtime/controls.py:1838-1848 | a profile, route or parameter selector selects exactly the object the collection holds under that key, whatever the kind of the target |
| Observations.LastEntryIff | src/wyreplumber/runtime/controls.py:1852-1871 | a metadata target selects the last entry for its subject and key, and nothing exactly when there is none |
| ObservationLaws.ResolveIff | src/wyreplumber/runtime/controls.py:2017-2030 | a path resolves to a value exactly when its names and positions lead there one by one |
| ObservationLaws.PresentIff | src/wyreplumber/runtime/controls.py:202-217 | present means that the path leads to something other than null, and absent is its opposite |
| ObservationLaws.ComparesIff | src/wyreplumber/runtime/controls.py:202-217 | equality and nearness hold exactly of the value the path leads to, and fail where it leads nowhere |
| ObservationLaws.ScalarsSame | src/wyreplumber/runtime/controls.py:2033-2036 | numbers are equal by value whatever their kind, flags as 0 and 1, text as text, null as null, and none of these with another |
| ObservationLaws.ObjectsSame | src/wyreplumber/runtime/_immutable.py:14-107 | objects are equal when one has the members of the other in any order |
| ObservationLaws.NumbersNear | src/wyreplumber/runtime/controls.py:213-216 | nearness holds of numbers within the tolerance, and of no flag, text or null |
| ObservationLaws.SelectsFurther | src/wyreplumber/runtime/controls.py:1872-1882 | a target by number selects exactly the link or the metadata object held under that id |
| ObservationLaws.SelectsDefaults | src/wyreplumber/runtime/controls.py:1849-1851 | a defaults selector finds a declared field exactly when it is set |
| ManagedLinks.CreateDispatchesIff | src/wyreplumber/runtime/controls.py:1569-1666 | a create reaches dispatch exactly when the fresh preflight has the four endpoints with matching nodes and directions, no link of that identity and no link with those endpoints, in time |
| ManagedLinks.RemoveDispatchesIff | src/wyreplumber/runtime/controls.py:1669-1718 | a removal dispatches exactly one request, holding the id of the one link of the identity in the fresh preflight, when there is just one, in time and not stale, and otherwise nothing |
| ManagedLinks.RemovalReachesLink | native/wp_connection/mutation_dispatch.c:449-475 | when that request is executed on the ledger of any run, the link destroyed, if any, is a live one with the id the preflight saw and the endpoints of the identity's latest create |
| LinkEndings.CreateRefusedIff | src/wyreplumber/runtime/controls.py:1569-1666 | a create is refused before dispatch as target not found, target changed or ownership conflict exactly when an endpoint is missing, misplaced, or the identity or the topology is taken; in every other case the confirmed mutation runs on that preflight |
| LinkEndings.RemoveRefusedIff | src/wyreplumber/runtime/controls.py:1669-1718 | a removal is refused exactly when two links bear the identity in a current preflight |
| ManagedLinks.CreateSatisfiedIff | src/wyreplumber/runtime/controls.py:1608-1616 | the four endpoint conditions hold exactly when one link bears the identity and has the endpoints |
| RuntimeSnapshots.ConstructIff | src/wyreplumber/runtime/models.py:533-600 | construction succeeds exactly when generations agree, no key repeats and a supplied list is empty or the computed one; the indexes mirror the collections, and rebuilding from the contents and the computed list gives the same snapshot |
| SnapshotRecords.RestoredSnapshot | src/wyreplumber/runtime/models.py:597-600 | every snapshot a constructor builds serializes to a record that decodes to itself exactly when no plain mapping in it carries both markers, and then the snapshot restored from it has the same contents, indexes and unresolved list |
| RuntimeSnapshots.CoherentIff | src/wyreplumber/runtime/models.py:629-784 | the unresolved list is empty exactly when every reference leads to an object in the collections with the right owner and direction |
| UnresolvedEntries.EntriesIff | src/wyreplumber/runtime/models.py:629-784 | the list holds exactly the references of the snapshot's objects that lead nowhere or to the wrong object, each with its own source, target and reason |
| UnresolvedEntries.DeviceListedIff | src/wyreplumber/runtime/models.py:651-660 | a device's parameter, profile or route is listed exactly when the device names it and the collections lack it |
| UnresolvedEntries.NodeListedIff | src/wyreplumber/runtime/models.py:662-667 | a node's device or parameter is listed exactly when the node names it and it is absent |
| UnresolvedEntries.NodePortsListedIff | src/wyreplumber/runtime/models.py:668-674 | a node's port is listed as absent exactly when the node names it and there is no such port |
| UnresolvedEntries.NodeMisplacedIff | src/wyreplumber/runtime/models.py:668-683 | and as wrong exactly when there is one on another node or in another direction |
| UnresolvedEntries.PortListedIff | src/wyreplumber/runtime/models.py:685-690 | a port's node or parameter is listed exactly when the port names it and it is absent |
| UnresolvedEntries.LinkNodesListedIff | src/wyreplumber/runtime/models.py:692-701 | a link's output or input node is listed exactly when a link with that id has that node and no such node exists |
| UnresolvedEntries.LinkPortsListedIff | src/wyreplumber/runtime/models.py:692-701 | the same of its ports |
| UnresolvedEntries.LinkEndpointsListedIff | src/wyreplumber/runtime/models.py:702-727 | a link's endpoint is listed exactly when its port is there but on another node or in another direction |
| UnresolvedEntries.ProfileListedIff | src/wyreplumber/runtime/models.py:729-731 | a profile's device is listed exactly when it is absent |
| UnresolvedEntries.RouteListedIff | src/wyreplumber/runtime/models.py:733-738 | a route's device or profile is listed exactly when it is absent |
| UnresolvedEntries.ParameterListedIff | src/wyreplumber/runtime/models.py:740-765 | a parameter's owner is listed as absent or as of an unsupported kind, exactly when, under the parameter's name with the owner's number in decimal |
| UnresolvedEntries.DefaultsListedIff | src/wyreplumber/runtime/models.py:767-782 | a default's resolved node or the metadata object is listed exactly when it is absent |
| UnresolvedEntries.ListedInOrder | src/wyreplumber/runtime/models.py:651-784 | the list goes through devices, nodes, ports, links, profiles, routes, parameters and defaults in this order |
| RuntimeSnapshots.UniqueIndexIff | src/wyreplumber/runtime/models.py:878-885 | an index exists exactly when no key repeats, and then agrees with linear search |
| RuntimeSnapshots.BuildIndex | src/wyreplumber/runtime/models.py:878-885 | the loop computes the index or finds the duplicate |
| RuntimeSnapshots.FindUnresolvedRelationships | src/wyreplumber/runtime/models.py:629-784 | the loops over the collections compute the unresolved list in order |
| SnapshotPayload.PortReferencesResolveIff | src/wyreplumber/runtime/snapshot.py:135-140 | a node's input references always resolve, and its output references exactly when no port of unknown direction names it |
| SnapshotPayload.PortListsSorted | src/wyreplumber/runtime/snapshot.py:282-309 | a node's port lists are the ascending ids of the ports that name it |
| SnapshotPayload.GroupPorts | src/wyreplumber/runtime/snapshot.py:135-140 | one pass over the ports groups their ids by node and direction |
| SnapshotPayload.ContentsAre | src/wyreplumber/runtime/snapshot.py:117-168 | counters, ports, links, metadata, parameters and defaults are taken over from the payload, and devices and nodes keep their own fields |
| SnapshotPayload.DerivedReferencesResolve | src/wyreplumber/runtime/snapshot.py:247-279 | profile and route references derived for a device always resolve, and list every profile and every route of the device |
| SnapshotPayload.ActiveMerged | src/wyreplumber/runtime/snapshot.py:516-523 | a merged profile or route is a candidate with its key and is active exactly when some candidate was |
| SnapshotPayload.MergedIsChosen | src/wyreplumber/runtime/snapshot.py:516-523 | it is the first active candidate of its key, or the first if none is active |
| SnapshotPayload.MergedInOrder | src/wyreplumber/runtime/snapshot.py:516-523 | keys stand in the order of their first candidates |
| SnapshotPayload.MergeActive | src/wyreplumber/runtime/snapshot.py:516-523 | the merging loop computes the specified dictionary in insertion order |
| Envelopes.EnvelopeRoundTripIff | src/wyreplumber/runtime/models.py:787-861 | a runtime value decodes from its serialized form to an equal value exactly when no plain mapping in it carries both envelope markers |
| Envelopes.RecordReturns | src/wyreplumber/runtime/models.py:50-64 | an envelope comes back exactly when each of its fields does, omitted fields included |
| Envelopes.FrozenReturns | src/wyreplumber/runtime/_immutable.py:14-107 | a mapping comes back exactly when it does not carry both markers and each entry comes back |
| Envelopes.EnvelopeForm | src/wyreplumber/runtime/models.py:50-64 | an envelope begins with version 1 and its kind, and has each field under its name but for those left out as None, and nothing else |
| Envelopes.DecodeRefusals | src/wyreplumber/runtime/models.py:787-823 | an unknown version, then an unknown kind, then an unknown field name is refused with its code; then the first field that fails; then what the constructor refuses |
| Envelopes.FieldsRead | src/wyreplumber/runtime/models.py:815-823 | each decoded field is the supplied one or its default |

## Left out

- Floats: single and double floats are opaque 32- and 64-bit patterns; conversions between them, from integers and to booleans by value are not modelled, and a float of the other width is an error.
- Strings on the wire are byte sequences; UTF-8 decoding with replacement, and `str()` or `bytes()` of values of other types, are not modelled.
- A dictionary with a `_pod_type` key and the typed class stand for one value each; missing `object_type`, `object_id` and choice shorthand keys (`default`, `min`, `max`, `value`) and forced pod types on mappings of another shape are errors here.
- PropertyForms.ArrayForms: bytes, strings and mappings on an array property, which the code takes apart as lists, are errors here.
- Property tables and enumerations are arbitrary valid tables instead of the large constant ones.
- Python compares dictionaries whatever their order; the codec's values and the envelopes' mappings are compared in order, so the round trips here also keep order.
- Counters of 64 bits are unbounded numbers; wrap-around is not modelled.
- Blocking waits, timeouts of reads and of reconnection, and wake-ups: reads do not wait, and reconnection appears as its steps (cancel, disconnect, manager set, generation moved) with no claim that they come.
- Calls are values in a list and the queue holds their indexes, where the C code holds pointers to callers' stack frames; reference counting and the interpreter lock are not modelled.
- The loop also quits when the mixer component fails to load; the constructor then raises and no call is ever made, so the thread's exit appears only after stop's drain.
- Reading from a queue while memory for the result runs out, and what listeners do inside an operation, are not modelled; an operation's answer is a parameter.
- Events carry their state as opaque text; occurrence time, reason text and payload validation beyond the constructor's constraints are left out. A payload the constructor refuses is an event that raises and is gone.
- RuntimeClients.RuntimeClient.Resnapshot: the endless loop runs over a given list of attempts, so nothing is said about how many a client needs.
- NativeConnection.WpConnection.BeginReconnect: does not model the request to the core, the wait for the next generation or its timeout.
- NativeConnection.WpConnection.NextPayload: does not model the blocking form of the read.
- RuntimeQueue.RuntimeEventQueue.GetNoWait: does not model the blocking and timed forms of the read.
- ConfirmedMutation.Run: the clock and the captures are functions of how often they were asked, the ticket of the request; argument validation and the texts of messages are not modelled, only whether a message is empty.
- ManagedLinks.CreateDispatchesIff: a capture that raises at the very start propagates to the caller and is not an outcome; link properties and the range checks of identifiers are left out.
- Observations.SelectsById: objects other than links are serialized by a parameter, which also gives the attributes that the defaults inherit; selector entries of another type count as absent, and a float too large to compare is not modelled.
- SnapshotRecords.RestoredSnapshot: how a record lays out a snapshot's collections is a parameter, of which only that it loses nothing is used.
- Envelopes.EnvelopeRoundTripIff: a constructor is a check on field values that are already normal; normalization of timestamps, enumeration spellings and sequences is left out, as are error paths and messages (the error codes are kept, in declaration order of fields).
- Default targets are given with their resolved node; resolving names from metadata, and mixer-derived parameters, are left out.
- The profile, route, default and stream-target helpers, parameter normalization, the legacy proxy wrappers and the release scripts would only add further users of what is proved here, or input and output.
