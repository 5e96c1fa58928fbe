# Verified models of five parts of V8

A Dafny 4.11 model of the parts of V8's public headers and tools that have complete, non-trivial
bodies, with proofs of what they promise. `dafny verify dfyconfig.toml` checks everything.

**1. Storage cells, handles, containers and weak callbacks.** `Global`, `Persistent`,
`PersistentValueMap`, `GlobalValueMap` and `PersistentValueVector` own storage cells, keep them as
raw addresses, arm them with callback data and receive garbage-collection callbacks in two passes.
The bodies behind `api_internal` (node space, free list, weak states, both callback passes) are
modelled too, from `src/handles/global-handles.cc`; in particular the collector takes a cell out of
the weak state before its callback runs because that code does so, not by assumption.

- `Cells`, `Handles`, `Containers`, `Collector`: every operation as a function from one snapshot
  (`World`) to the next, or `Fault` for a failed CHECK, a null dereference or a use outside a
  lifetime. A handle object is identified by the location of its `val_`, so aliasing is visible.
- `Isolates`: the same operations step by step on a mutable object, loops included. Each method asks
  for the ownership invariant and for what the headers ask of callers, keeps the invariant, and says
  what happens to the values that the embedder sees.
- `Ownership`, `Safety`, `Collection`, `Runs`: the invariant, and that every operation keeps it.
- `Promises`, `Observers`: what follows in every reachable state and over every run.
- `PlainValues`, `Refinement`: the whole protocol refines a memory of plain values, in which a
  handle is an optional object and a map is a map.
- `Weakness`: which handles are weak after each operation and each run, and what a collection empties.
- `Hazards`: runs that break the protocol, with the exact conditions.
- `WeakCallbacks`: how a first-pass callback asks for a second pass.
- `Reentrancy`, `ClearMachine`, `ClearRounds`, `ClearLoop`, `ClearCases`: `Clear` with a `Dispose` that
  calls back into the map. `ClearMachine` says which histories of calls of `Dispose` are possible,
  `ClearLoop` is the loop itself, and `ClearCases` is what embedders see of it.

**2. Tagged words** (`Smi`, `ReturnSlots`, `PointerTags`), **3. running statistics**
(`Statistics`, `Averages`), **4. the BigInt oracle** (`BigIntOracle`) and **5. fast-call
signatures** (`FastCalls`).

Parameters of the model: which nodes a collection looks at and which objects are dead (any choice);
what `Traits::Dispose` does during `Clear` (any function of what has been handed over up to and
including its own entry) and the iteration order of the backing map; the random choices of
`GenRandom`; the lengths of formatted fields in `avg.py`. `Traits` recovers the map and key it was
given; the embedder's part of a first pass (`Dispose`, `OnWeakCallback`) neither calls into V8 nor
keeps its `Global`, as `v8-weak-callback-info.h` demands.

What the proofs found:

- Copying a `Persistent` to itself empties it (`Observers.CopyExactly`).
- A collection that finds a dead entry in the store that a running `Clear` has swapped out fails the
  check that the callback resets its handle; this is the only way a collection can fail
  (`Collection.GcFaultsExactly`, `Hazards.GcDuringClearFaults`).
- A handle made weak without a callback must not be put into a vector or a strong map. In a vector
  its cell is later destroyed twice (`Hazards.AppendKeepsExactly`,
  `Hazards.AppendedPhantomIsDestroyedTwice`). In a strong map the label overwrites the recorded
  location of the handle, and the collection that finds the cell dead writes through the label
  (`Hazards.SetKeepsExactly`, `Hazards.SetPhantomFaults`).
- `Clear` does not hand over what `Dispose` itself puts in and then replaces or removes. Everything
  is handed over exactly if in no round, nested or not, the calls of `Dispose` set a key and then set
  or remove it again with no `Clear` in between (`ClearCases.ClearAll`). The rounds are determined by
  the history, and every finished history comes from some iteration order (`ClearCases.ClearAlong`),
  so `ClearCases.NeverClashes` is the exact condition for this to hold in all orders. A `Dispose` that
  keeps to zones of keys, or that files everything under new keys, meets it if none of its calls
  clashes with itself (`ClearCases.EnoughNotToClash`, `ClearCases.ClearWithRefiling`); one that sets a
  key twice does not (`ClearCases.OverwrittenEntryIsNotHanded`).
- `Clear` ends whenever insertions made by `Dispose` descend in some well-founded grading of the
  insertions in possible histories (`ClearCases.ClearAll`); with a `Dispose` that always puts its entry
  back it never ends in any order (`ClearCases.PuttingBackNeverFinishes`).
- `Arg<N>` with an index beyond the last argument is ignored (`FastCalls.BuilderExactly`). The
  assertion that there is at most one options argument compares the option type with builder types
  and so never sees one: a signature with two of them builds, and then counts the first
  (`FastCalls.TwoOptionsBuild`, `FastCalls.OptionsExcludedExactly`).
- `tools/bigint-tester.py` uses `/` for integer division; the model takes the intended meaning.

## Model

| member | source | states |
|---|---|---|
| `Runs.StepKeeps` | include/v8-util.h:210-333 | every legal operation of handles, maps, vectors and collector runs without a fault and keeps the ownership invariant |
| `Runs.RunKeeps` | include/v8-persistent-handle.h:448-593 | every legal run of operations, of any length, runs without a fault and ends in a state with the invariant |
| `Promises.OneOwner` | include/v8-util.h:304-333 | in every reachable state each cell in use is kept at exactly one place (handle, map entry, swapped-out entry, vector element), and every kept address is a cell in use |
| `Promises.Balanced` | src/handles/global-handles.cc:660-664 | over every run each cell is destroyed as often as created, one time less while it is in use; no cell is destroyed twice |
| `Promises.NothingLeaks` | include/v8-util.h:295 | once all handles and containers are gone no cell is in use, every cell was destroyed once per creation, and all callback data was disposed once or waits for its second pass |
| `Promises.ArmedMeansStored` | include/v8-util.h:391-430 | a cell still armed for key k of a map is the cell stored under k, or the one a running Clear swapped out from under k; never an older value |
| `Promises.StoredMeansArmed` | include/v8-util.h:391-407 | in every reachable state the cell stored under k is armed for k with the callback of its map and the weakness its traits ask for, or is strong and labelled |
| `Promises.ReachableStep` | include/v8-util.h:210-417 | a legal operation in a reachable state does not fault and leads to a reachable state |
| `Promises.DataDisposedOnce` | include/v8-util.h:319-327 | callback data is disposed at most once, and exactly once iff no weak cell carries it and no second pass waits for it; no two cells carry the same data |
| `Promises.CallbacksHitTheirEntries` | include/v8-util.h:420-430 | a collection removes an entry iff its own cell died; PersistentValueMap data is then disposed, GlobalValueMap data waits undisposed for the second pass; other entries keep their cells unchanged |
| `Promises.CycleDisposesAll` | include/v8-util.h:496-510 | DisposeWeak runs only after all first-pass callbacks of the collection, and after the second passes the data of every dead entry has been disposed exactly once |
| `Promises.SecondPassesLog` | src/handles/global-handles.cc:763-767 | the second passes run every queued callback once, last queued first |
| `Collection.GcFaultsExactly` | src/handles/global-handles.cc:824-853 | a collection passes the check that every first-pass callback resets its handle iff no dead cell sits in a swapped-out store; if it passes, the invariant holds again |
| `Collection.GcCollects` | src/handles/global-handles.cc:691-717 | a collection frees exactly the dead weak cells, empties exactly the handles and removes exactly the entries that kept them, and changes no other cell |
| `Collection.FirstPassesKeep` | src/handles/global-handles.cc:836-850 | the first-pass callbacks together free exactly the near-death cells, remove exactly their entries and queue exactly the GlobalValueMap ones |
| `Safety.MapSetKeeps` | include/v8-util.h:391-407 | Set keeps the invariant: the old value leaves its cell disarmed and owned by the result, the new one is armed for its key |
| `Safety.MapRemoveKeeps` | include/v8-util.h:210-212 | Remove keeps the invariant, also for a missing key |
| `Safety.BeginRoundKeeps` | include/v8-util.h:222-225 | swapping the backing map out keeps every cell owned, now by the round |
| `Safety.DrainOneKeeps` | include/v8-util.h:226-229 | releasing one swapped-out entry hands its cell to the disposed handle |
| `Safety.VectorClearKeeps` | include/v8-util.h:628-635 | clearing a vector destroys each of its cells once and keeps the invariant |
| `Ownership.CreateKeeps` | src/handles/global-handles.cc:239-258 | allocation takes a free cell, growing the node space if there is none, and gives it its one owner |
| `Ownership.DestroyKeeps` | src/handles/global-handles.cc:278-289 | freeing a cell puts it on the free list once and takes its owner away |
| `Refinement.StepRefines` | include/v8-util.h:57-78 | each legal operation does to the values of handles, maps and vectors exactly what the plain operation does; a collection takes away exactly the dead weak values |
| `Refinement.RunRefines` | include/v8-util.h:375-417 | every legal run of the cell protocol is a run on plain values: Set and Remove return the old value, moves pass it on, nothing else changes |
| `Observers.MapObservations` | include/v8-util.h:173-197 | Contains holds exactly for the keys of the plain map, Size counts them, and Get and references read the plain value, which is never empty |
| `Observers.ReferenceStaysValid` | include/v8-util.h:273-287 | a saved reference stays equal to GetReference(key) and reads the same object over every run that does not set, remove, clear, destroy or collect that entry; a reference to a missing key stays empty |
| `Observers.SetWithReference` | include/v8-util.h:413-417 | the reference taken from the value before Set is the one GetReference gives afterwards, and reads what the value held |
| `Observers.CopyExactly` | include/v8-persistent-handle.h:462-471 | Copy changes only the target: it holds the value of the source, but a self-copy empties the handle, so the value arrives iff there are two handles or nothing to copy |
| `Observers.MoveAssignExactly` | include/v8-persistent-handle.h:578-593 | move assignment passes the value and its weakness on and empties the source; self-assignment changes nothing |
| `Weakness.StepWeakness` | include/v8-persistent-handle.h:532-593 | what every legal operation does to the set of weak handles: SetWeak adds, ClearWeak removes, moves carry weakness along, collections take out what they empty, and whatever gives a handle a new cell or a container's cell leaves it strong |
| `Weakness.RunWeakness` | include/v8-persistent-handle.h:532-593 | the same over every legal run |
| `Weakness.CollectionEmptiesWeak` | src/handles/global-handles.cc:691-717 | in every reachable state a collection empties exactly the weak handles whose cells it visits and finds dead; all other handles keep their values |
| `Weakness.StrongHandleStays` | src/handles/global-handles.cc:691-717 | a handle that is not weak keeps its value over every legal run that does not change it, whatever the collections in it find dead |
| `Weakness.ClearWeakProtects` | include/v8-persistent-handle.h:537-542 | after ClearWeak the value stays over every such run |
| `Weakness.SetWeakExposes` | include/v8-persistent-handle.h:532-535 | after SetWeak a collection that visits the cell and finds it dead empties the handle, and one that does not leaves its value |
| `Weakness.MovesKeepWeakness` | src/handles/global-handles.cc:649-658 | after both moves the target is weak iff the source was, the source is not, and all other handles stay as they were |
| `Weakness.ResultsAreStrong` | include/v8-util.h:210-212 | copies, refilled handles and what Set, Remove and Clear give back are strong |
| `Hazards.GcDuringClearFaults` | include/v8-util.h:218-230 | in every reachable state, a collection right after Clear has swapped out a weak map faults if an entry is dead |
| `Hazards.AppendKeepsExactly` | include/v8-util.h:591-601 | appending keeps the ownership invariant iff the handle is not weak without a callback |
| `Hazards.AppendedPhantomIsDestroyedTwice` | include/v8-util.h:628-635 | otherwise a collection and the next Clear of the vector destroy the same cell twice, and the second time faults |
| `Hazards.SetKeepsExactly` | include/v8-util.h:391-407 | Set on a strong map keeps the invariant iff the handle is not weak without a callback |
| `Hazards.SetPhantomFaults` | include/v8-util.h:391-407 | otherwise, in every reachable state, the next collection that finds the cell dead faults, because the label has replaced the recorded location |
| `Hazards.PhantomAndStrongMapReachable` | include/v8-persistent-handle.h:532-535 | a concrete legal run ends with such a handle next to a strong map |
| `Hazards.FaultingClearReachable` | include/v8-util.h:218-230 | a concrete legal run ends in such a state: right after the swap, a collection that finds the entry dead faults |
| `Hazards.PhantomReachable` | include/v8-persistent-handle.h:532-535 | a concrete legal run ends with a handle that is weak without a callback, next to a vector |
| `WeakCallbacks.WeakCallbackInfo.constructor` | include/v8-weak-callback-info.h:26-33 | the loop copies the embedder fields into storage of its own |
| `WeakCallbacks.WeakCallbackInfo.SetSecondPassCallback` | include/v8-weak-callback-info.h:45 | writes through to the pending callback, and has nowhere to write in a second pass |
| `WeakCallbacks.Invoke` | src/handles/global-handles.cc:855-866 | the callback is given the parameter and the embedder fields, and a place to write only in a first pass; afterwards the pending callback is the one set last, or none; a second pass crashes iff it sets one |
| `WeakCallbacks.Process` | include/v8-weak-callback-info.h:39-45 | a pending callback runs once, and a second time iff the first pass asked for it, with the callback set last |
| `Isolates.Isolate.constructor` | src/handles/global-handles.cc:608-610 | an isolate starts without cells, handles and containers |
| `Isolates.Isolate.PutNodesOnFreeList` | src/handles/global-handles.cc:260-269 | a block goes on the free list so that its nodes come off in address order, each linked to the next |
| `Isolates.Isolate.NewHandle` | include/v8-persistent-handle.h:379 | a new handle is empty; invariant kept, other values and weak handles unchanged |
| `Isolates.Isolate.NewFromLocal` | include/v8-persistent-handle.h:449-460 | a new strong handle holds the given object, or nothing; invariant kept, other values and weak handles unchanged |
| `Isolates.Isolate.NewFromHandle` | include/v8-persistent-handle.h:398-401 | a new strong handle holds what the other holds; invariant kept, other values and weak handles unchanged |
| `Isolates.Isolate.MoveConstruct` | include/v8-persistent-handle.h:568-576 | value and weakness move to the new handle and the source is empty; invariant kept, the recorded location of a weak cell included |
| `Isolates.Isolate.MoveAssign` | include/v8-persistent-handle.h:578-593 | value and weakness move and the source is empty, except that self-assignment changes nothing; invariant kept |
| `Isolates.Isolate.Copy` | include/v8-persistent-handle.h:462-471 | the target is strong and holds what the source holds, but a self-copy empties the handle; invariant kept |
| `Isolates.Isolate.Reset` | include/v8-persistent-handle.h:481-486 | the handle is empty, its cell freed; invariant kept, other values and weak handles unchanged |
| `Isolates.Isolate.ResetToLocal` | include/v8-persistent-handle.h:492-499 | the handle is strong and holds the given object, or nothing; invariant kept |
| `Isolates.Isolate.SetWeak` | include/v8-persistent-handle.h:532-535 | the handle is weak now; no value changes, and the invariant knows where the weak cell's handle is |
| `Isolates.Isolate.ClearWeak` | include/v8-persistent-handle.h:537-542 | the handle is strong now, so no collection empties it; no value changes; invariant kept |
| `Isolates.Isolate.DestroyHandle` | include/v8-persistent-handle.h:408 | the handle is gone and its cell freed; invariant kept |
| `Isolates.Isolate.NewMap` | include/v8-util.h:290-293 | a new map is empty; invariant kept |
| `Isolates.Isolate.SetUnique` | include/v8-util.h:391-407 | the value of the handle is under the key, the handle is empty and the old value is returned in a strong handle; invariant kept, callback data included |
| `Isolates.Isolate.Remove` | include/v8-util.h:210-212 | the key is gone and its value returned in a strong handle, nothing for a missing key; invariant kept |
| `Isolates.Isolate.BeginRound` | include/v8-util.h:222-225 | the map is empty and its values are in a new round; invariant kept |
| `Isolates.Isolate.DrainOne` | include/v8-util.h:226-229 | one value of the running round is handed over in a strong handle; invariant kept |
| `Isolates.Isolate.EndRound` | include/v8-util.h:226-230 | the finished round is gone; invariant kept |
| `Isolates.Isolate.DestroyMap` | include/v8-util.h:295 | the map is gone; invariant kept |
| `Isolates.Isolate.NewVector` | include/v8-util.h:582 | a new vector is empty; invariant kept |
| `Isolates.Isolate.Append` | include/v8-util.h:599-601 | the value moves from the handle to the end of the vector; invariant kept |
| `Isolates.Isolate.VectorClear` | include/v8-util.h:628-635 | the vector is empty and each of its cells freed once; invariant kept |
| `Isolates.Isolate.DestroyVector` | include/v8-util.h:584-586 | the vector is gone and each of its cells freed once; invariant kept |
| `Isolates.Isolate.Gc` | src/handles/global-handles.cc:691-853 | exactly the values of dead weak cells disappear from handles and maps, and the emptied handles are not weak any more; invariant kept |
| `Isolates.Isolate.SecondPass` | src/handles/global-handles.cc:763-767 | one queued callback runs; no value changes; invariant kept |
| `Isolates.Isolate.IterateWeakRoots` | src/handles/global-handles.cc:711-717 | the loop over nodes computes Collector.Scan on the whole state |
| `Isolates.Isolate.InvokeFirstPassWeakCallbacks` | src/handles/global-handles.cc:824-853 | the loop over pending callbacks computes Collector.FirstPasses on the whole state |
| `Isolates.Isolate.InvokeSecondPassPhantomCallbacks` | src/handles/global-handles.cc:744-772 | the loop runs every queued callback, last queued first, and empties the queue; no value changes; invariant kept |
| `Isolates.Isolate.ExecuteAll` | include/v8-util.h:210-417 | any legal run, executed step by step, neither faults nor breaks the invariant, and leaves the values and the weak handles that the plain run leaves |
| `ClearLoop.ValueMap.Clear` | include/v8-util.h:218-230 | with any re-entrant Dispose whose insertions descend in a grading of insertions by ordinals, and in any iteration order, Clear terminates with an empty map; all entries stay accounted for; every call of Dispose belongs to one round, and something is displaced iff in some round a call touches what an earlier call of the round has put in; for a finite bound there are at most that many rounds |
| `ClearLoop.ValueMap.Round` | include/v8-util.h:222-229 | one round disposes of everything swapped out, what is in the map afterwards ranks below it, and entries stay accounted for; the exact condition for displacing something, its nested rounds included; all this also for a Dispose without a grading, if that does not call Clear |
| `ClearLoop.ValueMap.Dispose` | include/v8-util.h:226-227 | one call of Dispose, nested Clear calls included: its entry counts as handed over and the account of the running round covers all that the call did |
| `ClearLoop.ValueMap.RunScript` | include/v8-util.h:226-227 | all calls that one Dispose makes on the map, in order, with the account of the round kept after each: what is in the map is what the round has put in and not touched since |
| `ClearCases.ClearAll` | include/v8-util.h:214-230 | in any iteration order, all that was ever in the map is handed to Dispose under its own key, once per insertion, or was displaced by a call that Dispose made; everything is handed over iff no round of the history clashes, with no condition on Dispose but that it descends; what is put in and touched again is displaced |
| `ClearCases.ClearAlong` | include/v8-util.h:225-228 | every finished history of the machine is what Clear hands over in some iteration order; something is lost in that order iff the history clashes |
| `ClearCases.ClearHandsOverAll` | include/v8-util.h:214-230 | a condition on Dispose and the contents beforehand, that no possible history clashes, under which every entry is handed over exactly once per insertion |
| `ClearCases.EnoughNotToClash` | include/v8-util.h:214-230 | zones of keys, or new keys for everything put in, together with no script that sets a key and touches it again, are enough for that condition |
| `ClearRounds.ZonesDoNotClash` | include/v8-util.h:222-229 | in a round each key is handed over once, so calls that keep to zones named by their keys clash only within themselves |
| `ClearRounds.FreshKeysDoNotClash` | include/v8-util.h:222-229 | calls that touch no key set by an earlier call clash only within themselves |
| `ClearRounds.EveryCallLoses` | include/v8-util.h:226-227 | what a call of Dispose puts in and then sets or removes again was given back to it |
| `ClearMachine.OrderDecides` | include/v8-util.h:225-228 | two finished histories, one of them produced in the order that leads along the other, are equal |
| `ClearMachine.RoundsAreRounds` | include/v8-util.h:222-229 | in every possible history, the calls of each round come in the order of the history and are handed different keys |
| `ClearMachine.CauseIsEarlier` | include/v8-util.h:222-229 | an entry that is handed over and was not there at the start was put in, with this key and cell, by an earlier call of Dispose |
| `ClearMachine.RankDescends` | include/v8-util.h:214-230 | an ordinal rank on entries that every insertion lowers is a grading |
| `ClearCases.FewCallsDescend` | include/v8-util.h:214-230 | there is a grading whenever in possible histories only the first n calls put anything in, and so whenever there is a bound on what Clear can hand over |
| `ClearCases.OverwrittenEntryIsNotHanded` | include/v8-util.h:218-230 | a Dispose that sets one key twice: the first of the two was put into the map, is given back and is never handed over |
| `ClearCases.ClearWithDefaultTraits` | include/v8-util.h:218-230 | a Dispose that leaves the map alone gets exactly the entries of the map, in one round |
| `ClearCases.ClearWithRefiling` | include/v8-util.h:218-230 | a Dispose that files its entry under another new key in each of its first n calls: everything is handed over, in at most n + 1 rounds |
| `ClearCases.ClearWithBoundedPuttingBack` | include/v8-util.h:218-230 | a Dispose that puts its entry back in its first n calls: Clear ends after at most n + 1 rounds and hands every entry over as often as it was in the map |
| `ClearCases.PuttingBackNeverEnds` | include/v8-util.h:218-230 | a Dispose that always puts its entry back: after any number of rounds the map is what it was at the start |
| `ClearCases.PuttingBackNeverFinishes` | include/v8-util.h:218-230 | for such a Dispose and a map that is not empty, no possible history in any iteration order lets Clear return: there is always an entry to hand over next |
| `ClearCases.PuttingBackHasNoGrade` | include/v8-util.h:218-230 | no grading descends for such a Dispose |
| `ClearCases.ClearTakesAway` | include/v8-util.h:218-230 | a Dispose that puts b in and takes it away, and would put its entry back if handed b: b is never handed over, so Clear ends, and b is given back |
| `Smi.ValidExactly` | include/v8-internal.h:88-117 | at every width, the test by wrap-around or by a cast is the signed range test, for all values of intptr_t |
| `Smi.RoundTripExactly` | include/v8-internal.h:83-112 | decoding an encoded 32-bit integer gives it back iff it is a valid Smi |
| `Smi.DecodedIsWrapped` | include/v8-internal.h:153-156 | what comes back in general is the integer wrapped to the payload width |
| `Smi.NoSmiIsAHeapObject` | include/v8-internal.h:153-156 | the bits of an encoded integer below its payload are zero, and it has not the heap object tag |
| `Smi.Bounds` | include/v8-internal.h:79-81 | the least and the greatest Smi of each payload width, from the shifted all-ones word |
| `ReturnSlots.ReturnValue.SetInt32` | include/v8-function-callback.h:323-331 | every int32 is read back unchanged, as a Smi iff it is valid; no other slot and no existing number changes |
| `ReturnSlots.ReturnValue.SetUint32` | include/v8-function-callback.h:334-343 | every uint32 is read back unchanged; no other slot and no existing number changes |
| `ReturnSlots.ReturnValue.SetLocal` | include/v8-function-callback.h:306-314 | an empty handle writes the default value, another one its value, and no other slot changes |
| `ReturnSlots.ReturnValue.GetIsolate` | include/v8-function-callback.h:380-383 | the slot two below the return value is the isolate in both callback layouts |
| `ReturnSlots.ReturnValue.GetDefaultValue` | include/v8-function-callback.h:405-408 | the slot below the return value is the default value in both callback layouts |
| `ReturnSlots.ReturnValue.NewInteger` | src/api/api.cc:9103-9112 | Integer::New gives a word that stands for its argument, tagged as heap object iff it is not a valid Smi |
| `ReturnSlots.ReturnValue.NewFromUnsigned` | src/api/api.cc:9114-9124 | Integer::NewFromUnsigned gives a word that stands for its argument |
| `PointerTags.ABitRemains` | include/v8-internal.h:305-307 | for words of any width, a different pattern of at least the same weight leaves a bit in a & ~b |
| `PointerTags.ATypeBitRemains` | include/v8-internal.h:305-307 | the same for the bytes that type tags are, from which the reads below follow |
| `PointerTags.ReadExactly` | include/v8-internal.h:836-852 | reading an entry with a regular tag gives the pointer if the entry has that type; every other read, except of the null entry, leaves a type bit, whether or not the entry is marked |
| `PointerTags.ReadFieldExactly` | include/v8-internal.h:836-852 | the same for a field read through the table that the expected type belongs to |
| `PointerTags.RecognisedExactly` | src/sandbox/external-pointer-table.h:403-464 | a word is taken for a free entry iff it is one and then gives the next index, for an evacuation entry iff it is a marked one and then gives the handle location, and is marked iff the entry is |
| `PointerTags.SharedExactly` | include/v8-internal.h:454-457 | the range check holds exactly for the first three types and for none of the special tags |
| `PointerTags.TableWeights` | include/v8-internal.h:368-380 | all 70 type tags have weight four |
| `PointerTags.TableSorted` | include/v8-internal.h:364-380 | the type tags are strictly increasing |
| `Statistics.WelfordStep` | tools/avg.py:122-126 | one update keeps average * count the sum and M2 the sum of squared deviations from the new average |
| `Statistics.OrderIrrelevant` | tools/avg.py:116-126 | sums and squared deviations depend on the multiset of values only |
| `Averages.Measurement.AddValue` | tools/avg.py:116-128 | a numeric input is appended and all running fields stay what the values imply; a non-numeric input changes nothing |
| `Averages.Measurement.VarianceIsUnbiased` | tools/avg.py:148-151 | the variance is absent below two values, else non-negative and the squared deviations from the mean over count - 1 |
| `Averages.Measurement.WidthsMeasured` | tools/avg.py:159-166 | widths measures the key, and the number, mean, sample standard deviation, least and greatest of all values recorded |
| `Averages.MeasureAll` | tools/avg.py:106-128 | after any sequence of inputs the values are the numeric ones in order, and count, mean, M2, min and max are theirs |
| `Averages.OrderIndependent` | tools/avg.py:116-126 | two measurements of the same multiset of values agree in count, average, M2, min and max |
| `Averages.Measurements.Record` | tools/avg.py:188-194 | after any calls each key has its numeric values in order and its first unit, and max_widths are the least widths that fit the header and every row there has been |
| `Averages.Measurements.constructor` | tools/avg.py:178-185 | the columns start as wide as the header that is printed above them |
| `Averages.Measurements.ResultsFit` | tools/avg.py:201-205 | after any calls the header and the row of every key fit the columns, stated cell by cell on the recorded values |
| `Averages.MaxWidthsFits` | tools/avg.py:68-69 | merging widths gives columns that fit both the new row and every row that fitted before |
| `BigIntOracle.Format` | tools/bigint-tester.py:65-80 | the digit loop ends with the literal of the number |
| `BigIntOracle.ParseFormat` | tools/bigint-tester.py:61-80 | every integer survives printing and parsing |
| `BigIntOracle.CaseIrrelevant` | tools/bigint-tester.py:61-63 | digits read the same in both cases |
| `BigIntOracle.ParseForms` | tools/bigint-tester.py:61-63 | sign and prefix are optional and mean what they say |
| `BigIntOracle.FormatCanonical` | tools/bigint-tester.py:65-80 | zero prints without a sign; other numbers print with a sign iff negative and digits without a leading zero |
| `BigIntOracle.DigitsPrint` | tools/bigint-tester.py:73-75 | lower-case digits without a leading zero are numbers from 16^(n-1) to 16^n - 1 and are what those print as |
| `BigIntOracle.GenRandom` | tools/bigint-tester.py:49-59 | the loop returns the literal that the random choices spell, which has the requested length and sign |
| `BigIntOracle.GeneratedRoundTrip` | tools/bigint-tester.py:49-63 | every generated string parses to a number of the magnitude its length promises, zero iff the length is zero, and is reproduced by printing |
| `BigIntOracle.GeneratedIsDrawn` | tools/bigint-tester.py:49-59 | every literal of the requested length and sign is returned for some random choices |
| `BigIntOracle.EveryNumberGenerated` | tools/bigint-tester.py:49-59 | for every integer some random choices return its printed form |
| `BigIntOracle.DivisorNeverZero` | tools/bigint-tester.py:218-223 | no divisor generated for Div or Mod is zero |
| `BigIntOracle.TruncatedDivision` | tools/bigint-tester.py:212-217 | quotient and remainder recompose the dividend, the remainder is smaller than the divisor and zero or of the sign of the dividend |
| `BigIntOracle.TruncatedUnique` | tools/bigint-tester.py:212-233 | only one pair does, so both results are those of sections 6.1.6.2.5 and 6.1.6.2.6 of ECMA-262 |
| `BigIntOracle.Mod` | tools/bigint-tester.py:225-233 | the adjusted floor remainder is the remainder of truncating division |
| `BigIntOracle.ShiftsAdd` | tools/bigint-tester.py:251-261 | shifts in one direction add up, a shift by zero changes nothing and a left shift by one doubles |
| `BigIntOracle.OppositeShifts` | tools/bigint-tester.py:251-261 | a shift by a negative count is the opposite shift, for both operators and every count |
| `BigIntOracle.SarHalves` | tools/bigint-tester.py:259-261 | a right shift by one more halves the result, rounding down |
| `BigIntOracle.SarUndoesShl` | tools/bigint-tester.py:251-261 | a right shift undoes a left shift as far as it goes, and goes on where it is longer |
| `BigIntOracle.SarRoundsDown` | tools/bigint-tester.py:259-261 | a right shift gives the greatest number whose left shift is not above the operand |
| `FastCalls.GetOverloadResolution` | include/v8-fast-api-calls.h:479-508 | on the argument lists without a trailing options argument: at compile time iff their lengths differ, at runtime iff they agree and at most one position differs in sequence type with neither side scalar there, else impossible |
| `FastCalls.ArgumentsCounted` | include/v8-fast-api-calls.h:401-418 | a last argument is counted iff it is not an options argument, and all others are |
| `FastCalls.OptionsDoNotMatter` | include/v8-fast-api-calls.h:401-418 | an options argument at the end of either function has no part in the resolution |
| `FastCalls.ResolutionSymmetric` | include/v8-fast-api-calls.h:479-508 | the answer is the same for both orders of the two functions |
| `FastCalls.BuilderExactly` | include/v8-fast-api-calls.h:804-884 | a chain of builder calls compiles iff the final flags of all arguments and of the return value are allowed; argument i then has the union of all flags given to it, the return value those of the last Ret |
| `FastCalls.CompilesExactly` | include/v8-fast-api-calls.h:774-802 | a chain of builder calls compiles iff there is a receiver, the return type is supported and every flag is given only where its own rule allows it |
| `FastCalls.FlagGiven` | include/v8-fast-api-calls.h:804-809 | an argument has a flag iff some call gives it, the return value iff the last Ret does |
| `FastCalls.RangeOnlyForIntegers` | include/v8-fast-api-calls.h:783-786 | a chain that enforces a range on an argument that is no integer never compiles |
| `FastCalls.OptionsExcludedExactly` | include/v8-fast-api-calls.h:403-418 | ArgumentCount is the number of arguments that are not options, and excludes every options argument, iff no options argument comes before the last position |
| `FastCalls.TwoOptionsBuild` | include/v8-fast-api-calls.h:591-612 | a signature with two options arguments builds, and the first of them is counted |
| `FastCalls.ApplyAllTracks` | include/v8-fast-api-calls.h:857-884 | intermediate builds fail only where the final one would |
| `FastCalls.OrderAndRepetitionIrrelevant` | include/v8-fast-api-calls.h:804-809 | the flags of an argument depend only on which calls there are for it, not on their order, their repetition or calls for other arguments |

## Left out

- `Traits::Dispose` and other embedder code in the run model: between the steps of a running `Clear`
  any operations may take place, so a run contains what `Dispose` does instead of a description of it.
- `Set(key, Local)` and `Append(Local)` are the runs `NewFromLocal`, `Set` or `Append`, `DestroyHandle`.
- Weak callbacks that an embedder sets on a bare `Global`, `TracedReference`, `Eternal`,
  `SetWrapperClassId`, and `PersistentHandleVisitor`.
- `Persistent` without reset in its destructor, and `PersistentBase::Empty`, which leak on purpose.
- Used-block lists, the young-node list, task posting for second passes, and the packing of node
  flags into a byte: a collection may look at any sequence of nodes.
- The contents of embedder fields; in the run model, setting the second-pass callback is the step
  that queues the data.
- ClearCases.ClearAll: what a call of `Dispose` does is fixed when the call starts; a `Dispose` that
  calls `Clear` and then acts on what that nested `Clear` has handed over is not covered.
- ClearCases.FewCallsDescend: that a `Clear` which ends in every iteration order has a bound on what it
  hands over, since a round has only finitely many orders, is not shown.
- Isolates.Isolate.InvokeFirstPassWeakCallbacks: works the pending list off in place instead of
  swapping it out first, which no callback can observe.
- ReturnSlots.ReturnValue.NewNumber: heap numbers are integers at unbounded addresses.
- Root values, `Set(bool)`, `Set(double)` and the hole check of `ReturnValue::Get`.
- The write side, allocation and compaction of the external pointer table, and atomics.
- Floating-point rounding, infinities and NaN as inputs, number formatting, the regular expression
  and the subprocess loop of `avg.py`: values are reals, field lengths are arbitrary functions.
- White space and underscores that Python's `int` tolerates, JavaScript emission, process pools and
  the remaining operators of `bigint-tester.py`, which are Python's own.
- `CTypeInfo` identifiers, `Patch`, and the type tables of `v8-fast-api-calls.h`.
