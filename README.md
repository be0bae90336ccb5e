# APRCS signalling and reference counting, modelled in Dafny

This project models the run-time core of APRCS:

- the signal registry `Signaling` (include/signaling.hpp);
- the intrusive reference counter `RefCounting` (include/ref-counting.hpp);
- the smart pointer `AutoPtr` with its factory `NEW` (include/auto-ptr.hpp).

**The registry.** An object that derives from `Signaling` keeps three tables, one entry per signal id:

- `_ms2si`: a counter of the next fresh subscription id;
- `_ms2dsi`: a FIFO free-list of released ids;
- `_ms2msi2sddd`: an ordered live map from subscription id to the subscription, which is a slot, its user data and an optional detach hook.

The operations are:

- `connect` throws on a null slot. Otherwise it hands out the oldest released id, or else the counter's value, and stores the subscription under it.
- `emit` calls every live slot of a signal in ascending id order.
- `disconnect(ConnectionId)` removes one subscription. It pushes the id onto the back of the free-list and calls the detach hook.
- `disconnect(int)` and `disconnect()` run a bulk clear of one signal or of every signal. The bulk clear fires all detach hooks in id order, empties the live map, clears the free-list and resets the counter to 0. It does none of this when the live map is already empty.

**How the model represents it.** `Signaling` is a class whose three fields are Dafny maps (`Signals.Signaling`). Its methods update those maps as the source does.

Slots, data and hooks are type-erased pointers in the source. Here they are opaque `Pointer` values. Calling a slot or a hook is a foreign call, so each operation returns the calls it makes, in order, as `SlotCall` and `DetachCall` values.

Iteration over a `std::map` is ascending key order. The model captures it with `OrderedKeys.AscendingKeys`, and its loops take the least remaining key at each step.

**The allocation invariant.** The invariant `Signals.Signaling.Valid` holds for every signal:

- the free-list has no duplicates and shares no id with the live map;
- together, the free-list and the live map hold exactly the ids 0 .. counter - 1.

Every operation is proved to keep this invariant, so `connect` never hands out a live id.

**Reference counting and `AutoPtr`.** `RefCounting` is a class with a `count` and a `destroyed` flag; `delete this` is modelled by setting that flag. `AutoPtr` is a class holding a nullable reference to a `RefCounting` object. Each of its operations states which counts it changes, by exactly how much, and when it is a no-op.

**Files.**

- `ordered_keys.dfy`: ascending enumeration of a finite set of keys.
- `id_allocation.dfy`: the allocation invariant and its preservation by allocation and release.
- `signaling.dfy`: the registry.
- `signaling_scenarios.dfy`: whole runs of the registry, as its tests drive it.
- `ref_counting.dfy`: `RefCounting`.
- `auto_ptr.dfy`: `AutoPtr` and `NEW`.

**The bulk clear of an empty live map.** The bulk clear returns early when the live map is empty (include/signaling.hpp:285-286), and then keeps the counter and the free-list. See `Signals.ClearOutcome`, `Signals.Cleared` and `SignalingScenarios.ClearOfEmptyKeepsFreeList`.

## Model

| member | source | states |
|---|---|---|
| Signals.Signaling.constructor | include/signaling.hpp:176 | A new registry has empty tables and satisfies the allocation invariant. |
| Signals.Signaling.Connect | include/signaling.hpp:250-277 | A null slot gives `RuntimeError` and leaves all three tables unchanged. Otherwise the result is `{signal, id}`, where id is the front of the free-list if there is one, else the counter. The free-list front is popped or the counter advanced by one. The subscription is stored under id. The allocation invariant is kept. |
| Signals.Signaling.ConnectWithData | include/signaling.hpp:88-106 | The public `connect` with data and a detach hook has the private `connect`'s outcome with those arguments. |
| Signals.Signaling.ConnectSlot | include/signaling.hpp:108-122 | The slot-only `connect` has the private `connect`'s outcome with null data and no detach hook. |
| Signals.ConnectKeepsPartitioned | include/signaling.hpp:258-274 | The id `connect` hands out is not live, so the `emplace` always inserts. The tables afterwards satisfy the allocation invariant for every signal. |
| Signals.ConnectViews | include/signaling.hpp:255-274 | After `connect`, its signal's counter, free-list and live map are exactly the advanced or popped ones plus the new subscription. Every other signal is untouched. |
| IdAllocation.AllocateKeepsPartition | include/signaling.hpp:258-274 | The next id is never live. Taking it, by advancing the counter or by popping the free-list, keeps the invariant. |
| IdAllocation.AllocateFresh | include/signaling.hpp:264-272 | With an empty free-list, the counter's value is not live, and counting it as issued and live keeps the invariant. |
| IdAllocation.AllocateReleased | include/signaling.hpp:266-274 | The oldest released id is not live, and moving it from the free-list to the live ids keeps the invariant. |
| IdAllocation.ReleaseKeepsPartition | include/signaling.hpp:142-153 | Pushing a live id onto the back of the free-list and erasing it from the live map keeps the invariant. |
| IdAllocation.ElementsTail | include/signaling.hpp:267-274 | `pop_front` on a duplicate-free deque removes exactly its front id, and the rest stays duplicate-free. |
| IdAllocation.ElementsAppend | include/signaling.hpp:142 | `emplace_back` adds exactly the pushed id, and keeps the deque duplicate-free when the id is new. |
| IdAllocation.PartitionSize | include/signaling.hpp:244-248 | Under the invariant, the free-list length plus the number of live ids equals the counter. |
| Signals.Signaling.Emit | include/signaling.hpp:188-222 | There is one call per live subscription, in ascending id order. Each call carries that subscription's slot and data, the owner and the arguments. There is no call when the signal is unknown or its map is empty. The registry is not changed. |
| Signals.Signaling.Disconnect | include/signaling.hpp:124-154 | An unknown signal or an id that is not live gives no call and changes nothing. Otherwise the id is appended to the signal's free-list, the detach hook fires once if it is non-null, and exactly that subscription is erased. The invariant is kept. |
| Signals.DisconnectKeepsPartitioned | include/signaling.hpp:142-153 | Releasing a live id and erasing it keeps the allocation invariant of every signal. |
| Signals.FireDetachHooks | include/signaling.hpp:288-297 | The bulk clear's loop makes, in ascending id order, one detach call for each subscription whose hook is non-null. |
| Signals.DetachCallsCount | include/signaling.hpp:288-297 | The walk of a set of ids makes exactly as many detach calls as those ids have non-null hooks. |
| Signals.DetachCallsFromHooks | include/signaling.hpp:288-297 | Each detach call of the walk is the hook of one of those subscriptions, applied to its own data. |
| Signals.DetachCallsCoverHooks | include/signaling.hpp:288-297 | Every subscription with a non-null hook has its hook called with its own data during the walk. |
| Signals.DetachCallsFireEachOnce | include/signaling.hpp:288-297 | The bulk clear makes as many detach calls as there are subscriptions with a hook. Each call is one such subscription's hook applied to its own data, and every such subscription's call is among them. |
| Signals.Signaling.ClearPool | include/signaling.hpp:279-307 | An empty live map means no call and no change. Otherwise the hooks fire in id order, the live map is emptied, an existing free-list is cleared and the counter is set to 0. The invariant is kept. |
| Signals.ClearKeepsPartitioned | include/signaling.hpp:299-306 | The bulk clear of one signal keeps the allocation invariant of every signal. |
| Signals.ClearRestartsIds | include/signaling.hpp:299-306 | After the bulk clear of a signal with live subscriptions, the signal has no live subscription and the next `connect` hands out id 0. |
| Signals.ClearOutcomeSignals | include/signaling.hpp:279-307 | The bulk clear clears its own signal, keeps the set of signals with a live map, and leaves every other signal untouched. |
| Signals.Signaling.DisconnectSignal | include/signaling.hpp:156-164 | A signal without a live map is not changed. Otherwise the outcome is the bulk clear's. |
| Signals.Signaling.DisconnectAll | include/signaling.hpp:166-173 | Afterwards no signal has a live subscription. Each signal whose map was non-empty has its counter at 0 and an empty free-list; the others keep theirs. The detach calls are those of every signal in ascending signal order. The invariant is kept. |
| Signals.DisconnectAllStep | include/signaling.hpp:171-172 | Clearing the least remaining signal keeps the `disconnect()` loop invariant: visited signals are cleared, the rest untouched, and the detach calls accumulate. |
| OrderedKeys.AscendingKeysSorted | include/signaling.hpp:213 | The ascending enumeration of a map's keys is strictly increasing and lists every key. |
| OrderedKeys.AscendingKeysUnique | include/signaling.hpp:213 | Any strictly increasing sequence that lists exactly the keys of a set is that set's ascending enumeration. |
| OrderedKeys.NextKey | include/signaling.hpp:288 | The key chosen next is in the remaining set and no larger than any other remaining key. |
| SignalingScenarios.FilledStep | include/signaling.hpp:264-272 | One more `connect` of the same subscription to a signal filled with ids 0 .. i - 1 hands out i. |
| SignalingScenarios.ConnectMany | test/test-signaling.cpp:124-130 | `n` connects to a fresh signal return the handles of ids 0 .. n - 1 in order, store the same subscription under each id, and leave every other signal untouched. |
| SignalingScenarios.UniformCalls | test/test-signaling.cpp:136-140 | When every subscription is the same, every emitted call carries its slot and data. |
| SignalingScenarios.DisconnectEach | test/test-signaling.cpp:149-150 | Disconnecting, through the kept handles, each id of a subset `K` of a signal's live ids leaves exactly the others live. |
| SignalingScenarios.EmitCounts | test/test-signaling.cpp:122-168 | `n` connects, then an emit, makes `n` calls. After disconnecting a set `K` of those subscriptions through their handles, an emit makes `n - |K|` calls. After a bulk clear, an emit makes none. Every call carries the connected slot and data. |
| SignalingScenarios.ReuseScenario | include/signaling.hpp:258-276 | The ids handed out are 0, 1, 2, then the released 1 again. The emit then calls the slots in id order, not in connection order. |
| SignalingScenarios.CallsInIdOrder | include/signaling.hpp:213-221 | An emit over the live ids 0, 1 and 2 makes exactly three calls, whose slots are those of ids 0, 1 and 2 in that order. |
| SignalingScenarios.DisconnectTwice | include/signaling.hpp:130-153 | The first disconnect fires the hook and releases the id. The second finds nothing, fires nothing and leaves the free-list at `[0]`. |
| SignalingScenarios.ClearOfEmptyKeepsFreeList | include/signaling.hpp:285-286 | A bulk clear of an already empty live map keeps the free-list, so the next `connect` hands out the released 1, not 0. |
| SignalingScenarios.StaleHandleAfterClear | include/signaling.hpp:137-140 | After a bulk clear the counter restarts, so a stale handle names the new subscription with the same id. Disconnecting the stale handle fires the new subscription's hook and silences the signal. |
| SignalingScenarios.DisconnectAllSilences | test/test-signaling.cpp:242-301 | After `disconnect()`, an emit on any signal makes no call. |
| RefCounted.RefCounting.constructor | include/ref-counting.hpp:77 | A new object holds one reference and is alive. |
| RefCounted.RefCounting.Ref | include/ref-counting.hpp:49-52 | The count grows by exactly one and the object stays alive. |
| RefCounted.RefCounting.RefAs | include/ref-counting.hpp:54-68 | One `ref()` is taken and the same object is returned. |
| RefCounted.RefCounting.Deref | include/ref-counting.hpp:70-74 | The count drops by one, and the object is destroyed exactly when that was its last reference. |
| RefCounted.RefTimes | test/test-ref-counting.cpp:56-60 | `n` calls of `ref<T>()` each return the object itself and add `n` to the count. |
| RefCounted.DerefTimes | test/test-ref-counting.cpp:49-50 | `n` calls of `deref()` on an object with more than `n` references take `n` off the count and leave it alive. |
| RefCounted.Lifecycle | test/test-ref-counting.cpp:44-110 | `n` refs followed by `n` derefs leave the object alive with count 1, and the final `deref` destroys it. |
| AutoPointer.AutoPtr.Null | include/auto-ptr.hpp:51-53 | The default and `nullptr` constructors hold null and touch no count. |
| AutoPointer.AutoPtr.FromPointer | include/auto-ptr.hpp:55-58 | Constructing from a raw pointer holds it and adds one reference to a non-null pointee. |
| AutoPointer.AutoPtr.Copy | include/auto-ptr.hpp:60-69 | Copy construction holds the other's pointer and adds one reference to a non-null pointee. |
| AutoPointer.AutoPtr.Move | include/auto-ptr.hpp:71-80 | Move construction takes the other's pointer, nulls the other, and changes no count. |
| AutoPointer.AutoPtr.Set | include/auto-ptr.hpp:230-236 | `set` adds one reference to a non-null pointer and holds it. |
| AutoPointer.AutoPtr.Move0 | include/auto-ptr.hpp:238-242 | `move0` takes the other's pointer and nulls the other. Moving from itself leaves null. No count changes. |
| AutoPointer.AutoPtr.DerefPointee | include/auto-ptr.hpp:244-248 | The private `deref` gives back one reference of a non-null pointee, destroying it if that was the last. |
| AutoPointer.AutoPtr.Destruct | include/auto-ptr.hpp:82-85 | The destructor gives back the held reference, destroying the pointee if that was the last. |
| AutoPointer.AutoPtr.AssignNull | include/auto-ptr.hpp:87-97 | Assigning `nullptr` to a null `AutoPtr` is a no-op. Otherwise the old pointee loses one reference and the pointer becomes null. |
| AutoPointer.AutoPtr.Reset | include/auto-ptr.hpp:250-258 | Assigning the pointer already held changes nothing. Otherwise the old pointee loses one reference and the new one gains one. |
| AutoPointer.AutoPtr.AssignCopy | include/auto-ptr.hpp:106-119 | Copy assignment is `reset` with the other's pointer. The other keeps its pointer. |
| AutoPointer.AutoPtr.MoveFrom | include/auto-ptr.hpp:260-269 | Move assignment between two `AutoPtr`s holding the same pointer changes nothing, and the source is not nulled. Otherwise the old pointee loses one reference, the pointer is transferred, and the source becomes null. |
| AutoPointer.AutoPtr.Swap | include/auto-ptr.hpp:215-225 | The two pointers are exchanged and no count changes. |
| AutoPointer.AutoPtr.Equals | include/auto-ptr.hpp:290-294 | `operator==` holds exactly when both hold the same pointer. |
| AutoPointer.AutoPtr.NotEquals | include/auto-ptr.hpp:296-300 | `operator!=` is the negation of `operator==`, the identity of the held pointers. |
| AutoPointer.New | include/auto-ptr.hpp:320-330 | `NEW` returns a fresh `AutoPtr` holding a fresh, live object whose only reference it holds. |
| AutoPointer.NewDropped | test/test-auto-ptr.cpp:1465-1469 | Dropping the result of `NEW` destroys the object. |
| AutoPointer.AssignSamePointer | test/test-auto-ptr.cpp:290-308 | Assigning the pointer already held keeps the count at 2. The object survives the creator's `deref` and dies when the `AutoPtr` is set to null. |
| AutoPointer.MoveSamePointer | test/test-auto-ptr.cpp:648-674 | A move-assignment between `AutoPtr`s holding the same object leaves both holding it with count 3. The object dies only when both are set to null. |
| AutoPointer.SwapTwo | test/test-auto-ptr.cpp:1185-1217 | Swapping exchanges the objects with counts kept at 2. Each object then dies with the `AutoPtr` that now holds it. |

## Left out

- Signals.Signaling.Connect: the per-signal counter is an unbounded `nat`. The 32-bit `unsigned` wrap-around after 2^32 connects is not modelled; the source does not handle it either.
- RefCounted.RefCounting.Ref: the count is an unbounded `nat`. The wrap-around of the `unsigned` `_count` is not modelled.
- Signals.Signaling.Emit: it returns the calls it would make. What a slot does when called is foreign code and is not modelled, including a slot that connects or disconnects during the emit. That would change a `std::map` while it is being iterated, which the code leaves undefined.
- Signals.Signaling.Disconnect: it returns the detach call it makes; what the hook does is foreign code and is not modelled. A hook that re-enters the registry is not modelled either, and the source mishandles one case. `disconnect(ConnectionId)` pushes the id onto the free-list (include/signaling.hpp:142) before it runs the hook (line 151), and erases the entry only afterwards (line 153). A hook that calls `connect` on the same signal is handed that id back. Its `emplace` (line 269) is dropped because the id is still live, and the `erase` then removes the old entry. The new subscription is lost, and the id is neither free nor live.
- Signals.Signaling.ClearPool: a detach hook that re-enters the registry during the bulk clear (include/signaling.hpp:288-297) is not modelled; it would change the live map while it is being iterated.
- The compile-time signature binding is not modelled, because it is pure type-level checking with no run-time behaviour. This covers `SIGNATURE`, `SIGNALS`, `IsInstanceOfSIGNATURE`, `Slot`/`Slot2` and the `static_assert`s. A slot is an opaque value; the signal id is an ordinary parameter instead of a template argument.
- The `(Slot0)`/`(_Slot)` function-pointer casts are not modelled; they only change the static type.
- `Signaling`'s defaulted copy and move constructors and assignments (include/signaling.hpp:178-186) are not modelled. They copy or move the three maps wholesale.
- The `AutoPtr` converting templates over another pointee type (`AutoPtr<RRC>`) are folded into the same methods. With one class of counted objects there is no conversion to model.
- The `const` overload of `ref<T>()` is folded into `RefCounted.RefCounting.RefAs`; it does the same.
- `AutoPtr`'s pointer arithmetic, element access and conversion operators (include/auto-ptr.hpp:136-213, 302-318), including `operator bool`, are not modelled. Raw address arithmetic has no abstract counterpart.
- The memory mechanics are not modelled: real deallocation, the virtual destructor, the deleted array `new`/`delete`, the deleted copy and move of `RefCounting`, and the `CHECK` trait. Deletion is the `destroyed` flag. Using an object after deletion is undefined in the source, so every operation requires a live object instead of modelling what happens.
- `AutoPointer.AutoPtr.Destruct` gives back the held reference but does not model the `AutoPtr` object itself ceasing to exist. Calls to it in the scenarios stand where a C++ scope ends.
- The test drivers' I/O, random sizes (`rand`) and argument hashing are not modelled. Random sizes become parameters of the scenario methods, such as `n`, `K`, `n1` and `n2`.
