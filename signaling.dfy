/**
 * The signal registry of `Signaling` (include/signaling.hpp): an owner keeps,
 * per signal id, a counter of fresh subscription ids, a FIFO free-list of
 * released ids, and an ordered live map from subscription id to the
 * subscription (slot, data, detach hook). `connect` allocates an id, `emit`
 * calls every live slot in ascending id order, and the three `disconnect`
 * overloads remove one subscription, one signal's subscriptions, or all.
 *
 * Slots, data and detach hooks are type-erased pointers in the source; here
 * they are opaque `Pointer` values. A call of a slot or of a detach hook is a
 * foreign call: the operations return the calls they make, in order, as
 * `SlotCall` and `DetachCall` events.
 */
module Signals {
  import opened OrderedKeys
  import opened IdAllocation

  /** A raw pointer (function or data) as the registry stores it. */
  datatype Pointer = Null | At(address: nat)

  /** The handle `connect` returns: which signal, which subscription. */
  datatype ConnectionId = ConnectionId(signal: int, subconnectionId: nat)

  /** One live subscription: the slot, its user data and its optional detach hook. */
  datatype Subscription = Subscription(slot: Pointer, data: Pointer, detach: Pointer)

  /** One signal's live map, from subscription id to subscription. */
  type Pool = map<nat, Subscription>

  /** `connect` either returns a handle or throws `std::runtime_error` for a null slot. */
  datatype ConnectResult = Connected(id: ConnectionId) | RuntimeError

  /** `(*slot)(*self, arguments..., data)`, made by `emit`. */
  datatype SlotCall<A> = SlotCall(slot: Pointer, owner: object, arguments: A, data: Pointer)

  /** `(*detachData)(data)`, made when a subscription is removed. */
  datatype DetachCall = DetachCall(detach: Pointer, data: Pointer)

  /** The detach call removing subscription `id` makes: none when its hook is null. */
  function DetachHook(pool: Pool, id: nat): seq<DetachCall>
    requires id in pool
  {
    var s := pool[id];
    if s.detach == Null then [] else [DetachCall(s.detach, s.data)]
  }

  /** The detach calls made by removing the subscriptions `keys` of `pool`, in that order. */
  ghost function DetachCalls(pool: Pool, keys: seq<int>): seq<DetachCall>
    requires forall i :: 0 <= i < |keys| ==> keys[i] in pool
  {
    if keys == [] then []
    else DetachCalls(pool, keys[..|keys| - 1]) + DetachHook(pool, keys[|keys| - 1] as nat)
  }

  /** The ids of the subscriptions of `pool` in `ids` that have a detach hook. */
  ghost function Detaching(pool: Pool, ids: set<int>): set<nat>
  {
    set k | k in pool && k in ids && pool[k].detach != Null
  }

  lemma {:induction false} DetachCallsCons(pool: Pool, k: int, rest: seq<int>)
    requires k in pool
    requires forall i :: 0 <= i < |rest| ==> rest[i] in pool
    ensures DetachCalls(pool, [k] + rest) == DetachHook(pool, k as nat) + DetachCalls(pool, rest)
    decreases |rest|
  {
    var keys := [k] + rest;
    if rest != [] {
      assert keys[..|keys| - 1] == [k] + rest[..|rest| - 1];
      DetachCallsCons(pool, k, rest[..|rest| - 1]);
    }
  }

  /** Walking `ids` in ascending order makes one detach call per subscription of `ids` with a hook. */
  lemma {:induction false} DetachCallsCount(pool: Pool, ids: set<int>)
    requires ids <= pool.Keys
    ensures |DetachCalls(pool, AscendingKeys(ids))| == |Detaching(pool, ids)|
    decreases ids
  {
    if ids != {} {
      var k := Least(ids);
      var rest := ids - {k};
      DetachCallsCount(pool, rest);
      DetachCallsCons(pool, k, AscendingKeys(rest));
      assert k as nat !in Detaching(pool, rest);
      if pool[k as nat].detach == Null {
        assert Detaching(pool, ids) == Detaching(pool, rest);
      } else {
        assert Detaching(pool, ids) == Detaching(pool, rest) + {k as nat};
      }
    }
  }

  /** Every detach call made walking `ids` is the hook of one subscription of `ids` applied to its own data. */
  lemma {:induction false} DetachCallsFromHooks(pool: Pool, ids: set<int>)
    requires ids <= pool.Keys
    ensures forall c :: c in DetachCalls(pool, AscendingKeys(ids)) ==>
              exists k :: k in Detaching(pool, ids) && c == DetachCall(pool[k].detach, pool[k].data)
    decreases ids
  {
    if ids != {} {
      var k := Least(ids);
      var rest := ids - {k};
      DetachCallsFromHooks(pool, rest);
      DetachCallsCons(pool, k, AscendingKeys(rest));
      assert Detaching(pool, rest) <= Detaching(pool, ids);
      forall c | c in DetachCalls(pool, AscendingKeys(ids))
        ensures exists j :: j in Detaching(pool, ids) && c == DetachCall(pool[j].detach, pool[j].data)
      {
        if c in DetachHook(pool, k as nat) {
          assert k as nat in Detaching(pool, ids);
        } else {
          assert c in DetachCalls(pool, AscendingKeys(rest));
        }
      }
    }
  }

  /** Every subscription of `ids` with a hook has its hook called, with its own data, walking `ids`. */
  lemma {:induction false} DetachCallsCoverHooks(pool: Pool, ids: set<int>)
    requires ids <= pool.Keys
    ensures forall k :: k in Detaching(pool, ids) ==>
              DetachCall(pool[k].detach, pool[k].data) in DetachCalls(pool, AscendingKeys(ids))
    decreases ids
  {
    if ids != {} {
      var k := Least(ids);
      var rest := ids - {k};
      DetachCallsCoverHooks(pool, rest);
      DetachCallsCons(pool, k, AscendingKeys(rest));
      forall j | j in Detaching(pool, ids)
        ensures DetachCall(pool[j].detach, pool[j].data) in DetachCalls(pool, AscendingKeys(ids))
      {
        if j != k {
          assert j in Detaching(pool, rest);
        }
      }
    }
  }

  /**
   * A bulk clear calls each non-null detach hook: walking the ids of `ids`
   * in ascending order makes as many calls as there are subscriptions with a
   * hook, each call is one such subscription's hook applied to its own data,
   * and each such subscription's call is among them. (The calls' order is
   * that of `DetachCalls` over the ascending ids.)
   */
  lemma DetachCallsFireEachOnce(pool: Pool, ids: set<int>)
    requires ids <= pool.Keys
    ensures |DetachCalls(pool, AscendingKeys(ids))| == |Detaching(pool, ids)|
    ensures forall c :: c in DetachCalls(pool, AscendingKeys(ids)) ==>
              exists k :: k in Detaching(pool, ids) && c == DetachCall(pool[k].detach, pool[k].data)
    ensures forall k :: k in Detaching(pool, ids) ==>
              DetachCall(pool[k].detach, pool[k].data) in DetachCalls(pool, AscendingKeys(ids))
  {
    DetachCallsCount(pool, ids);
    DetachCallsFromHooks(pool, ids);
    DetachCallsCoverHooks(pool, ids);
  }

  /** The detach calls `disconnect()` makes: signal by signal in `signals` order, each pool in id order. */
  ghost function AllDetachCalls(live: map<int, Pool>, signals: seq<int>): seq<DetachCall>
    requires forall i :: 0 <= i < |signals| ==> signals[i] in live
  {
    if signals == [] then []
    else
      var pool := live[signals[|signals| - 1]];
      AllDetachCalls(live, signals[..|signals| - 1]) + DetachCalls(pool, AscendingKeys(pool.Keys))
  }

  /**
   * The bulk clear's walk over one live map (include/signaling.hpp): visit the
   * subscriptions in ascending id order and call each non-null detach hook
   * with that subscription's data.
   */
  method FireDetachHooks(pool: Pool) returns (fired: seq<DetachCall>)
    ensures fired == DetachCalls(pool, AscendingKeys(pool.Keys))
  {
    fired := [];
    var remaining: set<int> := pool.Keys;
    ghost var visited: seq<int> := [];
    WalkStart(pool.Keys);
    while remaining != {}
      invariant Walk(pool.Keys, visited, remaining)
      invariant fired == DetachCalls(pool, visited)
      decreases remaining
    {
      var id := NextKey(remaining);
      WalkStep(pool.Keys, visited, remaining, id);
      var s := pool[id as nat];
      if s.detach != Null {
        fired := fired + [DetachCall(s.detach, s.data)];
      }
      assert (visited + [id])[..|visited|] == visited;
      visited := visited + [id];
      remaining := remaining - {id};
    }
    WalkDone(pool.Keys, visited);
  }

  /** A signal's counter; a signal without an entry behaves as one at 0. */
  function CounterOf(counters: map<int, nat>, signal: int): nat
  {
    if signal in counters then counters[signal] else 0
  }

  /** A signal's free-list; a signal without an entry behaves as an empty one. */
  function FreeListOf(freeLists: map<int, seq<nat>>, signal: int): seq<nat>
  {
    if signal in freeLists then freeLists[signal] else []
  }

  /** A signal's live map; a signal without an entry behaves as an empty one. */
  function PoolOf(live: map<int, Pool>, signal: int): Pool
  {
    if signal in live then live[signal] else map[]
  }

  /** The allocation invariant of one signal of the three tables. */
  ghost predicate SignalPartitioned(counters: map<int, nat>, freeLists: map<int, seq<nat>>, live: map<int, Pool>, signal: int)
  {
    Partitioned(CounterOf(counters, signal), FreeListOf(freeLists, signal), PoolOf(live, signal).Keys)
  }

  /** The allocation invariant of every signal. */
  ghost predicate AllPartitioned(counters: map<int, nat>, freeLists: map<int, seq<nat>>, live: map<int, Pool>)
  {
    forall signal :: SignalPartitioned(counters, freeLists, live, signal)
  }

  /** Signal `s` has the same counter, free-list and live map in both tables. */
  ghost predicate Untouched(
    counters: map<int, nat>, freeLists: map<int, seq<nat>>, live: map<int, Pool>,
    counters': map<int, nat>, freeLists': map<int, seq<nat>>, live': map<int, Pool>,
    s: int)
  {
    && CounterOf(counters', s) == CounterOf(counters, s)
    && FreeListOf(freeLists', s) == FreeListOf(freeLists, s)
    && PoolOf(live', s) == PoolOf(live, s)
  }

  /** Changing one signal's tables in a way that keeps its invariant keeps every signal's. */
  lemma UpdateKeepsPartitioned(
    counters: map<int, nat>, freeLists: map<int, seq<nat>>, live: map<int, Pool>,
    counters': map<int, nat>, freeLists': map<int, seq<nat>>, live': map<int, Pool>,
    signal: int)
    requires AllPartitioned(counters, freeLists, live)
    requires SignalPartitioned(counters', freeLists', live', signal)
    requires forall s :: s != signal ==> Untouched(counters, freeLists, live, counters', freeLists', live', s)
    ensures AllPartitioned(counters', freeLists', live')
  {
    forall s ensures SignalPartitioned(counters', freeLists', live', s) {
      if s != signal {
        assert Untouched(counters, freeLists, live, counters', freeLists', live', s);
        assert SignalPartitioned(counters, freeLists, live, s);
      }
    }
  }

  /**
   * What `connect` does to the tables `(counters, freeLists, live)`, giving
   * `(counters', freeLists', live')`, and what it returns.
   */
  ghost predicate ConnectOutcome(
    counters: map<int, nat>, freeLists: map<int, seq<nat>>, live: map<int, Pool>,
    counters': map<int, nat>, freeLists': map<int, seq<nat>>, live': map<int, Pool>,
    signal: int, slot: Pointer, data: Pointer, detach: Pointer, r: ConnectResult)
  {
    if slot == Null then
      && r == RuntimeError
      && counters' == counters && freeLists' == freeLists && live' == live
    else
      var counter := CounterOf(counters, signal);
      var free := FreeListOf(freeLists, signal);
      var pool := PoolOf(live, signal);
      var id := NextId(counter, free);
      && r == Connected(ConnectionId(signal, id))
      && live' == live[signal := pool[id := Subscription(slot, data, detach)]]
      && counters' == counters[signal := if free == [] then counter + 1 else counter]
      && freeLists' == (if free == [] then freeLists else freeLists[signal := free[1..]])
  }

  /** The signal `connect` changes satisfies the invariant afterwards, and the id it takes was not live. */
  lemma ConnectKeepsSignal(
    counters: map<int, nat>, freeLists: map<int, seq<nat>>, live: map<int, Pool>,
    signal: int, sub: Subscription)
    requires SignalPartitioned(counters, freeLists, live, signal)
    ensures var counter := CounterOf(counters, signal);
            var free := FreeListOf(freeLists, signal);
            var pool := PoolOf(live, signal);
            var id := NextId(counter, free);
            && id !in pool
            && Partitioned(if free == [] then counter + 1 else counter,
                           if free == [] then free else free[1..],
                           pool.Keys + {id})
  {
    AllocateKeepsPartition(CounterOf(counters, signal), FreeListOf(freeLists, signal), PoolOf(live, signal).Keys);
  }

  /**
   * `connect` keeps the allocation invariant, and the id it hands out is not
   * live, so the `emplace` never meets an existing key.
   */
  lemma ConnectKeepsPartitioned(
    counters: map<int, nat>, freeLists: map<int, seq<nat>>, live: map<int, Pool>,
    counters': map<int, nat>, freeLists': map<int, seq<nat>>, live': map<int, Pool>,
    signal: int, slot: Pointer, data: Pointer, detach: Pointer, r: ConnectResult)
    requires AllPartitioned(counters, freeLists, live)
    requires ConnectOutcome(counters, freeLists, live, counters', freeLists', live', signal, slot, data, detach, r)
    ensures r.Connected? ==> r.id.subconnectionId !in PoolOf(live, signal)
    ensures AllPartitioned(counters', freeLists', live')
  {
    if slot != Null {
      assert SignalPartitioned(counters, freeLists, live, signal);
      ConnectKeepsSignal(counters, freeLists, live, signal, Subscription(slot, data, detach));
      ConnectViews(counters, freeLists, live, counters', freeLists', live', signal, slot, data, detach, r);
      UpdateKeepsPartitioned(counters, freeLists, live, counters', freeLists', live', signal);
    }
  }

  /** `connect` changes only its own signal's tables, as `ConnectKeepsSignal` describes them. */
  lemma ConnectViews(
    counters: map<int, nat>, freeLists: map<int, seq<nat>>, live: map<int, Pool>,
    counters': map<int, nat>, freeLists': map<int, seq<nat>>, live': map<int, Pool>,
    signal: int, slot: Pointer, data: Pointer, detach: Pointer, r: ConnectResult)
    requires slot != Null
    requires ConnectOutcome(counters, freeLists, live, counters', freeLists', live', signal, slot, data, detach, r)
    ensures var counter := CounterOf(counters, signal);
            var free := FreeListOf(freeLists, signal);
            var pool := PoolOf(live, signal);
            var id := NextId(counter, free);
            && CounterOf(counters', signal) == (if free == [] then counter + 1 else counter)
            && FreeListOf(freeLists', signal) == (if free == [] then free else free[1..])
            && PoolOf(live', signal) == pool[id := Subscription(slot, data, detach)]
            && PoolOf(live', signal).Keys == pool.Keys + {id}
    ensures forall s :: s != signal ==> Untouched(counters, freeLists, live, counters', freeLists', live', s)
  {
  }

  /** `disconnect(ConnectionId)` keeps the allocation invariant. */
  lemma DisconnectKeepsPartitioned(
    counters: map<int, nat>, freeLists: map<int, seq<nat>>, live: map<int, Pool>,
    signal: int, sid: nat)
    requires AllPartitioned(counters, freeLists, live)
    requires sid in PoolOf(live, signal)
    ensures AllPartitioned(counters, freeLists[signal := FreeListOf(freeLists, signal) + [sid]],
                           live[signal := PoolOf(live, signal) - {sid}])
  {
    var freeLists' := freeLists[signal := FreeListOf(freeLists, signal) + [sid]];
    var live' := live[signal := PoolOf(live, signal) - {sid}];
    assert SignalPartitioned(counters, freeLists, live, signal);
    ReleaseKeepsPartition(CounterOf(counters, signal), FreeListOf(freeLists, signal), PoolOf(live, signal).Keys, sid);
    assert PoolOf(live', signal).Keys == PoolOf(live, signal).Keys - {sid};
    assert SignalPartitioned(counters, freeLists', live', signal);
    forall s | s != signal ensures Untouched(counters, freeLists, live, counters, freeLists', live', s) {
    }
    UpdateKeepsPartitioned(counters, freeLists, live, counters, freeLists', live', signal);
  }

  /**
   * What the bulk clear of `signal` does to the tables and which detach
   * hooks it fires.
   */
  ghost predicate ClearOutcome(
    counters: map<int, nat>, freeLists: map<int, seq<nat>>, live: map<int, Pool>,
    counters': map<int, nat>, freeLists': map<int, seq<nat>>, live': map<int, Pool>,
    signal: int, fired: seq<DetachCall>)
  {
    var pool := PoolOf(live, signal);
    if pool == map[] then
      && fired == []
      && counters' == counters && freeLists' == freeLists && live' == live
    else
      && fired == DetachCalls(pool, AscendingKeys(pool.Keys))
      && live' == live[signal := map[]]
      && freeLists' == (if signal in freeLists then freeLists[signal := []] else freeLists)
      && counters' == counters[signal := 0]
  }

  /** The bulk clear of one signal keeps the allocation invariant. */
  lemma ClearKeepsPartitioned(
    counters: map<int, nat>, freeLists: map<int, seq<nat>>, live: map<int, Pool>,
    counters': map<int, nat>, freeLists': map<int, seq<nat>>, live': map<int, Pool>,
    signal: int, fired: seq<DetachCall>)
    requires AllPartitioned(counters, freeLists, live)
    requires ClearOutcome(counters, freeLists, live, counters', freeLists', live', signal, fired)
    ensures AllPartitioned(counters', freeLists', live')
  {
    if PoolOf(live, signal) != map[] {
      ClearOutcomeSignals(counters, freeLists, live, counters', freeLists', live', signal, fired);
      assert Cleared(counters, freeLists, live, counters', freeLists', live', signal);
      assert Elements([]) == {};
      UpdateKeepsPartitioned(counters, freeLists, live, counters', freeLists', live', signal);
    }
  }

  /**
   * After the bulk clear of a signal with live subscriptions, the next
   * `connect` hands out id 0 again, whatever ids were issued before.
   */
  lemma ClearRestartsIds(
    counters: map<int, nat>, freeLists: map<int, seq<nat>>, live: map<int, Pool>,
    counters': map<int, nat>, freeLists': map<int, seq<nat>>, live': map<int, Pool>,
    signal: int, fired: seq<DetachCall>)
    requires PoolOf(live, signal) != map[]
    requires ClearOutcome(counters, freeLists, live, counters', freeLists', live', signal, fired)
    ensures PoolOf(live', signal) == map[]
    ensures NextId(CounterOf(counters', signal), FreeListOf(freeLists', signal)) == 0
  {
    assert FreeListOf(freeLists', signal) == [];
  }

  /**
   * Signal `s` after its bulk clear: no live subscription; the counter is
   * back at 0 and the free-list empty, unless the live map was already
   * empty, in which case both are kept.
   */
  ghost predicate Cleared(
    counters: map<int, nat>, freeLists: map<int, seq<nat>>, live: map<int, Pool>,
    counters': map<int, nat>, freeLists': map<int, seq<nat>>, live': map<int, Pool>,
    s: int)
  {
    && PoolOf(live', s) == map[]
    && if PoolOf(live, s) == map[] then
         CounterOf(counters', s) == CounterOf(counters, s) && FreeListOf(freeLists', s) == FreeListOf(freeLists, s)
       else
         CounterOf(counters', s) == 0 && FreeListOf(freeLists', s) == []
  }

  /** The bulk clear of `signal` clears that signal, keeps the set of signals with a live map, and touches no other signal. */
  lemma ClearOutcomeSignals(
    counters: map<int, nat>, freeLists: map<int, seq<nat>>, live: map<int, Pool>,
    counters': map<int, nat>, freeLists': map<int, seq<nat>>, live': map<int, Pool>,
    signal: int, fired: seq<DetachCall>)
    requires ClearOutcome(counters, freeLists, live, counters', freeLists', live', signal, fired)
    requires signal in live
    ensures Cleared(counters, freeLists, live, counters', freeLists', live', signal)
    ensures live'.Keys == live.Keys
    ensures forall s :: s != signal ==> Untouched(counters, freeLists, live, counters', freeLists', live', s)
  {
  }

  /**
   * Part way through `disconnect()`: the signals in `remaining` are not yet
   * cleared and keep their tables, every other signal is cleared.
   */
  ghost predicate ClearedExcept(
    counters: map<int, nat>, freeLists: map<int, seq<nat>>, live: map<int, Pool>,
    counters': map<int, nat>, freeLists': map<int, seq<nat>>, live': map<int, Pool>,
    remaining: set<int>)
  {
    && (forall s :: s in remaining ==> Untouched(counters, freeLists, live, counters', freeLists', live', s))
    && (forall s :: s !in remaining ==> Cleared(counters, freeLists, live, counters', freeLists', live', s))
  }

  /** Clearing the next remaining signal moves it from the remaining signals to the cleared ones. */
  lemma ClearStep(
    counters: map<int, nat>, freeLists: map<int, seq<nat>>, live: map<int, Pool>,
    counters1: map<int, nat>, freeLists1: map<int, seq<nat>>, live1: map<int, Pool>,
    counters2: map<int, nat>, freeLists2: map<int, seq<nat>>, live2: map<int, Pool>,
    remaining: set<int>, signal: int, fired: seq<DetachCall>)
    requires ClearedExcept(counters, freeLists, live, counters1, freeLists1, live1, remaining)
    requires signal in remaining && signal in live1
    requires ClearOutcome(counters1, freeLists1, live1, counters2, freeLists2, live2, signal, fired)
    ensures ClearedExcept(counters, freeLists, live, counters2, freeLists2, live2, remaining - {signal})
    ensures live2.Keys == live1.Keys
    ensures var pool := PoolOf(live, signal); fired == DetachCalls(pool, AscendingKeys(pool.Keys))
  {
    ClearOutcomeSignals(counters1, freeLists1, live1, counters2, freeLists2, live2, signal, fired);
    assert Untouched(counters, freeLists, live, counters1, freeLists1, live1, signal);
    forall s | s in remaining - {signal}
      ensures Untouched(counters, freeLists, live, counters2, freeLists2, live2, s)
    {
      assert Untouched(counters, freeLists, live, counters1, freeLists1, live1, s);
      assert Untouched(counters1, freeLists1, live1, counters2, freeLists2, live2, s);
    }
    forall s | s !in remaining - {signal}
      ensures Cleared(counters, freeLists, live, counters2, freeLists2, live2, s)
    {
      if s != signal {
        assert Cleared(counters, freeLists, live, counters1, freeLists1, live1, s);
        assert Untouched(counters1, freeLists1, live1, counters2, freeLists2, live2, s);
      }
    }
  }

  /**
   * The loop invariant of `disconnect()`: the signals of `visited` (a prefix
   * of the ascending walk, `remaining` being the rest) are cleared, the others
   * untouched, and `fired` holds the detach calls of the visited signals.
   */
  ghost predicate DisconnectAllProgress(
    counters: map<int, nat>, freeLists: map<int, seq<nat>>, live: map<int, Pool>,
    counters': map<int, nat>, freeLists': map<int, seq<nat>>, live': map<int, Pool>,
    remaining: set<int>, visited: seq<int>, fired: seq<DetachCall>)
  {
    && Walk(live.Keys, visited, remaining)
    && live'.Keys == live.Keys
    && ClearedExcept(counters, freeLists, live, counters', freeLists', live', remaining)
    && fired == AllDetachCalls(live, visited)
  }

  /** One iteration of `disconnect()` keeps its loop invariant. */
  lemma DisconnectAllStep(
    counters: map<int, nat>, freeLists: map<int, seq<nat>>, live: map<int, Pool>,
    counters1: map<int, nat>, freeLists1: map<int, seq<nat>>, live1: map<int, Pool>,
    counters2: map<int, nat>, freeLists2: map<int, seq<nat>>, live2: map<int, Pool>,
    remaining: set<int>, visited: seq<int>, fired: seq<DetachCall>, signal: int, f: seq<DetachCall>)
    requires DisconnectAllProgress(counters, freeLists, live, counters1, freeLists1, live1, remaining, visited, fired)
    requires signal in remaining && forall j :: j in remaining ==> signal <= j
    requires ClearOutcome(counters1, freeLists1, live1, counters2, freeLists2, live2, signal, f)
    ensures DisconnectAllProgress(counters, freeLists, live, counters2, freeLists2, live2,
                                  remaining - {signal}, visited + [signal], fired + f)
  {
    WalkStep(live.Keys, visited, remaining, signal);
    ClearStep(counters, freeLists, live, counters1, freeLists1, live1, counters2, freeLists2, live2, remaining, signal, f);
    AllDetachCallsSnoc(live, visited, signal);
  }

  /** `disconnect()`'s detach calls grow signal by signal. */
  lemma AllDetachCallsSnoc(live: map<int, Pool>, signals: seq<int>, signal: int)
    requires forall i :: 0 <= i < |signals| ==> signals[i] in live
    requires signal in live
    ensures AllDetachCalls(live, signals + [signal])
         == AllDetachCalls(live, signals) + DetachCalls(live[signal], AscendingKeys(live[signal].Keys))
  {
    assert (signals + [signal])[..|signals|] == signals;
  }

  class Signaling {
    /** `_ms2si`: per signal, the next fresh subscription id. */
    var counters: map<int, nat>
    /** `_ms2dsi`: per signal, the released ids, oldest first. */
    var freeLists: map<int, seq<nat>>
    /** `_ms2msi2sddd`: per signal, the live subscriptions by id. */
    var live: map<int, Pool>

    /** Every signal satisfies the allocation invariant. */
    ghost predicate Valid()
      reads this
    {
      AllPartitioned(counters, freeLists, live)
    }

    constructor ()
      ensures Valid()
      ensures counters == map[] && freeLists == map[] && live == map[]
    {
      counters, freeLists, live := map[], map[], map[];
    }

    /**
     * The private `connect`: throw on a null slot; otherwise take the oldest
     * released id, or the counter's next value, and insert the subscription
     * under it.
     */
    method Connect(signal: int, slot: Pointer, data: Pointer, detach: Pointer) returns (r: ConnectResult)
      requires Valid()
      modifies this
      ensures Valid()
      ensures ConnectOutcome(old(counters), old(freeLists), old(live), counters, freeLists, live, signal, slot, data, detach, r)
    {
      if slot == Null {
        return RuntimeError;
      }
      ghost var counters0, freeLists0, live0 := counters, freeLists, live;
      // `_ms2si[signal] = 0U` for a signal seen for the first time
      var counter := if signal in counters then counters[signal] else 0;
      var free := if signal in freeLists then freeLists[signal] else [];
      var empty := free == [];
      var id: nat := if empty then counter else free[0];
      var pool := if signal in live then live[signal] else map[];
      live := live[signal := pool[id := Subscription(slot, data, detach)]];
      if empty {
        counters := counters[signal := counter + 1];
      } else {
        counters := counters[signal := counter];
        freeLists := freeLists[signal := free[1..]];
      }
      r := Connected(ConnectionId(signal, id));
      ConnectKeepsPartitioned(counters0, freeLists0, live0, counters, freeLists, live, signal, slot, data, detach, r);
    }

    /** The public `connect` taking data and a detach hook (`Null` for the default). */
    method ConnectWithData(signal: int, slot: Pointer, data: Pointer, detach: Pointer) returns (r: ConnectResult)
      requires Valid()
      modifies this
      ensures Valid()
      ensures ConnectOutcome(old(counters), old(freeLists), old(live), counters, freeLists, live, signal, slot, data, detach, r)
    {
      r := Connect(signal, slot, data, detach);
    }

    /** The public `connect` taking only a slot: null data, no detach hook. */
    method ConnectSlot(signal: int, slot: Pointer) returns (r: ConnectResult)
      requires Valid()
      modifies this
      ensures Valid()
      ensures ConnectOutcome(old(counters), old(freeLists), old(live), counters, freeLists, live, signal, slot, Null, Null, r)
    {
      r := Connect(signal, slot, Null, Null);
    }

    /**
     * `emit`: call every live slot of `signal` once, in ascending id order,
     * with the owner, the arguments and that subscription's own data. Nothing
     * in the registry changes.
     */
    method Emit<A>(signal: int, arguments: A) returns (calls: seq<SlotCall<A>>)
      ensures var pool := PoolOf(live, signal); var keys := AscendingKeys(pool.Keys);
        && |calls| == |pool|
        && forall i :: 0 <= i < |calls| ==>
             calls[i] == SlotCall(pool[keys[i] as nat].slot, this, arguments, pool[keys[i] as nat].data)
    {
      calls := [];
      if signal !in live {
        return;
      }
      var pool := live[signal];
      if pool == map[] {
        return;
      }
      var remaining: set<int> := pool.Keys;
      ghost var visited: seq<int> := [];
      WalkStart(pool.Keys);
      while remaining != {}
        invariant Walk(pool.Keys, visited, remaining)
        invariant |calls| == |visited|
        invariant forall i :: 0 <= i < |calls| ==>
                    calls[i] == SlotCall(pool[visited[i] as nat].slot, this, arguments, pool[visited[i] as nat].data)
        decreases remaining
      {
        var id := NextKey(remaining);
        WalkStep(pool.Keys, visited, remaining, id);
        var s := pool[id as nat];
        calls := calls + [SlotCall(s.slot, this, arguments, s.data)];
        visited := visited + [id];
        remaining := remaining - {id};
      }
      WalkDone(pool.Keys, visited);
    }

    /**
     * `disconnect(ConnectionId)`: a no-op unless the id is live in its signal;
     * otherwise release the id to the back of the free-list, call the detach
     * hook if there is one, and erase exactly that subscription.
     */
    method Disconnect(id: ConnectionId) returns (fired: seq<DetachCall>)
      requires Valid()
      modifies this
      ensures Valid()
      ensures var pool := PoolOf(old(live), id.signal); var sid := id.subconnectionId;
        if sid !in pool then
          && fired == []
          && counters == old(counters) && freeLists == old(freeLists) && live == old(live)
        else
          && fired == DetachHook(pool, sid)
          && counters == old(counters)
          && freeLists == old(freeLists)[id.signal := FreeListOf(old(freeLists), id.signal) + [sid]]
          && live == old(live)[id.signal := pool - {sid}]
    {
      var signal, sid := id.signal, id.subconnectionId;
      if signal !in live {
        return [];
      }
      var pool := live[signal];
      if sid !in pool {
        return [];
      }
      DisconnectKeepsPartitioned(counters, freeLists, live, signal, sid);
      var free := if signal in freeLists then freeLists[signal] else [];
      freeLists := freeLists[signal := free + [sid]];
      var s := pool[sid];
      fired := if s.detach == Null then [] else [DetachCall(s.detach, s.data)];
      live := live[signal := pool - {sid}];
    }

    /**
     * The private bulk clear of one signal: nothing when its live map is
     * empty (the counter and free-list are then kept); otherwise fire every
     * detach hook in ascending id order, empty the map, clear the free-list
     * and reset the counter to 0.
     */
    method ClearPool(signal: int) returns (fired: seq<DetachCall>)
      requires Valid()
      requires signal in live
      modifies this
      ensures Valid()
      ensures ClearOutcome(old(counters), old(freeLists), old(live), counters, freeLists, live, signal, fired)
    {
      var pool := live[signal];
      if pool == map[] {
        return [];
      }
      ghost var counters0, freeLists0, live0 := counters, freeLists, live;
      fired := FireDetachHooks(pool);
      live := live[signal := map[]];
      if signal in freeLists {
        freeLists := freeLists[signal := []];
      }
      counters := counters[signal := 0];
      ClearKeepsPartitioned(counters0, freeLists0, live0, counters, freeLists, live, signal, fired);
    }

    /** `disconnect(int)`: a no-op for a signal without a live map, else its bulk clear. */
    method DisconnectSignal(signal: int) returns (fired: seq<DetachCall>)
      requires Valid()
      modifies this
      ensures Valid()
      ensures ClearOutcome(old(counters), old(freeLists), old(live), counters, freeLists, live, signal, fired)
    {
      if signal !in live {
        return [];
      }
      fired := ClearPool(signal);
    }

    /**
     * `disconnect()`: the bulk clear of every signal that has a live map, in
     * ascending signal order. Afterwards no signal has a live subscription;
     * each signal whose live map was non-empty has its counter at 0 and an
     * empty free-list, and every other signal keeps them.
     */
    method DisconnectAll() returns (fired: seq<DetachCall>)
      requires Valid()
      modifies this
      ensures Valid()
      ensures live.Keys == old(live).Keys
      ensures forall s :: Cleared(old(counters), old(freeLists), old(live), counters, freeLists, live, s)
      ensures fired == AllDetachCalls(old(live), AscendingKeys(old(live).Keys))
    {
      fired := [];
      var remaining: set<int> := live.Keys;
      ghost var visited: seq<int> := [];
      WalkStart(live.Keys);
      while remaining != {}
        invariant Valid()
        invariant DisconnectAllProgress(old(counters), old(freeLists), old(live), counters, freeLists, live,
                                        remaining, visited, fired)
        decreases remaining
      {
        var signal := NextKey(remaining);
        ghost var counters1, freeLists1, live1 := counters, freeLists, live;
        var f := ClearPool(signal);
        DisconnectAllStep(old(counters), old(freeLists), old(live), counters1, freeLists1, live1,
                          counters, freeLists, live, remaining, visited, fired, signal, f);
        fired := fired + f;
        visited := visited + [signal];
        remaining := remaining - {signal};
      }
      WalkDone(old(live).Keys, visited);
      assert ClearedExcept(old(counters), old(freeLists), old(live), counters, freeLists, live, {});
    }
  }
}
