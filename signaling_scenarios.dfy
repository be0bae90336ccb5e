/**
 * Whole runs of a `Signaling` registry, as its tests drive it
 * (test/test-signaling.cpp) and as the quirks of the bulk clear shape them:
 * id reuse, emission order and count, the no-op cases, and what a reset
 * does to stale handles.
 */
module SignalingScenarios {
  import opened OrderedKeys
  import opened IdAllocation
  import opened Signals

  /** Removing a subset takes away exactly its size. */
  lemma DifferenceSize(a: set<nat>, b: set<nat>)
    requires b <= a
    ensures |a - b| == |a| - |b|
  {
    assert a == (a - b) + b;
    assert (a - b) * b == {};
  }

  /**
   * After `i` connects of `sub`'s slot and data to a signal that started
   * empty: the ids 0 .. i - 1 are live, all holding that subscription, none
   * is released, and every other signal is untouched.
   */
  ghost predicate Filled(
    counters: map<int, nat>, freeLists: map<int, seq<nat>>, live: map<int, Pool>,
    counters': map<int, nat>, freeLists': map<int, seq<nat>>, live': map<int, Pool>,
    signal: int, i: nat, sub: Subscription)
  {
    && CounterOf(counters', signal) == i
    && FreeListOf(freeLists', signal) == []
    && PoolOf(live', signal).Keys == Issued(i)
    && (forall k :: k in PoolOf(live', signal) ==> PoolOf(live', signal)[k] == sub)
    && (forall s :: s != signal ==> Untouched(counters, freeLists, live, counters', freeLists', live', s))
  }

  /** One more connect of the same subscription hands out the next id, `i`. */
  lemma FilledStep(
    counters: map<int, nat>, freeLists: map<int, seq<nat>>, live: map<int, Pool>,
    counters1: map<int, nat>, freeLists1: map<int, seq<nat>>, live1: map<int, Pool>,
    counters2: map<int, nat>, freeLists2: map<int, seq<nat>>, live2: map<int, Pool>,
    signal: int, i: nat, sub: Subscription, r: ConnectResult)
    requires sub.slot != Null
    requires Filled(counters, freeLists, live, counters1, freeLists1, live1, signal, i, sub)
    requires ConnectOutcome(counters1, freeLists1, live1, counters2, freeLists2, live2, signal, sub.slot, sub.data, sub.detach, r)
    ensures r == Connected(ConnectionId(signal, i))
    ensures Filled(counters, freeLists, live, counters2, freeLists2, live2, signal, i + 1, sub)
  {
    ConnectViews(counters1, freeLists1, live1, counters2, freeLists2, live2, signal, sub.slot, sub.data, sub.detach, r);
    var pool1, pool2 := PoolOf(live1, signal), PoolOf(live2, signal);
    assert pool2 == pool1[i := sub];
    forall k | k in pool2
      ensures pool2[k] == sub
    {
      if k != i {
        assert k in pool1;
      }
    }
    UntouchedChain(counters, freeLists, live, counters1, freeLists1, live1, counters2, freeLists2, live2, signal);
    assert Issued(i + 1) == Issued(i) + {i};
  }

  /** Two runs that each leave every signal but `signal` untouched together leave them untouched. */
  lemma UntouchedChain(
    counters: map<int, nat>, freeLists: map<int, seq<nat>>, live: map<int, Pool>,
    counters1: map<int, nat>, freeLists1: map<int, seq<nat>>, live1: map<int, Pool>,
    counters2: map<int, nat>, freeLists2: map<int, seq<nat>>, live2: map<int, Pool>,
    signal: int)
    requires forall s :: s != signal ==> Untouched(counters, freeLists, live, counters1, freeLists1, live1, s)
    requires forall s :: s != signal ==> Untouched(counters1, freeLists1, live1, counters2, freeLists2, live2, s)
    ensures forall s :: s != signal ==> Untouched(counters, freeLists, live, counters2, freeLists2, live2, s)
  {
    forall s | s != signal
      ensures Untouched(counters, freeLists, live, counters2, freeLists2, live2, s)
    {
      assert Untouched(counters, freeLists, live, counters1, freeLists1, live1, s);
      assert Untouched(counters1, freeLists1, live1, counters2, freeLists2, live2, s);
    }
  }

  /** `handles` are the handles of the ids 0 .. n - 1 of `signal`, in order. */
  ghost predicate Handles(handles: seq<ConnectionId>, signal: int, n: nat)
  {
    |handles| == n && forall i :: 0 <= i < n ==> handles[i] == ConnectionId(signal, i)
  }

  /** The handle of id `n` extends the handles of 0 .. n - 1. */
  lemma HandlesStep(handles: seq<ConnectionId>, signal: int, n: nat)
    requires Handles(handles, signal, n)
    ensures Handles(handles + [ConnectionId(signal, n)], signal, n + 1)
  {
  }

  /**
   * `n` connects of the same slot and data to a signal with no live
   * subscription, no released id and its counter at 0 return the handles of
   * the ids 0 .. n - 1, in that order; nothing else changes.
   */
  method ConnectMany(reg: Signaling, signal: int, n: nat, slot: Pointer, data: Pointer) returns (handles: seq<ConnectionId>)
    requires reg.Valid()
    requires slot != Null
    requires CounterOf(reg.counters, signal) == 0 && FreeListOf(reg.freeLists, signal) == [] && PoolOf(reg.live, signal) == map[]
    modifies reg
    ensures reg.Valid()
    ensures Handles(handles, signal, n)
    ensures Filled(old(reg.counters), old(reg.freeLists), old(reg.live), reg.counters, reg.freeLists, reg.live,
                   signal, n, Subscription(slot, data, Null))
  {
    handles := [];
    var i := 0;
    while i < n
      invariant 0 <= i <= n
      invariant reg.Valid()
      invariant Handles(handles, signal, i)
      invariant Filled(old(reg.counters), old(reg.freeLists), old(reg.live), reg.counters, reg.freeLists, reg.live,
                       signal, i, Subscription(slot, data, Null))
    {
      ghost var counters1, freeLists1, live1 := reg.counters, reg.freeLists, reg.live;
      var r := reg.ConnectWithData(signal, slot, data, Null);
      FilledStep(old(reg.counters), old(reg.freeLists), old(reg.live), counters1, freeLists1, live1,
                 reg.counters, reg.freeLists, reg.live, signal, i, Subscription(slot, data, Null), r);
      HandlesStep(handles, signal, i);
      handles := handles + [r.id];
      i := i + 1;
    }
  }

  /** The live map of `signal` holds exactly the ids `ids`, each with subscription `sub`. */
  ghost predicate PoolIs(live: map<int, Pool>, signal: int, ids: set<nat>, sub: Subscription)
  {
    && PoolOf(live, signal).Keys == ids
    && forall k :: k in PoolOf(live, signal) ==> PoolOf(live, signal)[k] == sub
  }

  /** Erasing one live id takes it out of the live map and leaves the other subscriptions as they were. */
  lemma PoolIsErase(live: map<int, Pool>, live': map<int, Pool>, signal: int, ids: set<nat>, sub: Subscription, sid: nat)
    requires PoolIs(live, signal, ids, sub)
    requires sid in ids
    requires live' == live[signal := PoolOf(live, signal) - {sid}]
    ensures PoolIs(live', signal, ids - {sid}, sub)
  {
  }

  /**
   * Calls made over a live map whose subscriptions all equal `sub` all carry
   * `sub`'s slot and data.
   */
  lemma UniformCalls<A>(pool: Pool, sub: Subscription, owner: Signaling, arguments: A, calls: seq<SlotCall<A>>)
    requires forall k :: k in pool ==> pool[k] == sub
    requires var keys := AscendingKeys(pool.Keys);
      && |calls| == |pool|
      && forall i :: 0 <= i < |calls| ==>
           calls[i] == SlotCall(pool[keys[i] as nat].slot, owner, arguments, pool[keys[i] as nat].data)
    ensures forall c :: c in calls ==> c.slot == sub.slot && c.data == sub.data
  {
    var keys := AscendingKeys(pool.Keys);
    forall c | c in calls
      ensures c.slot == sub.slot && c.data == sub.data
    {
      var i :| 0 <= i < |calls| && calls[i] == c;
      assert keys[i] in pool.Keys;
    }
  }

  /**
   * Disconnecting, through the handles `handles`, every id of `K` from a
   * signal whose live ids are `ids`, all holding `sub`, leaves exactly
   * `ids - K` live.
   */
  method DisconnectEach(reg: Signaling, signal: int, handles: seq<ConnectionId>, ghost ids: set<nat>, K: set<nat>, ghost sub: Subscription)
    requires reg.Valid()
    requires PoolIs(reg.live, signal, ids, sub)
    requires K <= ids
    requires forall k :: k in K ==> k < |handles| && handles[k] == ConnectionId(signal, k)
    modifies reg
    ensures reg.Valid()
    ensures PoolIs(reg.live, signal, ids - K, sub)
  {
    var remaining: set<int> := K;
    while remaining != {}
      invariant remaining <= K
      invariant reg.Valid()
      invariant PoolIs(reg.live, signal, ids - (K - remaining), sub)
      decreases remaining
    {
      var k := NextKey(remaining);
      ghost var live1 := reg.live;
      var fired := reg.Disconnect(handles[k]);
      PoolIsErase(live1, reg.live, signal, ids - (K - remaining), sub, k as nat);
      assert ids - (K - remaining) - {k as nat} == ids - (K - (remaining - {k}));
      remaining := remaining - {k};
    }
  }

  /**
   * The test's first round: `n` connects, keeping the handles; an emit (`n`
   * calls); disconnecting, through their handles, a set `K` of those ids; an
   * emit (`n - |K|` calls); a bulk clear of the signal and a last emit (no
   * call). Every call carries the connected slot and data.
   */
  method EmitCounts(signal: int, n: nat, K: set<nat>, slot: Pointer, data: Pointer)
    returns (first: seq<SlotCall<()>>, second: seq<SlotCall<()>>, last: seq<SlotCall<()>>)
    requires slot != Null
    requires forall k :: k in K ==> k < n
    ensures |first| == n && |second| == n - |K| && last == []
    ensures forall c :: c in first + second ==> c.slot == slot && c.data == data
  {
    var sub := Subscription(slot, data, Null);
    var reg := new Signaling();
    var handles := ConnectMany(reg, signal, n, slot, data);
    assert PoolIs(reg.live, signal, Issued(n), sub);
    first := reg.Emit(signal, ());
    UniformCalls(PoolOf(reg.live, signal), sub, reg, (), first);
    assert K <= Issued(n);
    DisconnectEach(reg, signal, handles, Issued(n), K, sub);
    DifferenceSize(Issued(n), K);
    second := reg.Emit(signal, ());
    UniformCalls(PoolOf(reg.live, signal), sub, reg, (), second);
    var fired := reg.DisconnectSignal(signal);
    last := reg.Emit(signal, ());
  }

  /** The ids 0, 1, 2 are walked in that order. */
  lemma AscendingZeroOneTwo()
    ensures AscendingKeys({0, 1, 2}) == [0, 1, 2]
  {
    AscendingKeysUnique({0, 1, 2}, [0, 1, 2]);
  }

  /** Emitting over the live map of ids 0, 1, 2 calls their slots in that id order. */
  lemma CallsInIdOrder<A>(pool: Pool, owner: object, arguments: A, calls: seq<SlotCall<A>>)
    requires pool == map[0 := Subscription(At(1), Null, Null), 1 := Subscription(At(4), Null, Null),
                         2 := Subscription(At(3), Null, Null)]
    requires var keys := AscendingKeys(pool.Keys);
      && |calls| == |pool|
      && forall i :: 0 <= i < |calls| ==>
           calls[i] == SlotCall(pool[keys[i] as nat].slot, owner, arguments, pool[keys[i] as nat].data)
    ensures |calls| == 3
    ensures calls[0].slot == At(1) && calls[1].slot == At(4) && calls[2].slot == At(3)
  {
    assert pool.Keys == {0, 1, 2};
    AscendingZeroOneTwo();
  }

  /** Three connects to an empty signal 0 hand out the ids 0, 1 and 2. */
  method ConnectThree(reg: Signaling) returns (ids: seq<nat>)
    requires reg.Valid()
    requires CounterOf(reg.counters, 0) == 0 && FreeListOf(reg.freeLists, 0) == [] && PoolOf(reg.live, 0) == map[]
    modifies reg
    ensures reg.Valid()
    ensures ids == [0, 1, 2]
    ensures CounterOf(reg.counters, 0) == 3 && FreeListOf(reg.freeLists, 0) == []
    ensures PoolOf(reg.live, 0) == map[0 := Subscription(At(1), Null, Null), 1 := Subscription(At(2), Null, Null),
                                       2 := Subscription(At(3), Null, Null)]
  {
    var r0 := reg.ConnectSlot(0, At(1));
    assert CounterOf(reg.counters, 0) == 1 && FreeListOf(reg.freeLists, 0) == [];
    var r1 := reg.ConnectSlot(0, At(2));
    assert CounterOf(reg.counters, 0) == 2 && FreeListOf(reg.freeLists, 0) == [];
    var r2 := reg.ConnectSlot(0, At(3));
    ids := [r0.id.subconnectionId, r1.id.subconnectionId, r2.id.subconnectionId];
  }

  /** Releasing id 1 and connecting again hands 1 out to the new slot. */
  method ReleaseAndReconnect(reg: Signaling) returns (id: nat)
    requires reg.Valid()
    requires CounterOf(reg.counters, 0) == 3 && FreeListOf(reg.freeLists, 0) == []
    requires PoolOf(reg.live, 0) == map[0 := Subscription(At(1), Null, Null), 1 := Subscription(At(2), Null, Null),
                                        2 := Subscription(At(3), Null, Null)]
    modifies reg
    ensures reg.Valid()
    ensures id == 1
    ensures PoolOf(reg.live, 0) == map[0 := Subscription(At(1), Null, Null), 1 := Subscription(At(4), Null, Null),
                                       2 := Subscription(At(3), Null, Null)]
  {
    var fired := reg.Disconnect(ConnectionId(0, 1));
    assert FreeListOf(reg.freeLists, 0) == [1];
    var r := reg.ConnectSlot(0, At(4));
    id := r.id.subconnectionId;
  }

  /**
   * A released id is reused before a fresh one, and emission follows the ids,
   * not the order of connection: ids 0, 1, 2 are handed out, 1 is released
   * and handed out again to the fourth slot, which is then called second.
   */
  method ReuseScenario() returns (ids: seq<nat>, slots: seq<Pointer>)
    ensures ids == [0, 1, 2, 1]
    ensures slots == [At(1), At(4), At(3)]
  {
    var reg := new Signaling();
    var first := ConnectThree(reg);
    var again := ReleaseAndReconnect(reg);
    ids := first + [again];
    var calls := reg.Emit(0, ());
    CallsInIdOrder(PoolOf(reg.live, 0), reg, (), calls);
    slots := [calls[0].slot, calls[1].slot, calls[2].slot];
  }

  /**
   * Disconnecting the same handle twice: the first fires the detach hook and
   * releases the id, the second finds nothing and changes nothing.
   */
  method DisconnectTwice(slot: Pointer, data: Pointer, detach: Pointer)
    returns (first: seq<DetachCall>, second: seq<DetachCall>, freeList: seq<nat>)
    requires slot != Null && detach != Null
    ensures first == [DetachCall(detach, data)]
    ensures second == []
    ensures freeList == [0]
  {
    var reg := new Signaling();
    var r := reg.ConnectWithData(7, slot, data, detach);
    first := reg.Disconnect(r.id);
    second := reg.Disconnect(r.id);
    freeList := FreeListOf(reg.freeLists, 7);
  }

  /**
   * The bulk clear of a signal whose live map is already empty does nothing,
   * so the free-list survives it: after releasing 1 then 0, a clear and a
   * connect hand out 1, not the 0 a reset counter would give.
   */
  method ClearOfEmptyKeepsFreeList() returns (fired: seq<DetachCall>, id: nat)
    ensures fired == []
    ensures id == 1
  {
    var reg := new Signaling();
    var r0 := reg.ConnectSlot(3, At(1));
    assert CounterOf(reg.counters, 3) == 1 && FreeListOf(reg.freeLists, 3) == [];
    var r1 := reg.ConnectSlot(3, At(2));
    assert r1.id == ConnectionId(3, 1) && PoolOf(reg.live, 3).Keys == {0, 1};
    var f1 := reg.Disconnect(r1.id);
    assert FreeListOf(reg.freeLists, 3) == [1] && PoolOf(reg.live, 3).Keys == {0};
    var f0 := reg.Disconnect(r0.id);
    assert FreeListOf(reg.freeLists, 3) == [1, 0] && PoolOf(reg.live, 3) == map[];
    fired := reg.DisconnectSignal(3);
    var r := reg.ConnectSlot(3, At(3));
    id := r.id.subconnectionId;
  }

  /**
   * After a bulk clear the counter restarts at 0, so a handle from before
   * the clear names the next subscription: disconnecting the stale handle
   * removes the new subscription, and the signal then emits nothing.
   */
  method StaleHandleAfterClear(detach: Pointer) returns (oldId: nat, newId: nat, fired: seq<DetachCall>, calls: seq<SlotCall<()>>)
    requires detach != Null
    ensures oldId == newId == 0
    ensures fired == [DetachCall(detach, At(2))]
    ensures calls == []
  {
    var reg := new Signaling();
    var stale := reg.ConnectWithData(5, At(1), At(1), Null);
    var cleared := reg.DisconnectSignal(5);
    var renewed := reg.ConnectWithData(5, At(2), At(2), detach);
    oldId, newId := stale.id.subconnectionId, renewed.id.subconnectionId;
    fired := reg.Disconnect(stale.id);
    calls := reg.Emit(5, ());
  }

  /** `disconnect()` leaves every signal silent: after it, an emit on any signal makes no call. */
  method DisconnectAllSilences(n1: nat, n2: nat, signal: int) returns (calls: seq<SlotCall<int>>)
    ensures calls == []
  {
    var reg := new Signaling();
    ghost var counters1, freeLists1, live1 := reg.counters, reg.freeLists, reg.live;
    var handles1 := ConnectMany(reg, 1, n1, At(1), Null);
    assert Untouched(counters1, freeLists1, live1, reg.counters, reg.freeLists, reg.live, 2);
    var handles2 := ConnectMany(reg, 2, n2, At(2), Null);
    ghost var counters0, freeLists0, live0 := reg.counters, reg.freeLists, reg.live;
    var fired := reg.DisconnectAll();
    assert Cleared(counters0, freeLists0, live0, reg.counters, reg.freeLists, reg.live, signal);
    calls := reg.Emit(signal, 42);
  }
}
