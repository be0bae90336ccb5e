/**
 * How a signal hands out subscription ids. Each signal has a counter of the
 * next fresh id and a FIFO free-list of released ids; the ids in use are the
 * keys of the signal's live map. The allocation invariant: the free-list has no
 * duplicates, shares no id with the live map, and the two together hold
 * exactly the ids 0 .. counter - 1 that the counter has issued.
 */
module IdAllocation {

  /** The ids a free-list holds. */
  ghost function Elements(free: seq<nat>): set<nat>
  {
    set i | 0 <= i < |free| :: free[i]
  }

  ghost predicate NoDuplicates(free: seq<nat>)
  {
    forall i, j :: 0 <= i < j < |free| ==> free[i] != free[j]
  }

  /** The ids a counter has issued so far: 0, 1, ..., counter - 1. */
  ghost function Issued(counter: nat): (ids: set<nat>)
    ensures forall k: nat :: k in ids <==> k < counter
    ensures |ids| == counter
  {
    if counter == 0 then {} else Issued(counter - 1) + {counter - 1}
  }

  /** The allocation invariant of one signal. */
  ghost predicate Partitioned(counter: nat, free: seq<nat>, liveIds: set<nat>)
  {
    && NoDuplicates(free)
    && Elements(free) !! liveIds
    && Elements(free) + liveIds == Issued(counter)
  }

  /** The id `connect` hands out: the oldest released id if there is one, else the counter. */
  function NextId(counter: nat, free: seq<nat>): nat
  {
    if free == [] then counter else free[0]
  }

  /** Popping the front of a free-list without duplicates takes exactly that id out of it. */
  lemma ElementsTail(free: seq<nat>)
    requires free != []
    requires NoDuplicates(free)
    ensures Elements(free) == {free[0]} + Elements(free[1..])
    ensures NoDuplicates(free[1..])
    ensures free[0] !in Elements(free[1..])
  {
    var rest := free[1..];
    forall x | x in Elements(free) ensures x in {free[0]} + Elements(rest) {
      var i :| 0 <= i < |free| && free[i] == x;
      if i > 0 { assert rest[i - 1] == x; }
    }
    forall x | x in Elements(rest) ensures x in Elements(free) && x != free[0] {
      var i :| 0 <= i < |rest| && rest[i] == x;
      assert free[i + 1] == x;
    }
  }

  /** Pushing an id at the back adds exactly that id, and keeps a list duplicate-free when the id is new. */
  lemma ElementsAppend(free: seq<nat>, id: nat)
    ensures Elements(free + [id]) == Elements(free) + {id}
    ensures NoDuplicates(free) && id !in Elements(free) ==> NoDuplicates(free + [id])
  {
    var free' := free + [id];
    forall x | x in Elements(free') ensures x in Elements(free) + {id} {
      var i :| 0 <= i < |free'| && free'[i] == x;
      if i < |free| { assert free[i] == x; }
    }
    forall x | x in Elements(free) ensures x in Elements(free') {
      var i :| 0 <= i < |free| && free[i] == x;
      assert free'[i] == x;
    }
    assert free'[|free|] == id;
    if NoDuplicates(free) && id !in Elements(free) {
      forall i, j | 0 <= i < j < |free'| ensures free'[i] != free'[j] {
        if j == |free| {
          assert free'[i] == free[i];
          assert free[i] in Elements(free);
        } else {
          assert free'[i] == free[i] && free'[j] == free[j];
        }
      }
    }
  }

  /**
   * Allocation never hands out a live id, and the state after it (free-list
   * popped, or counter advanced) satisfies the invariant again.
   */
  lemma AllocateKeepsPartition(counter: nat, free: seq<nat>, liveIds: set<nat>)
    requires Partitioned(counter, free, liveIds)
    ensures NextId(counter, free) !in liveIds
    ensures free == [] ==> Partitioned(counter + 1, free, liveIds + {counter})
    ensures free != [] ==> Partitioned(counter, free[1..], liveIds + {free[0]})
  {
    if free == [] {
      AllocateFresh(counter, liveIds);
    } else {
      AllocateReleased(counter, free, liveIds);
    }
  }

  /** With no released id, the counter's value is fresh and advancing it keeps the invariant. */
  lemma AllocateFresh(counter: nat, liveIds: set<nat>)
    requires Partitioned(counter, [], liveIds)
    ensures counter !in liveIds
    ensures Partitioned(counter + 1, [], liveIds + {counter})
  {
    assert Elements([]) == {};
    assert Issued(counter + 1) == Issued(counter) + {counter};
  }

  /** The oldest released id is not live, and popping it into the live set keeps the invariant. */
  lemma AllocateReleased(counter: nat, free: seq<nat>, liveIds: set<nat>)
    requires free != []
    requires Partitioned(counter, free, liveIds)
    ensures free[0] !in liveIds
    ensures Partitioned(counter, free[1..], liveIds + {free[0]})
  {
    ElementsTail(free);
  }

  /** Releasing a live id to the back of the free-list keeps the invariant. */
  lemma ReleaseKeepsPartition(counter: nat, free: seq<nat>, liveIds: set<nat>, id: nat)
    requires Partitioned(counter, free, liveIds)
    requires id in liveIds
    ensures Partitioned(counter, free + [id], liveIds - {id})
  {
    ElementsAppend(free, id);
  }

  lemma {:induction false} ElementsSize(free: seq<nat>)
    requires NoDuplicates(free)
    ensures |Elements(free)| == |free|
  {
    if free != [] {
      var init := free[..|free| - 1];
      var last := free[|free| - 1];
      assert NoDuplicates(init);
      ElementsSize(init);
      assert Elements(free) == Elements(init) + {last} by {
        forall x | x in Elements(free) ensures x in Elements(init) + {last} {
          var i :| 0 <= i < |free| && free[i] == x;
          if i < |free| - 1 { assert init[i] == x; }
        }
      }
      forall i | 0 <= i < |init| ensures init[i] != last {
        assert init[i] == free[i];
      }
    }
  }

  /**
   * Memory stays bounded under churn: the free-list and the live map together
   * hold exactly `counter` ids.
   */
  lemma PartitionSize(counter: nat, free: seq<nat>, liveIds: set<nat>)
    requires Partitioned(counter, free, liveIds)
    ensures |free| + |liveIds| == counter
  {
    ElementsSize(free);
    assert |Elements(free) + liveIds| == |Elements(free)| + |liveIds|;
  }
}
