/**
 * The iteration order of `std::map`: a map with integer keys is walked from its
 * least key to its greatest. Dafny's `map` is unordered, so the order is given
 * here as the ascending enumeration of a finite set of keys.
 */
module OrderedKeys {

  /** A set other than the empty one has an element. */
  lemma HasElement(s: set<int>)
    requires s != {}
    ensures exists x :: x in s
  {
    if forall x :: x !in s {
      assert false;
    }
  }

  /** Every non-empty finite set of integers has a least element. */
  lemma {:induction false} LeastExists(s: set<int>)
    requires s != {}
    ensures exists k :: k in s && forall j :: j in s ==> k <= j
    decreases s
  {
    HasElement(s);
    var x :| x in s;
    if s == {x} {
      assert forall j :: j in s ==> x <= j;
    } else {
      var rest := s - {x};
      LeastExists(rest);
      var m :| m in rest && forall j :: j in rest ==> m <= j;
      var k := if x < m then x else m;
      forall j | j in s ensures k <= j {
        if j != x { assert j in rest; }
      }
      assert k in s;
    }
  }

  /** The least element of a non-empty set: where an ordered map's iteration starts. */
  ghost function Least(s: set<int>): (k: int)
    requires s != {}
    ensures k in s
    ensures forall j :: j in s ==> k <= j
  {
    LeastExists(s);
    var k :| k in s && forall j :: j in s ==> k <= j;
    k
  }

  ghost predicate StrictlyIncreasing(keys: seq<int>)
  {
    forall i, j :: 0 <= i < j < |keys| ==> keys[i] < keys[j]
  }

  /**
   * The keys of `s` in the order an ordered map visits them: least first,
   * then the ascending keys of the rest.
   */
  ghost function AscendingKeys(s: set<int>): (keys: seq<int>)
    ensures |keys| == |s|
    ensures forall i :: 0 <= i < |keys| ==> keys[i] in s
    decreases s
  {
    if s == {} then []
    else
      var k := Least(s);
      [k] + AscendingKeys(s - {k})
  }

  /** An ordered walk starts at the least key and goes on with the walk of the rest. */
  lemma AscendingKeysFromLeast(s: set<int>, k: int)
    requires k in s
    requires forall j :: j in s ==> k <= j
    ensures AscendingKeys(s) == [k] + AscendingKeys(s - {k})
  {
    assert Least(s) == k;
  }

  /**
   * One step of an ordered walk: after visiting `visited`, with `remaining`
   * left, taking the least remaining key extends what was visited by it.
   */
  lemma AscendingKeysStep(visited: seq<int>, remaining: set<int>, k: int)
    requires k in remaining
    requires forall j :: j in remaining ==> k <= j
    ensures visited + AscendingKeys(remaining) == (visited + [k]) + AscendingKeys(remaining - {k})
  {
    AscendingKeysFromLeast(remaining, k);
  }

  /**
   * An ordered walk over `keys` in progress: `visited` is what it has
   * visited so far, `remaining` what it has still to visit.
   */
  ghost predicate Walk(keys: set<int>, visited: seq<int>, remaining: set<int>)
  {
    && remaining <= keys
    && (forall i :: 0 <= i < |visited| ==> visited[i] in keys)
    && AscendingKeys(keys) == visited + AscendingKeys(remaining)
  }

  /** A walk starts having visited nothing. */
  lemma WalkStart(keys: set<int>)
    ensures Walk(keys, [], keys)
  {
    assert [] + AscendingKeys(keys) == AscendingKeys(keys);
  }

  /** A walk with nothing left to visit has visited the whole ascending enumeration. */
  lemma WalkDone(keys: set<int>, visited: seq<int>)
    requires Walk(keys, visited, {})
    ensures visited == AscendingKeys(keys)
  {
    assert AscendingKeys({}) == [];
    assert visited + [] == visited;
  }

  /** A walk visits the least remaining key next, and stays a walk. */
  lemma WalkStep(keys: set<int>, visited: seq<int>, remaining: set<int>, k: int)
    requires Walk(keys, visited, remaining)
    requires k in remaining
    requires forall j :: j in remaining ==> k <= j
    ensures Walk(keys, visited + [k], remaining - {k})
  {
    AscendingKeysStep(visited, remaining, k);
    var visited' := visited + [k];
    forall i | 0 <= i < |visited'| ensures visited'[i] in keys {
      if i < |visited| { assert visited'[i] == visited[i]; }
    }
  }

  /** The key an ordered map's iterator reaches next: the least key not yet visited. */
  method NextKey(remaining: set<int>) returns (k: int)
    requires remaining != {}
    ensures k in remaining
    ensures forall j :: j in remaining ==> k <= j
  {
    LeastExists(remaining);
    k :| k in remaining && forall j :: j in remaining ==> k <= j;
  }

  /** Walking an ordered map visits each key exactly once, in strictly increasing order. */
  lemma {:induction false} AscendingKeysSorted(s: set<int>)
    ensures StrictlyIncreasing(AscendingKeys(s))
    ensures forall k :: k in s ==> k in AscendingKeys(s)
    decreases s
  {
    if s != {} {
      var k := Least(s);
      var rest := AscendingKeys(s - {k});
      AscendingKeysSorted(s - {k});
      var keys := [k] + rest;
      assert AscendingKeys(s) == keys;
      forall i, j | 0 <= i < j < |keys| ensures keys[i] < keys[j] {
        assert keys[j] == rest[j - 1];
        if i > 0 {
          assert keys[i] == rest[i - 1];
        }
      }
      forall x | x in s ensures x in keys {
        if x != k {
          assert x in rest;
        }
      }
    }
  }

  /**
   * The ascending enumeration is determined by the set: any strictly
   * increasing sequence holding exactly the elements of `s` is it.
   */
  lemma {:induction false} AscendingKeysUnique(s: set<int>, keys: seq<int>)
    requires StrictlyIncreasing(keys)
    requires forall i :: 0 <= i < |keys| ==> keys[i] in s
    requires forall k :: k in s ==> k in keys
    ensures AscendingKeys(s) == keys
    decreases |keys|
  {
    if keys == [] {
      forall x | x in s ensures x in keys { }
      assert s == {};
    } else {
      var k := keys[0];
      assert forall j :: j in s ==> k <= j by {
        forall j | j in s ensures k <= j {
          var i :| 0 <= i < |keys| && keys[i] == j;
        }
      }
      assert Least(s) == k;
      var rest := keys[1..];
      forall i | 0 <= i < |rest| ensures rest[i] in s - {k} {
        assert rest[i] == keys[i + 1];
      }
      forall j | j in s - {k} ensures j in rest {
        var i :| 0 <= i < |keys| && keys[i] == j;
        assert i != 0;
        assert rest[i - 1] == j;
      }
      AscendingKeysUnique(s - {k}, rest);
    }
  }
}
