/**
 * The take-once map `PushPopMap<K,V>` of include/push_pop_map.h.
 *
 * Its mutex is not modelled: `push` and `pop` are atomic steps.
 */
module TakeOnceMap {

  class PushPopMap<K(==), V> {
    /** The `std::unordered_map` member. */
    var hashMap: map<K, V>

    constructor ()
      ensures hashMap == map[]
    {
      hashMap := map[];
    }

    /**
     * Reads and removes the entry for `k`. The C++ writes the value through a
     * reference parameter and leaves it alone when `k` is absent; here `v` is
     * that parameter's value on entry and `v'` its value on return.
     */
    method Pop(k: K, v: V) returns (found: bool, v': V)
      modifies this
      ensures found <==> k in old(hashMap)
      ensures found ==> v' == old(hashMap)[k] && hashMap == old(hashMap) - {k}
      ensures !found ==> v' == v && hashMap == old(hashMap)
      // pop never adds a key
      ensures hashMap.Keys == old(hashMap).Keys - {k}
    {
      if k in hashMap {
        found, v' := true, hashMap[k];
        hashMap := hashMap - {k};
      } else {
        found, v' := false, v;
      }
    }

    /** Inserts `k` with value `v`, replacing any value `k` had. */
    method Push(k: K, v: V)
      modifies this
      ensures hashMap == old(hashMap)[k := v]
      ensures hashMap.Keys == old(hashMap).Keys + {k}
      ensures forall k' :: k' in old(hashMap) && k' != k ==> hashMap[k'] == old(hashMap)[k']
    {
      hashMap := hashMap[k := v];
    }
  }

  /**
   * Take-once: after `push(k, v)` the first `pop(k)` finds `v` and a second
   * `pop(k)` finds nothing and leaves its out-parameter alone.
   */
  method PushThenPopTwice<K(==), V>(k: K, v: V, d: V) returns (found1: bool, v1: V, found2: bool, v2: V)
    ensures found1 && v1 == v
    ensures !found2 && v2 == v1
  {
    var m := new PushPopMap<K, V>();
    m.Push(k, v);
    found1, v1 := m.Pop(k, d);
    found2, v2 := m.Pop(k, v1);
  }

  /** Entries for other keys are not disturbed by a push or by a pop of `k`. */
  method KeyIsolation<K(==), V>(k: K, v: V, other: K, w: V, d: V) returns (found: bool, got: V)
    requires other != k
    ensures found && got == w
  {
    var m := new PushPopMap<K, V>();
    m.Push(other, w);
    m.Push(k, v);
    var _, _ := m.Pop(k, d);
    found, got := m.Pop(other, d);
  }
}
