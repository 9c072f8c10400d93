/** The reference-counting table of rpyc_async/lib/colls.py: each key has the object it was first registered with and a
    count, which rises with every further registration and falls with every reference given back; the entry goes when
    nothing is left. */
module Registry {
  import opened Core

  /** A registered object and its count. */
  datatype Slot<T> = Slot(obj: T, count: int)

  /** The table after registering an object once more: a key that is present keeps its first object. */
  function AddRef<K, T>(m: map<K, Slot<T>>, key: K, obj: T): map<K, Slot<T>> {
    m[key := if key in m then Slot(m[key].obj, m[key].count + 1) else Slot(obj, 1)]
  }

  /** The table after giving `count` references back: the entry goes once nothing is left. */
  function DecRef<K, T>(m: map<K, Slot<T>>, key: K, count: int): map<K, Slot<T>> {
    if key !in m then m
    else if m[key].count - count <= 0 then m - {key}
    else m[key := Slot(m[key].obj, m[key].count - count)]
  }

  /** How many references the table holds for a key; none when it is absent. */
  function CountOf<K, T>(m: map<K, Slot<T>>, key: K): int {
    if key in m then m[key].count else 0
  }

  class RefCountingColl<K(==), T> {
    var slots: map<K, Slot<T>>

    constructor ()
      ensures slots == map[]
    {
      slots := map[];
    }

    method Add(key: K, obj: T)
      modifies this
      ensures slots == AddRef(old(slots), key, obj)
      ensures slots.Keys == old(slots).Keys + {key} && forall k | k in old(slots) && k != key :: slots[k] == old(slots)[k]
      ensures slots[key] == if key in old(slots) then Slot(old(slots)[key].obj, old(slots)[key].count + 1) else Slot(obj, 1)
    {
      if key !in slots {
        slots := slots[key := Slot(obj, 1)];
      } else {
        var slot := slots[key];
        slots := slots[key := Slot(slot.obj, slot.count + 1)];
      }
    }

    /** True exactly when the object was removed; a missing key is reported, not raised. */
    method Decref(key: K, count: int) returns (deleted: bool)
      modifies this
      ensures slots == DecRef(old(slots), key, count)
      ensures deleted <==> key in old(slots) && key !in slots
      ensures key in old(slots) ==> (deleted <==> CountOf(old(slots), key) <= count)
      ensures slots.Keys == old(slots).Keys - (if deleted then {key} else {})
      ensures forall k | k in slots :: slots[k].obj == old(slots)[k].obj
                                       && slots[k].count == old(slots)[k].count - if k == key then count else 0
    {
      if key !in slots {
        return false;
      }
      var slot := slots[key];
      if slot.count - count <= 0 {
        slots := slots - {key};
        deleted := true;
      } else {
        slots := slots[key := Slot(slot.obj, slot.count - count)];
        deleted := false;
      }
    }

    method GetItem(key: K) returns (r: Result<T>)
      ensures r == if key in slots then Ok(slots[key].obj) else Err(KeyError)
    {
      r := if key in slots then Ok(slots[key].obj) else Err(KeyError);
    }

    method Clear()
      modifies this
      ensures slots == map[]
    {
      slots := map[];
    }
  }

  /** Taking back what was added, in one go, restores the table when the object was already there, and removes
      the entry when it was not. */
  lemma AddThenDecRef<K, T>(m: map<K, Slot<T>>, key: K, obj: T)
    requires key in m ==> m[key].count >= 1
    ensures DecRef(AddRef(m, key, obj), key, 1) == m
  {
    if key !in m {
      assert m[key := Slot(obj, 1)] - {key} == m;
    } else {
      assert m[key := Slot(m[key].obj, m[key].count + 1)][key := m[key]] == m;
    }
  }
}
