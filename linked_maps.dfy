/** Kotlin's `mutableMapOf()` is a LinkedHashMap: iterating it visits the
    keys in the order they were first inserted. The model keeps that order
    explicitly beside the map. */
module LinkedMaps {

  ghost predicate Distinct<T>(s: seq<T>) {
    forall i, j :: 0 <= i < j < |s| ==> s[i] != s[j]
  }

  /** The distinct elements of `s` in the order of their first occurrence. */
  function FirstSeen<T(==)>(s: seq<T>): seq<T> {
    if s == [] then []
    else
      var seen := FirstSeen(s[..|s| - 1]);
      if s[|s| - 1] in seen then seen else seen + [s[|s| - 1]]
  }

  /** One more element either is already there or goes last. */
  lemma FirstSeenSnoc<T>(s: seq<T>, x: T)
    ensures FirstSeen(s + [x]) == if x in FirstSeen(s) then FirstSeen(s) else FirstSeen(s) + [x]
  {
    assert (s + [x])[..|s|] == s;
  }

  /** FirstSeen keeps every element exactly once. */
  lemma {:induction false} FirstSeenSpec<T>(s: seq<T>)
    ensures Distinct(FirstSeen(s))
    ensures forall x :: x in FirstSeen(s) <==> x in s
  {
    if s != [] {
      var front := s[..|s| - 1];
      FirstSeenSpec(front);
      assert s == front + [s[|s| - 1]];
      forall x ensures x in s <==> x in front || x == s[|s| - 1] { }
    }
  }

  /** An insertion-ordered map: `keys` lists the keys of `values` in the
      order they were inserted. */
  datatype LinkedMap<K(==, !new), V> = LinkedMap(keys: seq<K>, values: map<K, V>) {

    ghost predicate Valid() {
      Distinct(keys) && forall k :: k in values <==> k in keys
    }

    /** `m[k] = v`: a new key goes last, a present key keeps its place and
        has its value replaced. */
    function Put(k: K, v: V): (m: LinkedMap<K, V>)
      ensures Valid() ==> m.Valid()
      ensures m.values == values[k := v]
      ensures k in values ==> m.keys == keys
      ensures k !in values ==> m.keys == keys + [k]
    {
      LinkedMap(if k in values then keys else keys + [k], values[k := v])
    }
  }

  function Empty<K(==, !new), V>(): (m: LinkedMap<K, V>)
    ensures m.Valid() && m.values == map[]
  {
    LinkedMap([], map[])
  }
}
