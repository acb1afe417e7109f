/**
 * The `??=` idiom of the builders: a list or dictionary property that is null until the
 * first element is added, created empty at that moment and then changed in place.
 */
module LazyCollections {
  import opened Wrappers

  /** The list after appending `more`: a null list is created first. */
  function Appended<T>(list: Option<seq<T>>, more: seq<T>): (r: Option<seq<T>>)
    ensures r.Some? && |r.value| == (if list.Some? then |list.value| else 0) + |more|
    ensures list.Some? ==> r.value[..|list.value|] == list.value
    ensures r.value[|r.value| - |more|..] == more
  {
    Some((if list.Some? then list.value else []) + more)
  }

  /** Appending in two steps is appending once. */
  lemma AppendedTwice<T>(list: Option<seq<T>>, a: seq<T>, b: seq<T>)
    ensures Appended(Appended(list, a), b) == Appended(list, a + b)
  {
    var base := if list.Some? then list.value else [];
    assert base + a + b == base + (a + b);
  }

  /** The dictionary after `table[key] = value`: a null dictionary is created first. */
  function WithEntry<K(!new), V>(table: Option<map<K, V>>, key: K, value: V): (r: Option<map<K, V>>)
    ensures r.Some? && key in r.value && r.value[key] == value
    ensures forall k :: k in r.value <==> k == key || (table.Some? && k in table.value)
    ensures table.Some? ==> forall k :: k in table.value && k != key ==> r.value[k] == table.value[k]
  {
    Some((if table.Some? then table.value else map[])[key := value])
  }
}
