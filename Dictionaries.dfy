/**
 * The .NET `Dictionary<string, List<string>>` that holds a dependency graph.
 * Enumeration follows insertion order (the dictionary is never shrunk, so this is
 * the order .NET yields); assigning to an existing key keeps its position.
 * Keys are compared ordinally and case-sensitively (the default comparer).
 */
module Dictionaries {

  datatype Dict = Dict(keys: seq<string>, values: map<string, seq<string>>) {

    /** The keys in enumeration order are distinct and are exactly the mapped keys. */
    ghost predicate Valid() {
      && (forall i, j | 0 <= i < j < |keys| :: keys[i] != keys[j])
      && (forall k :: k in values <==> k in keys)
    }

    /** `dictionary[key] = value`. */
    function Put(key: string, value: seq<string>): (d: Dict)
      ensures Valid() ==> d.Valid()
      ensures key in d.values && d.values[key] == value
      ensures forall k | k in values && k != key :: k in d.values && d.values[k] == values[k]
      ensures forall k | k in d.values :: k == key || k in values
      ensures keys <= d.keys && |d.keys| <= |keys| + 1
    {
      if key in values then Dict(keys, values[key := value])
      else Dict(keys + [key], values[key := value])
    }
  }

  lemma PutKeys(d: Dict, key: string, value: seq<string>)
    ensures d.Put(key, value).values.Keys == d.values.Keys + {key}
  {
  }

  /** A new or cleared dictionary. */
  function Empty(): (d: Dict)
    ensures d.Valid() && d.keys == [] && d.values == map[]
  {
    Dict([], map[])
  }

  /** A dictionary object; holders of the reference observe every later update. */
  class Dictionary {
    var contents: Dict

    constructor ()
      ensures contents == Empty()
    {
      contents := Empty();
    }

    method Clear()
      modifies this
      ensures contents == Empty()
    {
      contents := Empty();
    }

    method Set(key: string, value: seq<string>)
      modifies this
      ensures contents == old(contents).Put(key, value)
    {
      contents := contents.Put(key, value);
    }
  }
}
