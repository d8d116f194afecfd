/** A Python dict with string keys: iteration follows insertion order, assigning to a key that is
    present keeps its place, popping and inserting again moves it to the end. */
module OrderedDict {

  datatype Dict<V> = Dict(keys: seq<string>, vals: map<string, V>) {

    ghost predicate Valid() {
      && NoDup(keys)
      && (forall k :: k in keys <==> k in vals)
    }

    function Set(k: string, v: V): Dict<V> {
      Dict(if k in vals then keys else keys + [k], vals[k := v])
    }

    function Pop(k: string): Dict<V> {
      Dict(Without(keys, k), vals - {k})
    }

    function Values(): seq<V> {
      At(keys, vals)
    }
  }

  function At<V>(keys: seq<string>, vals: map<string, V>): seq<V> {
    if keys == [] then []
    else (if keys[0] in vals then [vals[keys[0]]] else []) + At(keys[1..], vals)
  }

  ghost predicate NoDup(keys: seq<string>) {
    forall i, j :: 0 <= i < j < |keys| ==> keys[i] != keys[j]
  }

  function Empty<V>(): Dict<V> {
    Dict([], map[])
  }

  function Without(keys: seq<string>, k: string): seq<string> {
    if keys == [] then []
    else if keys[0] == k then Without(keys[1..], k)
    else [keys[0]] + Without(keys[1..], k)
  }

  lemma {:induction false} WithoutKeys(keys: seq<string>, k: string)
    ensures forall x :: x in Without(keys, k) <==> x in keys && x != k
    ensures NoDup(keys) ==> NoDup(Without(keys, k))
  {
    if keys != [] {
      WithoutKeys(keys[1..], k);
      assert NoDup(keys) ==> NoDup(keys[1..]) && keys[0] !in keys[1..];
    }
  }

  lemma SetValid<V>(d: Dict<V>, k: string, v: V)
    requires d.Valid()
    ensures d.Set(k, v).Valid()
  {
  }

  lemma PopValid<V>(d: Dict<V>, k: string)
    requires d.Valid()
    ensures d.Pop(k).Valid()
  {
    WithoutKeys(d.keys, k);
  }

  lemma {:induction false} AtIs<V>(keys: seq<string>, vals: map<string, V>)
    requires forall k :: k in keys ==> k in vals
    ensures |At(keys, vals)| == |keys|
    ensures forall i :: 0 <= i < |keys| ==> At(keys, vals)[i] == vals[keys[i]]
  {
    if keys != [] {
      AtIs(keys[1..], vals);
    }
  }

  /** Iterating visits every entry once. */
  lemma ValuesAre<V>(d: Dict<V>)
    requires d.Valid()
    ensures |d.Values()| == |d.keys|
    ensures forall i :: 0 <= i < |d.keys| ==> d.keys[i] in d.vals && d.Values()[i] == d.vals[d.keys[i]]
    ensures forall k :: k in d.vals ==> d.vals[k] in d.Values()
  {
    AtIs(d.keys, d.vals);
    forall k | k in d.vals
      ensures d.vals[k] in d.Values()
    {
      var i :| 0 <= i < |d.keys| && d.keys[i] == k;
      assert d.Values()[i] == d.vals[k];
    }
  }
}
