/** Reading, writing and deleting at a path of nested JSON (value_in_path, set_value_in_path and
    del_value_in_path in resotocore/core/util.py) and the laws between them. A path is a list of keys. */
module Paths {
  import opened JsonParser

  type Dict = map<string, Json>

  /** Python's truth value. */
  predicate Falsy(v: Json) {
    match v
    case Null => true
    case Bool(b) => !b
    case Num(n) => n == 0.0
    case Str(s) => s == ""
    case Arr(vs) => vs == []
    case Obj(kvs) => kvs == map[]
  }

  /** value_in_path; null also where there is nothing. */
  function Get(js: Json, path: seq<string>): Json {
    if path == [] then js
    else if !js.Obj? || path[0] !in js.kvs then Null
    else Get(js.kvs[path[0]], path[1..])
  }

  function ChildDict(js: Dict, key: string): Dict {
    if key in js && js[key].Obj? then js[key].kvs else map[]
  }

  /** set_value_in_path: whatever is no dict on the way is replaced by one. */
  function Set(js: Dict, path: seq<string>, element: Json): Dict
    requires path != []
    decreases |path|
  {
    if |path| == 1 then js[path[0] := element]
    else js[path[0] := Obj(Set(ChildDict(js, path[0]), path[1..], element))]
  }

  /** del_value_in_path: on the way back every falsy value on the path becomes null. */
  function Del(js: Json, path: seq<string>): Json
    requires path != []
    decreases |path|
  {
    if !js.Obj? || path[0] !in js.kvs then js
    else if |path| == 1 then Obj(js.kvs - {path[0]})
    else
      var child := Del(js.kvs[path[0]], path[1..]);
      Obj(js.kvs[path[0] := if Falsy(child) then Null else child])
  }

  /** Neither path continues the other one. */
  predicate Incomparable(p: seq<string>, q: seq<string>) {
    !(p <= q) && !(q <= p)
  }

  /** Every key of the path is there. */
  predicate Present(js: Json, path: seq<string>) {
    path == [] || (js.Obj? && path[0] in js.kvs && Present(js.kvs[path[0]], path[1..]))
  }

  lemma IncomparableTail(p: seq<string>, q: seq<string>)
    requires Incomparable(p, q)
    ensures p != [] && q != [] && (p[0] == q[0] ==> Incomparable(p[1..], q[1..]))
  {
    if p != [] && q != [] && p[0] == q[0] {
      assert p == [p[0]] + p[1..] && q == [q[0]] + q[1..];
    }
  }

  /** What was set is read back, and so is everything inside it. */
  lemma {:induction false} GetSet(js: Dict, path: seq<string>, element: Json, more: seq<string>)
    requires path != []
    ensures Get(Obj(Set(js, path, element)), path + more) == Get(element, more)
    decreases |path|
  {
    assert (path + more)[1..] == path[1..] + more;
    if |path| == 1 {
      assert path[1..] + more == more;
    } else {
      GetSet(ChildDict(js, path[0]), path[1..], element, more);
    }
  }

  lemma {:induction false} SetSet(js: Dict, path: seq<string>, first: Json, second: Json)
    requires path != []
    ensures Set(Set(js, path, first), path, second) == Set(js, path, second)
    decreases |path|
  {
    if |path| > 1 {
      SetSet(ChildDict(js, path[0]), path[1..], first, second);
    }
  }

  /** Setting does not change what is read anywhere else, even where it replaces what is no dict. */
  lemma {:induction false} SetElsewhere(js: Dict, path: seq<string>, element: Json, other: seq<string>)
    requires Incomparable(path, other)
    ensures path != [] && Get(Obj(Set(js, path, element)), other) == Get(Obj(js), other)
    decreases |path|
  {
    IncomparableTail(path, other);
    if path[0] == other[0] {
      IncomparableTail(path[1..], other[1..]);
      SetElsewhere(ChildDict(js, path[0]), path[1..], element, other[1..]);
    }
  }

  /** Setting what is there already changes nothing if and only if it is there. */
  lemma {:induction false} SetSame(js: Dict, path: seq<string>)
    requires path != []
    ensures Set(js, path, Get(Obj(js), path)) == js <==> Present(Obj(js), path)
    decreases |path|
  {
    if path[0] in js {
      var child := js[path[0]];
      if |path| == 1 {
        assert Get(child, []) == child;
      } else if child.Obj? {
        SetSame(child.kvs, path[1..]);
        var set' := Set(child.kvs, path[1..], Get(child, path[1..]));
        assert Set(js, path, Get(Obj(js), path)) == js[path[0] := Obj(set')];
        if set' == child.kvs {
          assert js[path[0] := Obj(set')] == js;
        } else {
          assert js[path[0] := Obj(set')][path[0]] != js[path[0]];
        }
      } else {
        assert Set(js, path, Get(Obj(js), path))[path[0]].Obj?;
      }
    } else {
      assert path[0] in Set(js, path, Get(Obj(js), path));
    }
  }

  /** What was deleted reads as nothing, and so does everything inside it. */
  lemma {:induction false} GetDel(js: Json, path: seq<string>, more: seq<string>)
    requires path != []
    ensures Get(Del(js, path), path + more) == Null
    decreases |path|
  {
    assert (path + more)[1..] == path[1..] + more;
    if js.Obj? && path[0] in js.kvs && |path| > 1 {
      GetDel(js.kvs[path[0]], path[1..], more);
      GetNull(path[1..] + more);
    }
  }

  lemma GetNull(path: seq<string>)
    ensures Get(Null, path) == Null
  {
  }

  lemma GetFalsy(v: Json, path: seq<string>)
    requires Falsy(v) && path != []
    ensures Get(v, path) == Null
  {
  }

  /** Deleting does not change what is read anywhere else, even where it blanks an emptied parent. */
  lemma {:induction false} DelElsewhere(js: Json, path: seq<string>, other: seq<string>)
    requires Incomparable(path, other)
    ensures path != [] && Get(Del(js, path), other) == Get(js, other)
    decreases |path|
  {
    IncomparableTail(path, other);
    if js.Obj? && path[0] in js.kvs && path[0] == other[0] {
      IncomparableTail(path[1..], other[1..]);
      DelElsewhere(js.kvs[path[0]], path[1..], other[1..]);
      var child := Del(js.kvs[path[0]], path[1..]);
      if Falsy(child) {
        GetFalsy(child, other[1..]);
        GetNull(other[1..]);
      }
    }
  }

  /** Some value on the way to the path is falsy without being null: an empty dict, zero or an empty text. */
  predicate BlankOnPath(js: Json, path: seq<string>) {
    exists n :: 0 < n < |path| && Present(js, path[..n]) && Get(js, path[..n]) != Null && Falsy(Get(js, path[..n]))
  }

  lemma {:induction false} BlankHead(js: Json, path: seq<string>)
    requires |path| > 1 && js.Obj? && path[0] in js.kvs
    ensures var child := js.kvs[path[0]];
            BlankOnPath(js, path) <==> (child != Null && Falsy(child)) || BlankOnPath(child, path[1..])
  {
    var child := js.kvs[path[0]];
    forall n | 0 < n < |path|
      ensures Present(js, path[..n]) <==> Present(child, path[1..][..n - 1])
      ensures Get(js, path[..n]) == Get(child, path[1..][..n - 1])
    {
      assert path[..n][1..] == path[1..][..n - 1];
    }
    if BlankOnPath(child, path[1..]) {
      var n :| 0 < n < |path[1..]| && Present(child, path[1..][..n]) && Get(child, path[1..][..n]) != Null
               && Falsy(Get(child, path[1..][..n]));
      assert 0 < n + 1 < |path| && Present(js, path[..n + 1]);
    }
    if child != Null && Falsy(child) {
      assert path[1..][..0] == [];
      assert Present(js, path[..1]);
    }
    if BlankOnPath(js, path) {
      var n :| 0 < n < |path| && Present(js, path[..n]) && Get(js, path[..n]) != Null && Falsy(Get(js, path[..n]));
      if n == 1 {
        assert path[1..][..0] == [];
      } else {
        assert Present(child, path[1..][..n - 1]);
      }
    }
  }

  /** Deleting a path that is not there leaves everything as it is if and only if there is nothing falsy on
      the way that it turns into null. */
  lemma {:induction false} DelAbsent(js: Json, path: seq<string>)
    requires path != [] && !Present(js, path)
    ensures Del(js, path) == js <==> !BlankOnPath(js, path)
    decreases |path|
  {
    if !js.Obj? || path[0] !in js.kvs {
      NoBlank(js, path);
    } else {
      var child := js.kvs[path[0]];
      assert |path| > 1;
      DelAbsent(child, path[1..]);
      BlankHead(js, path);
      var child' := Del(child, path[1..]);
      var v := if Falsy(child') then Null else child';
      assert Del(js, path) == Obj(js.kvs[path[0] := v]);
      if v == child {
        assert js.kvs[path[0] := v] == js.kvs;
      } else {
        assert js.kvs[path[0] := v][path[0]] != js.kvs[path[0]];
      }
    }
  }

  lemma NoBlank(js: Json, path: seq<string>)
    requires path != [] && (!js.Obj? || path[0] !in js.kvs)
    ensures !BlankOnPath(js, path)
  {
    forall n | 0 < n < |path|
      ensures !Present(js, path[..n])
    {
    }
  }

  /** What a deletion leaves of the dict it deletes from: the other keys, or null when there are none. The
      dicts further up stay dicts, since a null in them makes them neither empty nor falsy. */
  lemma {:induction false} DelParent(js: Json, path: seq<string>, n: nat)
    requires Present(js, path) && 0 < n < |path|
    ensures Get(js, path[..n]).Obj? && path[n] in Get(js, path[..n]).kvs
    ensures n == |path| - 1 ==>
              var rest := Get(js, path[..n]).kvs - {path[n]};
              Get(Del(js, path), path[..n]) == if rest == map[] then Null else Obj(rest)
    ensures n < |path| - 1 ==> Get(Del(js, path), path[..n]).Obj?
    decreases |path|
  {
    var child := js.kvs[path[0]];
    assert path[..n][1..] == path[1..][..n - 1];
    assert path[1..][n - 1] == path[n];
    if n == 1 {
      assert path[..n][1..] == [] && path[1..][0] == path[1];
      assert Get(js, path[..n]) == child;
      if |path| > 2 {
        var inner := Del(child, path[1..]);
        assert path[1] in inner.kvs;
      }
    } else {
      DelParent(child, path[1..], n - 1);
      var inner := Del(child, path[1..]);
      if Falsy(inner) {
        GetFalsy(inner, path[1..][..n - 1]);
        DelKeepsHead(child, path[1..]);
      }
    }
  }

  lemma DelKeepsHead(js: Json, path: seq<string>)
    requires Present(js, path) && |path| > 1
    ensures !Falsy(Del(js, path))
  {
    assert path[0] in Del(js, path).kvs;
  }
}
