/** set_value_in_path and del_value_in_path of resotocore/core/util.py as they run: on nested dicts that are
    updated in place. The dicts form a tree, so that no dict is reached in two ways; both methods are proved
    against the functions of Paths on the JSON value that the tree holds. */
module NestedDicts {
  import opened JsonParser
  import Paths
  import opened Options

  /** What a dict holds under a key: another dict, or a value that is none. */
  datatype Cell = Leaf(v: Json) | Child(node: Node)

  class Node {
    var cells: map<string, Cell>
    ghost var Repr: set<object>

    ghost predicate Valid()
      reads this, Repr
      decreases Repr
    {
      && this in Repr
      && (forall k :: k in cells && cells[k].Leaf? ==> !cells[k].v.Obj?)
      && (forall k :: k in cells && cells[k].Child? ==>
            && cells[k].node in Repr && cells[k].node.Repr < Repr && this !in cells[k].node.Repr
            && cells[k].node.Valid())
      && (forall k, l :: k in cells && l in cells && k != l && cells[k].Child? && cells[l].Child? ==>
            cells[k].node.Repr !! cells[l].node.Repr)
    }

    /** The JSON object that the dict stands for. */
    ghost function Value(): map<string, Json>
      requires Valid()
      reads this, Repr
      decreases Repr
    {
      map k | k in cells :: if cells[k].Leaf? then cells[k].v else Obj(cells[k].node.Value())
    }

    constructor ()
      ensures Valid() && fresh(Repr) && Value() == map[]
    {
      cells, Repr := map[], {this};
    }

    /** A value, or a dict that shares nothing with this one. */
    ghost predicate Fits(c: Cell)
      reads this, if c.Child? then {c.node} + c.node.Repr else {}
    {
      if c.Leaf? then !c.v.Obj? else c.node.Valid() && c.node.Repr !! Repr
    }

    lemma ValueIs(values: map<string, Json>)
      requires Valid() && values.Keys == cells.Keys
      requires forall k :: k in cells ==> (cells[k].Child? ==> cells[k].node.Valid()) && values[k] == ValueOf(cells[k])
      ensures Value() == values
    {
    }

    lemma ValueAll()
      requires Valid()
      ensures Value().Keys == cells.Keys
    {
    }

    lemma ValueAt(key: string)
      requires Valid() && key in cells
      ensures Value().Keys == cells.Keys && (cells[key].Child? ==> cells[key].node.Valid())
      ensures Value()[key] == ValueOf(cells[key])
    {
    }

    /** `current[key] = c` */
    method Put(key: string, c: Cell)
      requires Valid() && Fits(c)
      modifies this
      ensures Valid() && Repr == old(Repr) + Footprint(c) && cells == old(cells)[key := c]
      ensures Value() == old(Value())[key := ValueOf(c)]
    {
      hide Value;
      ghost var values := Value();
      forall k | k in cells
        ensures (cells[k].Child? ==> cells[k].node.Valid()) && k in values && values[k] == ValueOf(cells[k])
      {
        ValueAt(k);
      }
      ValueAll();
      cells := cells[key := c];
      Repr := Repr + Footprint(c);
      ValueIs(values[key := ValueOf(c)]);
    }

    /** The dict under a key; where there is none, an empty one is put there. */
    method ChildAt(key: string) returns (child: Node)
      requires Valid()
      modifies this
      ensures Valid() && fresh(Repr - old(Repr)) && old(Repr) <= Repr
      ensures key in cells && cells[key] == Child(child)
      ensures child.Value() == Paths.ChildDict(old(Value()), key)
      ensures Value() == old(Value())[key := Obj(child.Value())]
    {
      if key in cells && cells[key].Child? {
        child := cells[key].node;
      } else {
        child := new Node();
        Put(key, Child(child));
      }
    }

    /** The inner function of set_value_in_path: `current[path[-1]] = element`, below dicts that are made where
        there is none. */
    method SetAt(path: seq<string>, element: Cell)
      requires Valid() && path != [] && Fits(element)
      modifies Repr
      ensures Valid() && old(Repr) <= Repr && fresh(Repr - old(Repr) - old(Footprint(element)))
      ensures Value() == Paths.Set(old(Value()), path, old(ValueOf(element)))
      decreases |path|, 1
    {
      hide Value, Paths.Set;
      SetUnfold(Value(), path, ValueOf(element));
      if |path| == 1 {
        Put(path[0], element);
      } else {
        var child := ChildAt(path[0]);
        SetBelow(path[0], child, path[1..], element);
      }
    }

    method SetBelow(key: string, child: Node, path: seq<string>, element: Cell)
      requires Valid() && path != [] && Fits(element) && key in cells && cells[key] == Child(child)
      modifies Repr
      ensures Valid() && old(Repr) <= Repr && fresh(Repr - old(Repr) - old(Footprint(element)))
      ensures Value() == old(Value())[key := Obj(Paths.Set(old(child.Value()), path, old(ValueOf(element))))]
      decreases |path|, 2
    {
      hide Paths.Set, Value;
      ghost var values := Value();
      forall k | k in cells
        ensures (cells[k].Child? ==> cells[k].node.Valid()) && k in values && values[k] == ValueOf(cells[k])
      {
        ValueAt(k);
      }
      ValueAt(key);
      child.SetAt(path, element);
      Repr := Repr + child.Repr;
      forall k | k in cells && k != key && cells[k].Child?
        ensures unchanged(cells[k].node.Repr) && cells[k].node.Repr == old(cells[k].node.Repr)
        ensures cells[k].node.Valid() && cells[k].node.Value() == old(cells[k].node.Value())
      {
        assert old(cells[k].node.Repr) !! old(child.Repr);
      }
      ValueIs(values[key := Obj(child.Value())]);
    }

    /** `current.pop(key)` */
    method Pop(key: string)
      requires Valid()
      modifies this
      ensures Valid() && Repr == old(Repr) && Value() == old(Value()) - {key}
    {
      hide Value;
      ghost var values := Value();
      forall k | k in cells
        ensures (cells[k].Child? ==> cells[k].node.Valid()) && k in values && values[k] == ValueOf(cells[k])
      {
        ValueAt(k);
      }
      ValueAll();
      cells := cells - {key};
      ValueIs(values - {key});
    }

    /** The inner function of del_value_in_path: on the way back a falsy value becomes null. */
    method DelAt(path: seq<string>)
      requires Valid() && path != []
      modifies Repr
      ensures Valid() && Repr == old(Repr)
      ensures Obj(Value()) == Paths.Del(Obj(old(Value())), path)
      decreases |path|, 1
    {
      hide Value, Paths.Del, Paths.Falsy;
      var key := path[0];
      DelUnfold(Value(), path);
      ValueAll();
      if key !in cells {
        return;
      }
      ValueAt(key);
      if |path| == 1 {
        Pop(key);
        return;
      }
      ghost var result := Paths.Del(ValueOf(cells[key]), path[1..]);
      if cells[key].Leaf? {
        DelOfLeaf(cells[key].v, path[1..]);
      } else {
        DelBelow(key, cells[key].node, path[1..]);
      }
      assert Value() == old(Value())[key := result];
      ValueAt(key);
      if FalsyCell(key) {
        Put(key, Leaf(Null));
      }
    }

    /** `not current[key]` */
    predicate FalsyCell(key: string)
      requires Valid() && key in cells
      reads this, Repr
      ensures FalsyCell(key) <==> Paths.Falsy(ValueOf(cells[key]))
    {
      if cells[key].Leaf? then Paths.Falsy(cells[key].v)
      else
        ghost var n := cells[key].node;
        assert (forall k :: k in n.cells <==> k in n.Value());
        cells[key].node.cells == map[]
    }

    method DelBelow(key: string, child: Node, path: seq<string>)
      requires Valid() && path != [] && key in cells && cells[key] == Child(child)
      modifies Repr
      ensures Valid() && Repr == old(Repr) && cells == old(cells)
      ensures Obj(child.Value()) == Paths.Del(Obj(old(child.Value())), path)
      ensures Value() == old(Value())[key := Obj(child.Value())]
      decreases |path|, 2
    {
      hide Paths.Del, Value;
      ghost var values := Value();
      forall k | k in cells
        ensures (cells[k].Child? ==> cells[k].node.Valid()) && k in values && values[k] == ValueOf(cells[k])
      {
        ValueAt(k);
      }
      ValueAt(key);
      child.DelAt(path);
      forall k | k in cells && k != key && cells[k].Child?
        ensures unchanged(cells[k].node.Repr) && cells[k].node.Repr == old(cells[k].node.Repr)
        ensures cells[k].node.Valid() && cells[k].node.Value() == old(cells[k].node.Value())
      {
        assert old(cells[k].node.Repr) !! old(child.Repr);
      }
      ValueIs(values[key := Obj(child.Value())]);
    }
  }

  /** set_value_in_path, which makes a dict when none is given. */
  method SetValueInPath(element: Cell, path: seq<string>, js: Option<Node>) returns (r: Node)
    requires path != [] && (element.Child? ==> element.node.Valid()) && (element.Leaf? ==> !element.v.Obj?)
    requires js.Some? ==> js.value.Valid() && js.value.Fits(element)
    modifies if js.Some? then js.value.Repr else {}
    ensures r.Valid() && (js.Some? ==> r == js.value)
    ensures r.Value() == Paths.Set(if js.Some? then old(js.value.Value()) else map[], path, old(ValueOf(element)))
  {
    if js.Some? {
      r := js.value;
    } else {
      r := new Node();
    }
    r.SetAt(path, element);
  }

  lemma DelUnfold(js: map<string, Json>, path: seq<string>)
    requires path != []
    ensures Paths.Del(Obj(js), path)
         == if path[0] !in js then Obj(js)
            else if |path| == 1 then Obj(js - {path[0]})
            else
              var child := Paths.Del(js[path[0]], path[1..]);
              Obj(js[path[0] := if Paths.Falsy(child) then Null else child])
  {
  }

  lemma DelOfLeaf(v: Json, path: seq<string>)
    requires path != [] && !v.Obj?
    ensures Paths.Del(v, path) == v
  {
  }

  lemma SetUnfold(js: map<string, Json>, path: seq<string>, element: Json)
    requires path != []
    ensures Paths.Set(js, path, element)
         == if |path| == 1 then js[path[0] := element]
            else js[path[0] := Obj(Paths.Set(Paths.ChildDict(js, path[0]), path[1..], element))]
  {
  }

  ghost function Footprint(c: Cell): set<object>
    reads if c.Child? then {c.node} else {}
  {
    if c.Child? then c.node.Repr else {}
  }

  ghost function ValueOf(c: Cell): Json
    requires c.Child? ==> c.node.Valid()
    reads if c.Child? then {c.node} + c.node.Repr else {}
  {
    if c.Leaf? then c.v else Obj(c.node.Value())
  }
}
