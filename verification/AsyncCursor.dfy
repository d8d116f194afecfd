/** Reading a graph from the database row by row (AsyncCursor in resotocore/core/db/async_arangodb.py): rows
    arrive in batches, a row can hold a node and an edge, and both come more than once. The class is proved to
    return, one at a time, the elements of a sequence that depends on the rows only, and that sequence is
    every node and every edge where it is seen first. */
module AsyncCursor {
  import opened Options

  /** What the database hands out. `falsy` is Python's truth value of the row. */
  datatype Row = Row(
    falsy: bool, id: Option<string>, from: Option<string>, to: Option<string>, link: Option<string>, doc: string)

  datatype Trafo = Value(v: string) | Nothing | Raises

  datatype Elem =
    | Raw(row: Row)
    | Vertex(v: string)
    | Edge(from: string, to: string, edgeType: string)

  type Transform = Option<string -> Trafo>

  /** visited_node, visited_edge and vt_len, where 0 stands for not yet known. */
  datatype Seen = Seen(nodes: set<string>, edges: set<(string, string)>, vtLen: nat)

  // ----- elements of a row -----

  /** `re.sub("/.*$", "", s)`, on a single line. */
  function UpToSlash(s: string): string {
    if s == [] || s[0] == '/' then [] else [s[0]] + UpToSlash(s[1..])
  }

  /** `s[n:]` */
  function From(s: string, n: nat): string {
    if n <= |s| then s[n..] else []
  }

  predicate HasEdge(row: Row) {
    row.from.Some? && row.to.Some? && row.link.Some?
  }

  function EdgeKey(row: Row): (string, string)
    requires HasEdge(row)
  {
    (row.from.value, row.to.value)
  }

  function EdgeOf(row: Row, vtLen: nat): Elem
    requires HasEdge(row)
  {
    Edge(From(row.from.value, vtLen), From(row.to.value, vtLen), UpToSlash(From(row.link.value, vtLen)))
  }

  function PrefixLength(row: Row): nat
    requires HasEdge(row)
  {
    |UpToSlash(row.from.value)| + 1
  }

  /** One row in the light of what was seen: its vertex, its edge, and what is seen now. An exception of the
      transformation swallows the edge as well. */
  function Step(f: string -> Trafo, row: Row, seen: Seen): (Option<Elem>, Option<Elem>, Seen) {
    if row.id.None? then (None, None, seen)
    else
      var unseen := row.id.value !in seen.nodes;
      var seen1 := seen.(nodes := seen.nodes + {row.id.value});
      if unseen && f(row.doc).Raises? then (None, None, seen1)
      else
        var vertex := if unseen && f(row.doc).Value? then Some(Vertex(f(row.doc).v)) else None;
        if HasEdge(row) && EdgeKey(row) !in seen.edges then
          var vtLen := if seen.vtLen == 0 then PrefixLength(row) else seen.vtLen;
          (vertex, Some(EdgeOf(row, vtLen)), seen1.(edges := seen.edges + {EdgeKey(row)}, vtLen := vtLen))
        else (vertex, None, seen1)
  }

  function Listed(e: Option<Elem>): seq<Elem> {
    if e.Some? then [e.value] else []
  }

  /** Everything the rows yield from here on. */
  function Output(trafo: Transform, rows: seq<Row>, seen: Seen): seq<Elem> {
    if rows == [] then []
    else if trafo.None? then (if rows[0].falsy then [] else [Raw(rows[0])]) + Output(trafo, rows[1..], seen)
    else
      var (v, e, seen') := Step(trafo.value, rows[0], seen);
      Listed(v) + Listed(e) + Output(trafo, rows[1..], seen')
  }

  lemma OutputEnd(trafo: Transform, seen: Seen)
    ensures Output(trafo, [], seen) == []
  {
  }

  lemma OutputHead(trafo: Transform, rows: seq<Row>, seen: Seen)
    requires rows != []
    ensures Output(trafo, rows, seen)
         == if trafo.None? then (if rows[0].falsy then [] else [Raw(rows[0])]) + Output(trafo, rows[1..], seen)
            else
              var (v, e, seen') := Step(trafo.value, rows[0], seen);
              Listed(v) + Listed(e) + Output(trafo, rows[1..], seen')
  {
    hide Step;
  }

  lemma HeadFirst(e: Elem, held: seq<Elem>, rest: seq<Elem>)
    ensures [e] + held + rest == [e] + (held + rest) && ([e] + (held + rest))[1..] == held + rest
  {
  }

  function Flatten(batches: seq<seq<Row>>): seq<Row> {
    if batches == [] then [] else batches[0] + Flatten(batches[1..])
  }

  predicate NoneEmpty(batches: seq<seq<Row>>) {
    forall i :: 0 <= i < |batches| ==> batches[i] != []
  }

  // ----- the cursor -----

  class Cursor {
    const trafo: Transform
    var batch: seq<Row>
    var batches: seq<seq<Row>>
    var visitedNode: set<string>
    var visitedEdge: set<(string, string)>
    var vtLen: nat
    var onHold: Option<Elem>

    /** The database does not send empty batches, except for an empty result. */
    ghost predicate Valid()
      reads this
    {
      NoneEmpty(batches)
    }

    ghost function Rows(): seq<Row>
      reads this
    {
      batch + Flatten(batches)
    }

    function SeenNow(): Seen
      reads this
    {
      Seen(visitedNode, visitedEdge, vtLen)
    }

    /** What the cursor will still return. */
    ghost function Todo(): seq<Elem>
      reads this
    {
      Listed(onHold) + Output(trafo, Rows(), SeenNow())
    }

    constructor (batch: seq<Row>, batches: seq<seq<Row>>, trafo: Transform)
      requires NoneEmpty(batches)
      ensures Valid() && this.trafo == trafo
      ensures Todo() == Output(trafo, batch + Flatten(batches), Seen({}, {}, 0))
    {
      this.batch, this.batches, this.trafo := batch, batches, trafo;
      visitedNode, visitedEdge, vtLen, onHold := {}, {}, 0, None;
    }

    /** next_from_db; nothing stands for StopAsyncIteration. */
    method NextFromDb() returns (row: Option<Row>)
      requires Valid()
      modifies this`batch, this`batches
      ensures Valid()
      ensures if old(Rows()) == [] then row.None? && Rows() == []
              else row == Some(old(Rows())[0]) && Rows() == old(Rows())[1..]
    {
      if batch == [] {
        if batches == [] {
          return None;
        }
        batch, batches := batches[0], batches[1..];
      }
      row := Some(batch[0]);
      batch := batch[1..];
    }

    /** next_filtered: a vertex, an edge, or nothing from one row. The edge of a row with a vertex is put on
        hold. */
    method NextFiltered(f: string -> Trafo, element: Row) returns (r: Option<Elem>)
      requires onHold.None?
      modifies this`visitedNode, this`visitedEdge, this`vtLen, this`onHold
      ensures var (v, e, seen) := Step(f, element, old(SeenNow()));
              SeenNow() == seen && (Listed(r) + Listed(onHold) == Listed(v) + Listed(e)) && (r.None? ==> onHold.None?)
    {
      if element.id.None? {
        return None;
      }
      var vertex, edge := None, None;
      if element.id.value !in visitedNode {
        visitedNode := visitedNode + {element.id.value};
        var t := f(element.doc);
        if t.Raises? {
          return None;
        }
        if t.Value? {
          vertex := Some(Vertex(t.v));
        }
      }
      if HasEdge(element) {
        var key := EdgeKey(element);
        if key !in visitedEdge {
          visitedEdge := visitedEdge + {key};
          if vtLen == 0 {
            vtLen := PrefixLength(element);
          }
          edge := Some(EdgeOf(element, vtLen));
        }
      }
      if vertex.Some? {
        onHold := edge;
        r := vertex;
      } else {
        r := edge;
      }
    }

    /** `__anext__`: the next element, or nothing at the end. */
    method Next() returns (r: Option<Elem>)
      requires Valid()
      modifies this
      ensures Valid()
      ensures if old(Todo()) == [] then r.None? && Todo() == []
              else r == Some(old(Todo())[0]) && Todo() == old(Todo())[1..]
    {
      hide Step, Flatten, Output, NoneEmpty;
      if onHold.Some? {
        r := onHold;
        onHold := None;
        return;
      }
      r := None;
      while true
        invariant Valid() && onHold.None? && r.None? && Todo() == old(Todo())
        decreases |Rows()|
      {
        ghost var rows := Rows();
        var row := NextFromDb();
        if row.None? {
          OutputEnd(trafo, SeenNow());
          return;
        }
        OutputHead(trafo, rows, SeenNow());
        if trafo.None? {
          r := if row.value.falsy then None else Some(Raw(row.value));
        } else {
          r := NextFiltered(trafo.value, row.value);
        }
        if r.Some? {
          HeadFirst(r.value, Listed(onHold), Output(trafo, Rows(), SeenNow()));
          return;
        }
      }
    }

    /** Reading to the end. */
    method Drain() returns (all: seq<Elem>)
      requires Valid()
      modifies this
      ensures all == old(Todo()) && Todo() == []
    {
      all := [];
      while true
        invariant Valid() && all + Todo() == old(Todo())
        decreases |Todo()|
      {
        hide Output, Flatten, NoneEmpty;
        var r := Next();
        if r.None? {
          return;
        }
        all := all + [r.value];
      }
    }
  }

  // ----- what is returned, by position -----

  /** Row `i` is the first with its id. */
  predicate FirstNode(rows: seq<Row>, i: nat)
    requires i < |rows|
  {
    rows[i].id.Some? && forall j :: 0 <= j < i ==> rows[j].id != rows[i].id
  }

  /** The edge of the row is looked at: there is one, and the transformation did not raise before. */
  predicate EdgeRead(f: string -> Trafo, rows: seq<Row>, i: nat)
    requires i < |rows|
  {
    && rows[i].id != None && rows[i].from != None && rows[i].to != None && rows[i].link != None
    && !(FirstNode(rows, i) && f(rows[i].doc).Raises?)
  }

  /** Row `i` is the first whose edge between these two nodes is looked at. */
  predicate FirstEdge(f: string -> Trafo, rows: seq<Row>, i: nat)
    requires i < |rows|
  {
    && EdgeRead(f, rows, i)
    && forall j :: 0 <= j < i && EdgeRead(f, rows, j) ==> rows[j].from != rows[i].from || rows[j].to != rows[i].to
  }

  /** The length that the first edge looked at gives away; 0 when there is none before row `n`. */
  function VtLen(f: string -> Trafo, rows: seq<Row>, n: nat): nat
    requires n <= |rows|
  {
    if n == 0 then 0
    else if VtLen(f, rows, n - 1) != 0 then VtLen(f, rows, n - 1)
    else if EdgeRead(f, rows, n - 1) then |UpToSlash(rows[n - 1].from.value)| + 1
    else 0
  }

  /** The elements that row `i` contributes. */
  function At(f: string -> Trafo, rows: seq<Row>, i: nat): seq<Elem>
    requires i < |rows|
  {
    (if FirstNode(rows, i) && f(rows[i].doc).Value? then [Vertex(f(rows[i].doc).v)] else [])
    + (if FirstEdge(f, rows, i) then
         var row, n := rows[i], VtLen(f, rows, i + 1);
         [Edge(From(row.from.value, n), From(row.to.value, n), UpToSlash(From(row.link.value, n)))]
       else [])
  }

  function Elements(f: string -> Trafo, rows: seq<Row>, i: nat): seq<Elem>
    requires i <= |rows|
    decreases |rows| - i
  {
    if i == |rows| then [] else At(f, rows, i) + Elements(f, rows, i + 1)
  }

  /** What was seen before row `i`. */
  ghost predicate SeenBefore(f: string -> Trafo, rows: seq<Row>, i: nat, seen: Seen)
    requires i <= |rows|
  {
    && (forall x :: x in seen.nodes <==> exists j :: 0 <= j < i && rows[j].id == Some(x))
    && (forall k :: k in seen.edges <==>
          exists j :: 0 <= j < i && EdgeRead(f, rows, j) && rows[j].from == Some(k.0) && rows[j].to == Some(k.1))
    && seen.vtLen == VtLen(f, rows, i)
  }

  lemma NodesStep(f: string -> Trafo, rows: seq<Row>, i: nat, seen: Seen)
    requires i < |rows| && SeenBefore(f, rows, i, seen)
    ensures FirstNode(rows, i) <==> rows[i].id.Some? && rows[i].id.value !in seen.nodes
  {
  }

  lemma EdgesStep(f: string -> Trafo, rows: seq<Row>, i: nat, seen: Seen)
    requires i < |rows| && SeenBefore(f, rows, i, seen)
    ensures FirstEdge(f, rows, i) <==> EdgeRead(f, rows, i) && EdgeKey(rows[i]) !in seen.edges
  {
    hide VtLen, FirstNode;
    if EdgeRead(f, rows, i) {
      assert rows[i].from == Some(EdgeKey(rows[i]).0) && rows[i].to == Some(EdgeKey(rows[i]).1);
    }
  }

  lemma StepIs(f: string -> Trafo, rows: seq<Row>, i: nat, seen: Seen)
    requires i < |rows| && SeenBefore(f, rows, i, seen)
    ensures var (v, e, seen') := Step(f, rows[i], seen);
            Listed(v) + Listed(e) == At(f, rows, i) && SeenBefore(f, rows, i + 1, seen')
  {
    hide VtLen, Step;
    NodesStep(f, rows, i, seen);
    EdgesStep(f, rows, i, seen);
    StepSeen(f, rows, i, seen);
    StepElems(f, rows, i, seen);
  }

  lemma VtLenStep(f: string -> Trafo, rows: seq<Row>, i: nat)
    requires i < |rows|
    ensures VtLen(f, rows, i + 1)
         == if VtLen(f, rows, i) != 0 then VtLen(f, rows, i)
            else if EdgeRead(f, rows, i) then PrefixLength(rows[i]) else 0
  {
  }

  /** The length is known once an edge was looked at. */
  lemma {:induction false} VtLenKnown(f: string -> Trafo, rows: seq<Row>, i: nat, j: nat)
    requires j < i <= |rows| && EdgeRead(f, rows, j)
    ensures VtLen(f, rows, i) != 0
  {
    if j < i - 1 {
      VtLenKnown(f, rows, i - 1, j);
    }
  }

  lemma StepElems(f: string -> Trafo, rows: seq<Row>, i: nat, seen: Seen)
    requires i < |rows| && SeenBefore(f, rows, i, seen)
    requires FirstNode(rows, i) <==> rows[i].id.Some? && rows[i].id.value !in seen.nodes
    requires FirstEdge(f, rows, i) <==> EdgeRead(f, rows, i) && EdgeKey(rows[i]) !in seen.edges
    ensures var (v, e, _) := Step(f, rows[i], seen); Listed(v) + Listed(e) == At(f, rows, i)
  {
    hide FirstNode, FirstEdge, PrefixLength, VtLen, EdgeKey, From, UpToSlash;
    VtLenStep(f, rows, i);
  }

  lemma StepSeen(f: string -> Trafo, rows: seq<Row>, i: nat, seen: Seen)
    requires i < |rows| && SeenBefore(f, rows, i, seen)
    requires FirstNode(rows, i) <==> rows[i].id.Some? && rows[i].id.value !in seen.nodes
    ensures SeenBefore(f, rows, i + 1, Step(f, rows[i], seen).2)
  {
    hide FirstNode, PrefixLength, VtLen;
    VtLenStep(f, rows, i);
    var seen' := Step(f, rows[i], seen).2;
    assert seen'.nodes == seen.nodes + (if rows[i].id.Some? then {rows[i].id.value} else {});
    assert seen'.edges == seen.edges + (if EdgeRead(f, rows, i) then {EdgeKey(rows[i])} else {});
    if EdgeRead(f, rows, i) && EdgeKey(rows[i]) in seen.edges {
      var j :| 0 <= j < i && EdgeRead(f, rows, j) && rows[j].from == rows[i].from && rows[j].to == rows[i].to;
      VtLenKnown(f, rows, i, j);
    }
  }

  /** Row by row: the transformed vertex where its id is seen first, then the edge where its pair of nodes is
      seen first. Nothing that is held back is lost or repeated. */
  lemma {:induction false} OutputIs(f: string -> Trafo, rows: seq<Row>, i: nat, seen: Seen)
    requires i <= |rows| && SeenBefore(f, rows, i, seen)
    ensures Output(Some(f), rows[i..], seen) == Elements(f, rows, i)
    decreases |rows| - i
  {
    if i < |rows| {
      hide Step, At, SeenBefore;
      StepIs(f, rows, i, seen);
      var (v, e, seen') := Step(f, rows[i], seen);
      OutputIs(f, rows, i + 1, seen');
      assert rows[i..][1..] == rows[i + 1..];
    }
  }

  /** With a transformation: what the cursor returns for all rows, however they are cut into batches. */
  lemma FirstSights(f: string -> Trafo, rows: seq<Row>)
    ensures Output(Some(f), rows, Seen({}, {}, 0)) == Elements(f, rows, 0)
  {
    hide EdgeRead, FirstNode, FirstEdge;
    assert rows[0..] == rows;
    OutputIs(f, rows, 0, Seen({}, {}, 0));
  }

  function Truthy(rows: seq<Row>): seq<Row> {
    if rows == [] then [] else (if rows[0].falsy then [] else [rows[0]]) + Truthy(rows[1..])
  }

  function RawOf(rows: seq<Row>): seq<Elem> {
    seq(|rows|, i requires 0 <= i < |rows| => Raw(rows[i]))
  }

  /** Without a transformation nothing is filtered out twice, but rows that Python takes for false are
      skipped: the rows come back as they are if and only if there is none. */
  lemma {:induction false} RawRows(rows: seq<Row>, seen: Seen)
    ensures Output(None, rows, seen) == RawOf(Truthy(rows))
    ensures Output(None, rows, seen) == RawOf(rows) <==> forall i :: 0 <= i < |rows| ==> !rows[i].falsy
    ensures |Truthy(rows)| <= |rows|
  {
    if rows != [] {
      RawRows(rows[1..], seen);
      var rest, head := Truthy(rows[1..]), if rows[0].falsy then [] else [rows[0]];
      assert RawOf(head + rest) == RawOf(head) + RawOf(rest);
      if rows[0].falsy {
        assert |Output(None, rows, seen)| < |RawOf(rows)|;
      } else {
        assert RawOf(rows) == [Raw(rows[0])] + RawOf(rows[1..]);
        assert RawOf(rows)[1..] == RawOf(rows[1..]) && Output(None, rows, seen)[1..] == Output(None, rows[1..], seen);
        assert forall i :: 0 < i < |rows| ==> rows[i] == rows[1..][i - 1];
      }
    }
  }

  /** The row's edge is between nodes of the collection `g`, in one of its edge collections. */
  predicate InGraph(row: Row, g: string) {
    HasEdge(row) ==>
      (g + "/" <= row.from.value && g + "/" <= row.to.value && g + "_" <= row.link.value && '/' !in g)
  }

  lemma {:induction false} UpToSlashPlus(g: string, rest: string)
    requires '/' !in g
    ensures UpToSlash(g + "/" + rest) == g
  {
    if g == [] {
      assert (g + "/" + rest)[0] == '/';
    } else {
      assert (g + "/" + rest)[1..] == g[1..] + "/" + rest;
      UpToSlashPlus(g[1..], rest);
      assert g == [g[0]] + g[1..];
    }
  }

  lemma {:induction false} VtLenIs(f: string -> Trafo, rows: seq<Row>, n: nat, g: string)
    requires n <= |rows| && forall i :: 0 <= i < |rows| ==> InGraph(rows[i], g)
    ensures VtLen(f, rows, n) == 0 || VtLen(f, rows, n) == |g| + 1
  {
    if n > 0 {
      VtLenIs(f, rows, n - 1, g);
      var row := rows[n - 1];
      assert InGraph(row, g);
      if EdgeRead(f, rows, n - 1) {
        UpToSlashPlus(g, row.from.value[|g| + 1..]);
        assert row.from.value == g + "/" + row.from.value[|g| + 1..];
      }
    }
  }

  /** In a graph whose nodes share a collection, an edge names its nodes by key and its edge collection
      without the name of the graph, although the length is taken from the first edge only. */
  lemma EdgeNames(f: string -> Trafo, rows: seq<Row>, i: nat, g: string)
    requires i < |rows| && FirstEdge(f, rows, i) && forall j :: 0 <= j < |rows| ==> InGraph(rows[j], g)
    ensures var row, n := rows[i], |g| + 1;
            && n <= |row.from.value| && n <= |row.to.value| && n <= |row.link.value|
            && At(f, rows, i)[|At(f, rows, i)| - 1..]
               == [Edge(row.from.value[n..], row.to.value[n..], UpToSlash(row.link.value[n..]))]
  {
    hide UpToSlash;
    assert InGraph(rows[i], g);
    VtLenIs(f, rows, i + 1, g);
    VtLenKnown(f, rows, i + 1, i);
  }
}
