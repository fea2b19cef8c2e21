/**
 * The directed word graph of WordGraph.py: `vertex_dict` maps each word to a
 * dense index, `edge_list` holds one list of outgoing edges per index, and
 * `addEdge` inserts an edge of weight 1 or increments an existing one.
 *
 * `GraphData` is the value of a `Graph` object's two fields; `AddEdgeSpec` is the
 * effect of `addEdge` on that value, written as the source does it, including
 * its behaviour on a self-loop between two new occurrences of the same word.
 */
module Graphs {

  datatype Option<T> = None | Some(value: T)

  /** An edge `start -> end`; `weight` counts how often `end` followed `start`. */
  datatype Edge = Edge(start: string, end: string, weight: nat)

  datatype GraphData = GraphData(vertexDict: map<string, nat>, edgeList: seq<seq<Edge>>)

  /** The graph `Graph.__init__` creates. */
  const Empty: GraphData := GraphData(map[], [])

  /** A sequence without repeated elements. */
  predicate NoDup<T(==)>(s: seq<T>) {
    forall i, j :: 0 <= i < j < |s| ==> s[i] != s[j]
  }

  /** One edge per target word in an adjacency list. */
  predicate DistinctEnds(l: seq<Edge>) {
    forall i, j :: 0 <= i < j < |l| ==> l[i].end != l[j].end
  }

  /** Every index addresses an existing list. */
  predicate Indexed(g: GraphData) {
    && |g.vertexDict| <= |g.edgeList|
    && forall w :: w in g.vertexDict ==> g.vertexDict[w] < |g.edgeList|
  }

  /**
   * What every reachable state of a `Graph` satisfies, even after the self-loop
   * defect: indices address existing lists, each list holds one edge per target,
   * weights are positive and every target word is a vertex.
   */
  predicate ValidGraph(g: GraphData) {
    && Indexed(g)
    && forall i :: 0 <= i < |g.edgeList| ==> ValidList(g.edgeList[i], g.vertexDict.Keys)
  }

  /** One adjacency list: one edge per target, positive weights, known targets. */
  predicate ValidList(l: seq<Edge>, words: set<string>) {
    && DistinctEnds(l)
    && forall j :: 0 <= j < |l| ==> l[j].weight >= 1 && l[j].end in words
  }

  /**
   * The intended shape: indices are a bijection between the words and the
   * positions of `edge_list`, and every edge is filed under its own start word.
   */
  predicate WellFormed(g: GraphData) {
    && ValidGraph(g)
    && |g.vertexDict| == |g.edgeList|
    && Injective(g.vertexDict)
    && forall u :: u in g.vertexDict ==> FiledUnder(g.edgeList[g.vertexDict[u]], u)
  }

  predicate Injective(d: map<string, nat>) {
    forall u, v :: u in d && v in d && u != v ==> d[u] != d[v]
  }

  /** Every edge of the list starts at `u`. */
  predicate FiledUnder(l: seq<Edge>, u: string) {
    forall j :: 0 <= j < |l| ==> l[j].start == u
  }

  /**
   * `getEdgeList`: `None` exactly for a word that is not a key, otherwise the
   * list at the word's index, which may be empty.
   */
  function EdgeListOf(g: GraphData, vertex: string): (r: Option<seq<Edge>>)
    requires Indexed(g)
    ensures r.None? <==> vertex !in g.vertexDict
    ensures r.Some? ==> r.value == g.edgeList[g.vertexDict[vertex]]
  {
    if vertex in g.vertexDict then Some(g.edgeList[g.vertexDict[vertex]]) else None
  }

  /** The outgoing edges of a word, empty for an unknown word. */
  function EdgesOf(g: GraphData, vertex: string): seq<Edge>
    requires Indexed(g)
  {
    if vertex in g.vertexDict then g.edgeList[g.vertexDict[vertex]] else []
  }

  /** In a valid graph an adjacency list holds one edge per target, all towards known words. */
  lemma EdgesOfValid(g: GraphData, vertex: string)
    requires ValidGraph(g)
    ensures ValidList(EdgesOf(g, vertex), g.vertexDict.Keys)
  {
    if vertex in g.vertexDict {
      assert ValidList(g.edgeList[g.vertexDict[vertex]], g.vertexDict.Keys);
    }
  }

  /** The position of the first edge of `l` whose target is `end`. */
  function FindEnd(l: seq<Edge>, end: string): (r: Option<nat>)
    ensures r.Some? ==> r.value < |l| && l[r.value].end == end
    ensures r.Some? ==> forall k :: 0 <= k < r.value ==> l[k].end != end
    ensures r.None? ==> forall k :: 0 <= k < |l| ==> l[k].end != end
  {
    if l == [] then None
    else if l[0].end == end then Some(0)
    else match FindEnd(l[1..], end)
      case None => None
      case Some(i) => Some(i + 1)
  }

  /** The weight of the edge to `b` in list `l`, or 0 when there is none. */
  function WeightIn(l: seq<Edge>, b: string): nat {
    match FindEnd(l, b)
    case None => 0
    case Some(j) => l[j].weight
  }

  /** The weight of the edge `a -> b`, or 0 when there is none. */
  function Weight(g: GraphData, a: string, b: string): nat
    requires Indexed(g)
  {
    WeightIn(EdgesOf(g, a), b)
  }

  /** `edge.weight += 1` */
  function Bump(e: Edge): (r: Edge)
    ensures r.start == e.start && r.end == e.end && r.weight == e.weight + 1
  {
    e.(weight := e.weight + 1)
  }

  /** `v` is the target of one of `u`'s outgoing edges. */
  predicate Successor(g: GraphData, u: string, v: string)
    requires Indexed(g)
  {
    FindEnd(EdgesOf(g, u), v).Some?
  }

  /** The index `addEdge` files the new or bumped edge under: `v1` of WordGraph.py:40-45. */
  function StartIndex(g: GraphData, start: string): nat {
    if start in g.vertexDict then g.vertexDict[start] else |g.vertexDict|
  }

  /** One vertex creation of `addEdge`: `vertex_dict[w] = len(vertex_dict)` and a new empty list. */
  function AddVertex(g: GraphData, w: string): GraphData {
    GraphData(g.vertexDict[w := |g.vertexDict|], g.edgeList + [[]])
  }

  /**
   * Lines 40-50 of `addEdge`: both words are looked up BEFORE either is inserted,
   * and each missing one gets index `len(vertex_dict)` and a new empty list.
   */
  function WithVertices(g: GraphData, start: string, end: string): GraphData {
    var g1 := if start in g.vertexDict then g else AddVertex(g, start);
    if end in g.vertexDict then g1 else AddVertex(g1, end)
  }

  /**
   * Lines 52-57 of `addEdge` on one list: the first edge whose target is `end`
   * has its weight incremented; if there is none, `Edge(start, end, 1)` is appended.
   */
  function InsertIntoList(l: seq<Edge>, start: string, end: string): (r: seq<Edge>)
    ensures |l| <= |r| <= |l| + 1
    ensures forall k :: 0 <= k < |l| ==> r[k].start == l[k].start && r[k].end == l[k].end
    ensures |r| == |l| + 1 ==> r[|l|] == Edge(start, end, 1)
  {
    match FindEnd(l, end)
    case Some(j) => l[j := Bump(l[j])]
    case None => l + [Edge(start, end, 1)]
  }

  /** Lines 52-57 of `addEdge`, applied to list `v`. */
  function InsertEdge(g: GraphData, v: nat, start: string, end: string): (r: GraphData)
    requires v < |g.edgeList|
    ensures Indexed(g) ==> Indexed(r)
  {
    GraphData(g.vertexDict, g.edgeList[v := InsertIntoList(g.edgeList[v], start, end)])
  }

  /** `Graph.addEdge(start, end)`, as the source writes it. */
  function AddEdgeSpec(g: GraphData, start: string, end: string): (r: GraphData)
    requires Indexed(g)
    ensures Indexed(r)
  {
    WithVerticesIndexed(g, start, end);
    InsertEdge(WithVertices(g, start, end), StartIndex(g, start), start, end)
  }

  lemma AddVertexValid(g: GraphData, w: string)
    requires ValidGraph(g)
    ensures ValidGraph(AddVertex(g, w))
  {
    var r := AddVertex(g, w);
    assert |r.vertexDict| <= |g.vertexDict| + 1;
    forall i | 0 <= i < |r.edgeList| ensures ValidList(r.edgeList[i], r.vertexDict.Keys) {
      if i < |g.edgeList| {
        assert r.edgeList[i] == g.edgeList[i];
        assert ValidList(g.edgeList[i], g.vertexDict.Keys);
      }
    }
  }

  /** Vertex creation keeps every existing index and list and adds only empty lists. */
  lemma WithVerticesFrame(g: GraphData, start: string, end: string)
    requires Indexed(g)
    ensures var r := WithVertices(g, start, end);
      && Indexed(r)
      && r.vertexDict.Keys == g.vertexDict.Keys + {start, end}
      && (forall w :: w in g.vertexDict ==> r.vertexDict[w] == g.vertexDict[w])
      && |g.edgeList| <= |r.edgeList|
      && StartIndex(g, start) < |r.edgeList|
      && (forall i :: 0 <= i < |g.edgeList| ==> r.edgeList[i] == g.edgeList[i])
      && (forall i :: |g.edgeList| <= i < |r.edgeList| ==> r.edgeList[i] == [])
  {
    WithVerticesIndexed(g, start, end);
    WithVerticesKeys(g, start, end);
    WithVerticesLists(g, start, end);
  }

  lemma WithVerticesIndexed(g: GraphData, start: string, end: string)
    requires Indexed(g)
    ensures var r := WithVertices(g, start, end);
      Indexed(r) && |g.edgeList| <= |r.edgeList| && StartIndex(g, start) < |r.edgeList|
  {
  }

  lemma WithVerticesKeys(g: GraphData, start: string, end: string)
    ensures var r := WithVertices(g, start, end);
      && r.vertexDict.Keys == g.vertexDict.Keys + {start, end}
      && (forall w :: w in g.vertexDict ==> r.vertexDict[w] == g.vertexDict[w])
  {
  }

  lemma WithVerticesLists(g: GraphData, start: string, end: string)
    ensures var r := WithVertices(g, start, end);
      && |g.edgeList| <= |r.edgeList|
      && (forall i :: 0 <= i < |g.edgeList| ==> r.edgeList[i] == g.edgeList[i])
      && (forall i :: |g.edgeList| <= i < |r.edgeList| ==> r.edgeList[i] == [])
  {
  }

  /**
   * `addEdge` keeps the graph valid, adds exactly its two words as vertices and
   * leaves every existing word at its index.
   */
  lemma AddEdgeValid(g: GraphData, start: string, end: string)
    requires ValidGraph(g)
    ensures var r := AddEdgeSpec(g, start, end);
      && ValidGraph(r)
      && r.vertexDict.Keys == g.vertexDict.Keys + {start, end}
      && (forall w :: w in g.vertexDict ==> r.vertexDict[w] == g.vertexDict[w])
  {
    WithVerticesFrame(g, start, end);
    var g1 := if start in g.vertexDict then g else AddVertex(g, start);
    if start !in g.vertexDict {
      AddVertexValid(g, start);
    }
    var w := WithVertices(g, start, end);
    if end !in g.vertexDict {
      AddVertexValid(g1, end);
    }
    assert ValidGraph(w);
    InsertEdgeValid(w, StartIndex(g, start), start, end);
  }

  lemma InsertEdgeValid(g: GraphData, v: nat, start: string, end: string)
    requires ValidGraph(g) && v < |g.edgeList| && end in g.vertexDict
    ensures ValidGraph(InsertEdge(g, v, start, end))
  {
    var r := InsertEdge(g, v, start, end);
    forall i | 0 <= i < |r.edgeList| ensures ValidList(r.edgeList[i], r.vertexDict.Keys) {
      assert ValidList(g.edgeList[i], g.vertexDict.Keys);
      if i == v {
        ValidInsertIntoList(g.edgeList[v], start, end, g.vertexDict.Keys);
      }
    }
  }

  lemma ValidInsertIntoList(l: seq<Edge>, start: string, end: string, words: set<string>)
    requires ValidList(l, words) && end in words
    ensures ValidList(InsertIntoList(l, start, end), words)
    ensures FiledUnder(l, start) ==> FiledUnder(InsertIntoList(l, start, end), start)
  {
  }

  /** In one list, `addEdge` adds 1 to the weight towards `end` and to no other. */
  lemma InsertIntoListWeight(l: seq<Edge>, start: string, end: string, b: string)
    ensures WeightIn(InsertIntoList(l, start, end), b) == WeightIn(l, b) + (if b == end then 1 else 0)
  {
    var r := InsertIntoList(l, start, end);
    match FindEnd(l, end)
    case Some(j) =>
      FindEndSameEnds(l, r, b);
    case None =>
      FindEndAppend(l, Edge(start, end, 1), b);
  }

  /** The words of the graph after `addEdge`: the old ones and the two endpoints. */
  lemma AddEdgeKeys(g: GraphData, start: string, end: string)
    requires Indexed(g)
    ensures forall w :: w in AddEdgeSpec(g, start, end).vertexDict <==>
      w in g.vertexDict || w == start || w == end
  {
    WithVerticesKeys(g, start, end);
  }

  /**
   * A first-seen word gets index `len(vertex_dict)` at the time it is inserted:
   * the start word first, then the end word.
   */
  lemma AddEdgeIndices(g: GraphData, start: string, end: string)
    requires Indexed(g)
    ensures var r := AddEdgeSpec(g, start, end);
      && (start !in g.vertexDict && start != end ==> r.vertexDict[start] == |g.vertexDict|)
      && (end !in g.vertexDict && end != start ==>
            r.vertexDict[end] == |g.vertexDict| + (if start in g.vertexDict then 0 else 1))
  {
    var g1 := if start in g.vertexDict then g else AddVertex(g, start);
    assert |g1.vertexDict| == |g.vertexDict| + (if start in g.vertexDict then 0 else 1);
  }

  /** A new start word (other than the end word) ends up with exactly the new edge. */
  lemma AddEdgeNewStart(g: GraphData, start: string, end: string)
    requires WellFormed(g) && start !in g.vertexDict && start != end
    ensures EdgeListOf(AddEdgeSpec(g, start, end), start) == Some([Edge(start, end, 1)])
  {
    AddEdgeIndices(g, start, end);
    WithVerticesFrame(g, start, end);
    var w := WithVertices(g, start, end);
    assert w.edgeList[|g.vertexDict|] == [];
    assert InsertIntoList([], start, end) == [Edge(start, end, 1)];
  }

  /**
   * With `start != end`, or `start` already present, `addEdge` keeps indices a
   * bijection onto the positions of `edge_list`.
   */
  lemma AddEdgeWellFormed(g: GraphData, start: string, end: string)
    requires WellFormed(g)
    requires start != end || start in g.vertexDict
    ensures WellFormed(AddEdgeSpec(g, start, end))
  {
    WithVerticesFrame(g, start, end);
    var g1 := if start in g.vertexDict then g else AddVertex(g, start);
    var w := WithVertices(g, start, end);
    if start !in g.vertexDict {
      AddVertexWellFormed(g, start);
    }
    assert WellFormed(g1);
    if end !in g.vertexDict {
      AddVertexWellFormed(g1, end);
    }
    assert WellFormed(w);
    assert StartIndex(g, start) == w.vertexDict[start];
    InsertEdgeWellFormed(w, start, end);
  }

  lemma AddVertexWellFormed(g: GraphData, w: string)
    requires WellFormed(g) && w !in g.vertexDict
    ensures WellFormed(AddVertex(g, w))
  {
    AddVertexValid(g, w);
    var r := AddVertex(g, w);
    assert |r.vertexDict| == |g.vertexDict| + 1;
    forall u | u in r.vertexDict ensures FiledUnder(r.edgeList[r.vertexDict[u]], u) {
      if u != w {
        assert r.edgeList[r.vertexDict[u]] == g.edgeList[g.vertexDict[u]];
      }
    }
  }

  lemma InsertEdgeWellFormed(g: GraphData, start: string, end: string)
    requires WellFormed(g) && start in g.vertexDict && end in g.vertexDict
    ensures WellFormed(InsertEdge(g, g.vertexDict[start], start, end))
  {
    var v := g.vertexDict[start];
    InsertEdgeValid(g, v, start, end);
    var r := InsertEdge(g, v, start, end);
    forall u | u in r.vertexDict ensures FiledUnder(r.edgeList[r.vertexDict[u]], u) {
      if u != start {
        assert r.edgeList[r.vertexDict[u]] == g.edgeList[g.vertexDict[u]];
      } else {
        assert ValidList(g.edgeList[v], g.vertexDict.Keys);
        ValidInsertIntoList(g.edgeList[v], start, end, g.vertexDict.Keys);
      }
    }
  }

  /** `addEdge` changes the list of `start` as `InsertIntoList` does. */
  lemma AddEdgeStartList(g: GraphData, start: string, end: string)
    requires WellFormed(g)
    requires start != end || start in g.vertexDict
    ensures EdgesOf(AddEdgeSpec(g, start, end), start) == InsertIntoList(EdgesOf(g, start), start, end)
  {
    var w := WithVertices(g, start, end);
    WithVerticesFrame(g, start, end);
    AddEdgeIndices(g, start, end);
    var v := StartIndex(g, start);
    assert w.vertexDict[start] == v;
    assert EdgesOf(g, start) == w.edgeList[v];
  }

  /** `addEdge` leaves the list of every word other than `start` as it was. */
  lemma AddEdgeOtherList(g: GraphData, start: string, end: string, a: string)
    requires WellFormed(g)
    requires start != end || start in g.vertexDict
    requires a != start
    ensures EdgesOf(AddEdgeSpec(g, start, end), a) == EdgesOf(g, a)
  {
    var r := AddEdgeSpec(g, start, end);
    if a in g.vertexDict {
      AddEdgeKeepsOtherList(g, start, end, a);
    } else if a in r.vertexDict {
      AddEdgeNewEndList(g, start, end);
    }
  }

  /**
   * `addEdge` on an existing pair adds 1 to that edge's weight, on a new pair
   * creates it with weight 1, and changes no other edge's weight.
   */
  lemma AddEdgeWeight(g: GraphData, start: string, end: string, a: string, b: string)
    requires WellFormed(g)
    requires start != end || start in g.vertexDict
    ensures Weight(AddEdgeSpec(g, start, end), a, b) ==
      Weight(g, a, b) + (if a == start && b == end then 1 else 0)
  {
    if a == start {
      AddEdgeStartList(g, start, end);
      InsertIntoListWeight(EdgesOf(g, start), start, end, b);
    } else {
      AddEdgeOtherList(g, start, end, a);
    }
  }

  /** The targets of an adjacency list, in order. */
  function Ends(l: seq<Edge>): (r: seq<string>)
    ensures |r| == |l| && forall k :: 0 <= k < |l| ==> r[k] == l[k].end
  {
    seq(|l|, k requires 0 <= k < |l| => l[k].end)
  }

  /** `s` extended by `x` unless it already holds `x`. */
  function AddNew(s: seq<string>, x: string): seq<string> {
    if x in s then s else s + [x]
  }

  lemma FindEndIn(l: seq<Edge>, b: string)
    ensures FindEnd(l, b).Some? <==> b in Ends(l)
  {
    if b in Ends(l) {
      var k :| 0 <= k < |l| && Ends(l)[k] == b;
    }
  }

  /** In one list, `addEdge` keeps the targets in place and appends `end` if it is new. */
  lemma InsertIntoListEnds(l: seq<Edge>, start: string, end: string)
    ensures Ends(InsertIntoList(l, start, end)) == AddNew(Ends(l), end)
  {
    FindEndIn(l, end);
  }

  /**
   * `addEdge` appends `end` to the targets of `start` when the edge is new, and
   * leaves every other target list, and the order of every list, unchanged.
   */
  lemma AddEdgeEnds(g: GraphData, start: string, end: string, x: string)
    requires WellFormed(g)
    requires start != end || start in g.vertexDict
    ensures Ends(EdgesOf(AddEdgeSpec(g, start, end), x)) ==
      if x == start then AddNew(Ends(EdgesOf(g, x)), end) else Ends(EdgesOf(g, x))
  {
    if x == start {
      AddEdgeStartList(g, start, end);
      InsertIntoListEnds(EdgesOf(g, start), start, end);
    } else {
      AddEdgeOtherList(g, start, end, x);
    }
  }

  lemma AddEdgeKeepsOtherList(g: GraphData, start: string, end: string, a: string)
    requires WellFormed(g) && a in g.vertexDict && a != start
    ensures EdgesOf(AddEdgeSpec(g, start, end), a) == EdgesOf(g, a)
  {
    WithVerticesKeys(g, start, end);
    WithVerticesLists(g, start, end);
    assert g.vertexDict[a] != StartIndex(g, start);
  }

  lemma AddEdgeNewEndList(g: GraphData, start: string, end: string)
    requires WellFormed(g) && end !in g.vertexDict && start != end
    ensures EdgesOf(AddEdgeSpec(g, start, end), end) == []
  {
    WithVerticesKeys(g, start, end);
    WithVerticesLists(g, start, end);
    AddEdgeIndices(g, start, end);
  }

  lemma {:induction false} FindEndAppend(l: seq<Edge>, e: Edge, b: string)
    ensures FindEnd(l + [e], b) ==
      if FindEnd(l, b).Some? then FindEnd(l, b) else if e.end == b then Some(|l|) else None
  {
    if l != [] {
      assert (l + [e])[1..] == l[1..] + [e];
      FindEndAppend(l[1..], e, b);
    } else {
      assert [] + [e] == [e];
    }
  }

  lemma {:induction false} FindEndSameEnds(l: seq<Edge>, l': seq<Edge>, b: string)
    requires |l| == |l'| && forall k :: 0 <= k < |l| ==> l[k].end == l'[k].end
    ensures FindEnd(l, b) == FindEnd(l', b)
  {
    if l != [] {
      FindEndSameEnds(l[1..], l'[1..], b);
    }
  }

  /**
   * `addEdge(w, w)` for a word `w` the graph does not hold: both lookups happen
   * before either insertion, so `w` is given two indices in turn and the
   * self-loop is filed under the first, `len(vertex_dict)`, which no word keeps;
   * `w` itself ends up with an empty list and the graph is no longer well-formed.
   */
  lemma SelfLoopOnNewWord(g: GraphData, w: string)
    requires WellFormed(g) && w !in g.vertexDict
    ensures var r := AddEdgeSpec(g, w, w);
      && r.vertexDict[w] == |g.vertexDict| + 1
      && r.edgeList[|g.vertexDict|] == [Edge(w, w, 1)]
      && EdgeListOf(r, w) == Some([])
      && (forall u :: u in r.vertexDict ==> r.vertexDict[u] != |g.vertexDict|)
      && !WellFormed(r)
  {
    WithVerticesFrame(g, w, w);
    var h := WithVertices(g, w, w);
    assert |h.edgeList| == |g.edgeList| + 2;
    assert |h.vertexDict| == |g.vertexDict| + 1;
    var r := AddEdgeSpec(g, w, w);
    assert |r.edgeList| == |h.edgeList|;
  }

  /**
   * After the defect, `edge_list` is longer than `vertex_dict`, so the next new
   * word is given `w`'s index and `w`'s self-loop list is reported as its own.
   */
  lemma SelfLoopSharesIndex()
    ensures var r := AddEdgeSpec(AddEdgeSpec(Empty, "w", "w"), "w", "x");
      && r.vertexDict == map["w" := 1, "x" := 1]
      && EdgeListOf(r, "x") == Some([Edge("w", "x", 1)])
  {
    var g2 := WithVertices(Empty, "w", "w");
    assert g2.vertexDict == map["w" := 1] by {
      assert map["w" := 0]["w" := 1] == map["w" := 1];
    }
    assert g2.edgeList == [[], []];
    assert InsertIntoList([], "w", "w") == [Edge("w", "w", 1)];
    var r := AddEdgeSpec(Empty, "w", "w");
    assert r.edgeList == [[Edge("w", "w", 1)], []];
    assert |r.vertexDict| == 1;
    assert "x" != "w";
    var h := WithVertices(r, "w", "x");
    assert h.vertexDict == map["w" := 1, "x" := 1];
    assert h.edgeList == [[Edge("w", "w", 1)], [], []];
    assert InsertIntoList([], "w", "x") == [Edge("w", "x", 1)];
  }

  /** The search loop of `addEdge` (WordGraph.py:52-55): the first edge of `l` towards `end`. */
  method FindEdge(l: seq<Edge>, end: string) returns (r: Option<nat>)
    ensures r == FindEnd(l, end)
  {
    for j := 0 to |l|
      invariant forall k :: 0 <= k < j ==> l[k].end != end
    {
      if l[j].end == end {
        return Some(j);
      }
    }
    return None;
  }

  /**
   * A `Graph` object: the two fields the source mutates. `Valid` holds of every
   * state the constructor and `AddEdge` produce.
   */
  class Graph {
    var vertexDict: map<string, nat>
    var edgeList: seq<seq<Edge>>

    function Data(): GraphData
      reads this
    {
      GraphData(vertexDict, edgeList)
    }

    predicate Valid()
      reads this
    {
      ValidGraph(Data())
    }

    constructor ()
      ensures Data() == Empty && WellFormed(Data())
    {
      edgeList := [];
      vertexDict := map[];
    }

    method AddEdge(start: string, end: string)
      requires Valid()
      modifies this
      ensures Data() == AddEdgeSpec(old(Data()), start, end)
      ensures Valid()
    {
      ghost var g := Data();
      var v1o := if start in vertexDict then Some(vertexDict[start]) else None;
      var v2o := if end in vertexDict then Some(vertexDict[end]) else None;
      var v1: nat;
      if v1o.None? {
        v1 := NewVertex(start);
      } else {
        v1 := v1o.value;
      }
      assert Data() == if start in g.vertexDict then g else AddVertex(g, start);
      if v2o.None? {
        var _ := NewVertex(end);
      }
      assert Data() == WithVertices(g, start, end);
      WithVerticesFrame(g, start, end);
      FileEdge(v1, start, end);
      AddEdgeValid(g, start, end);
    }

    /** `vertex_dict[word] = len(vertex_dict)` and `edge_list.append([])`. */
    method NewVertex(word: string) returns (v: nat)
      modifies this
      ensures v == old(|vertexDict|) && Data() == AddVertex(old(Data()), word)
    {
      v := |vertexDict|;
      vertexDict := vertexDict[word := v];
      edgeList := edgeList + [[]];
    }

    /** Lines 52-57 of `addEdge`: bump the edge `start -> end` in list `v`, or append it. */
    method FileEdge(v: nat, start: string, end: string)
      requires v < |edgeList|
      modifies this
      ensures Data() == InsertEdge(old(Data()), v, start, end)
    {
      var l := edgeList[v];
      var found := FindEdge(l, end);
      match found
      case Some(j) =>
        edgeList := edgeList[v := l[j := Bump(l[j])]];
      case None =>
        edgeList := edgeList[v := l + [Edge(start, end, 1)]];
    }

    function GetEdgeList(vertex: string): (r: Option<seq<Edge>>)
      reads this
      requires Valid()
      ensures r == EdgeListOf(Data(), vertex)
    {
      if vertex in vertexDict then Some(edgeList[vertexDict[vertex]]) else None
    }
  }
}
