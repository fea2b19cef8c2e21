/**
 * `WordGraph.randomWalk` (WordGraph.py:187-203): from a start word, follow a
 * randomly chosen outgoing edge, appending its target to the result, until the
 * current word has no outgoing edge or an edge object is taken a second time.
 * The random choices are supplied by an oracle.
 */
module Walks {
  import opened Graphs
  import ShortestPaths

  /**
   * The identity of an `Edge` object: the adjacency list that holds it and its
   * position there. `edge in edge_tmp` compares edges by identity, and one
   * object never moves between lists or positions.
   */
  datatype Slot = Slot(list: nat, pos: nat)

  /** The edge objects of the lists, one slot per list position. */
  ghost function SlotsOf(lists: seq<seq<Edge>>): set<Slot>
    decreases |lists|
  {
    if lists == [] then {}
    else SlotsOf(lists[..|lists| - 1]) + Row(|lists| - 1, |lists[|lists| - 1]|)
  }

  /** The slots of list `v`, which has `len` edges. */
  ghost function Row(v: nat, len: nat): set<Slot> {
    set p: nat | p < len :: Slot(v, p)
  }

  /** The number of edges in the lists. */
  function EdgeCount(lists: seq<seq<Edge>>): nat {
    if lists == [] then 0 else EdgeCount(lists[..|lists| - 1]) + |lists[|lists| - 1]|
  }

  /** A slot names an edge that exists. */
  predicate InGraph(lists: seq<seq<Edge>>, s: Slot) {
    s.list < |lists| && s.pos < |lists[s.list]|
  }

  /** The words joined by single spaces, as `ret = ret + " " + edge.end` builds them. */
  function Spaced(words: seq<string>): (r: string)
    requires words != []
    ensures |r| >= |words[0]|
  {
    if |words| == 1 then words[0] else Spaced(words[..|words| - 1]) + " " + words[|words| - 1]
  }

  /** `pick(s, n)` is the position `random.choice` takes at step `s` from a list of `n` edges. */
  ghost predicate Oracle(pick: (nat, nat) -> nat) {
    forall s: nat, n: nat :: 0 < n ==> pick(s, n) < n
  }

  /**
   * Step `i` of the walk leaves `path[i]` along `slots[i]`: the edge the oracle
   * picks from `path[i]`'s list, whose target is `path[i + 1]`.
   */
  predicate Follows(g: GraphData, pick: (nat, nat) -> nat, path: seq<string>, slots: seq<Slot>)
    requires Indexed(g)
  {
    && |path| == |slots| + 1
    && forall i :: 0 <= i < |slots| ==>
      && path[i] in g.vertexDict && slots[i].list == g.vertexDict[path[i]]
      && slots[i].pos == pick(i, |EdgesOf(g, path[i])|) && slots[i].pos < |EdgesOf(g, path[i])|
      && path[i + 1] == EdgesOf(g, path[i])[slots[i].pos].end
  }

  /**
   * Why the walk ended: its last word has no outgoing edge (or is no vertex) and
   * no edge was taken twice, or its last edge had been taken before and all the
   * earlier ones are distinct.
   */
  predicate Stopped(g: GraphData, path: seq<string>, slots: seq<Slot>)
    requires Indexed(g) && path != []
  {
    || (EdgesOf(g, path[|path| - 1]) == [] && NoDup(slots))
    || (slots != [] && NoDup(slots[..|slots| - 1]) && slots[|slots| - 1] in slots[..|slots| - 1])
  }

  /**
   * `randomWalk()` from `start` (the word `random.choice` draws from the keys):
   * it returns the visited words joined by spaces; the walk follows the oracle's
   * edges and stops exactly as described by `Stopped` (so, by `WalkLength`,
   * it takes at most one step more than the graph has edges).
   */
  method RandomWalk(g: GraphData, start: string, pick: (nat, nat) -> nat)
    returns (ret: string, ghost path: seq<string>, ghost slots: seq<Slot>)
    requires Indexed(g) && Oracle(pick) && start in g.vertexDict
    ensures path != [] && path[0] == start && ret == Spaced(path)
    ensures Follows(g, pick, path, slots) && Stopped(g, path, slots)
  {
    var cur := start;
    ret := start;
    path := [start];
    slots := [];
    var edgeTmp: seq<Slot> := [];
    while true
      invariant |path| == |slots| + 1 && path[0] == start && path[|path| - 1] == cur
      invariant ret == Spaced(path)
      invariant Follows(g, pick, path, slots) && edgeTmp == slots && NoDup(slots)
      invariant |slots| <= EdgeCount(g.edgeList)
      decreases EdgeCount(g.edgeList) - |edgeTmp|
    {
      var edgeList := EdgeListOf(g, cur);
      if edgeList.None? || |edgeList.value| == 0 {
        break;
      }
      var pos := pick(|edgeTmp|, |edgeList.value|);
      var edge := edgeList.value[pos];
      var slot := Slot(g.vertexDict[cur], pos);
      WalkStep(g, pick, path, slots, pos);
      ret := ret + " " + edge.end;
      path := path + [edge.end];
      slots := slots + [slot];
      cur := edge.end;
      if slot in edgeTmp {
        break;
      }
      edgeTmp := edgeTmp + [slot];
      SlotsInGraph(g, pick, path, slots);
      DistinctBound(g.edgeList, slots);
    }
  }

  /** A walk that has stopped took every edge of the graph at most once, the last one at most twice. */
  lemma WalkLength(g: GraphData, pick: (nat, nat) -> nat, path: seq<string>, slots: seq<Slot>)
    requires Indexed(g) && Follows(g, pick, path, slots) && Stopped(g, path, slots)
    ensures |slots| <= EdgeCount(g.edgeList) + 1
  {
    SlotsInGraph(g, pick, path, slots);
    if NoDup(slots) {
      DistinctBound(g.edgeList, slots);
    } else {
      DistinctBound(g.edgeList, slots[..|slots| - 1]);
    }
  }

  /** Taking the edge the oracle picks from the last word extends the walk. */
  lemma WalkStep(g: GraphData, pick: (nat, nat) -> nat, path: seq<string>, slots: seq<Slot>, pos: nat)
    requires Indexed(g) && Follows(g, pick, path, slots)
    requires path[|path| - 1] in g.vertexDict
    requires pos == pick(|slots|, |EdgesOf(g, path[|path| - 1])|) && pos < |EdgesOf(g, path[|path| - 1])|
    ensures var u := path[|path| - 1];
      var path' := path + [EdgesOf(g, u)[pos].end];
      var slots' := slots + [Slot(g.vertexDict[u], pos)];
      && Follows(g, pick, path', slots') && slots'[..|slots|] == slots
      && Spaced(path') == Spaced(path) + " " + EdgesOf(g, u)[pos].end
  {
    var u := path[|path| - 1];
    var path' := path + [EdgesOf(g, u)[pos].end];
    assert path'[..|path'| - 1] == path;
  }

  /** In a valid graph the visited words form a path: each is a target of the word before it. */
  lemma WalkIsPath(g: GraphData, pick: (nat, nat) -> nat, path: seq<string>, slots: seq<Slot>)
    requires ValidGraph(g) && Follows(g, pick, path, slots)
    ensures ShortestPaths.IsPath(g, path)
  {
    forall k | 0 <= k < |path| - 1 ensures Successor(g, path[k], path[k + 1]) {
      ShortestPaths.EdgeWeight(g, path[k], slots[k].pos);
    }
  }

  /** Every slot of a walk names an edge of the graph. */
  lemma SlotsInGraph(g: GraphData, pick: (nat, nat) -> nat, path: seq<string>, slots: seq<Slot>)
    requires Indexed(g) && Follows(g, pick, path, slots)
    ensures forall i :: 0 <= i < |slots| ==> InGraph(g.edgeList, slots[i])
  {
    forall i | 0 <= i < |slots| ensures InGraph(g.edgeList, slots[i]) {
      assert EdgesOf(g, path[i]) == g.edgeList[slots[i].list];
    }
  }

  /** Distinct edges of the graph are no more than the graph has: the pigeonhole bound. */
  lemma DistinctBound(lists: seq<seq<Edge>>, slots: seq<Slot>)
    requires NoDup(slots) && forall i :: 0 <= i < |slots| ==> InGraph(lists, slots[i])
    ensures |slots| <= EdgeCount(lists)
  {
    var elems := set i | 0 <= i < |slots| :: slots[i];
    DistinctCard(slots);
    SlotsOfMembers(lists);
    SlotsOfCard(lists);
    assert elems <= SlotsOf(lists);
    SubsetCard(elems, SlotsOf(lists));
  }

  /** A sequence without repeats has as many distinct elements as positions. */
  lemma {:induction false} DistinctCard(slots: seq<Slot>)
    requires NoDup(slots)
    ensures |set i | 0 <= i < |slots| :: slots[i]| == |slots|
  {
    if slots != [] {
      var init := slots[..|slots| - 1];
      DistinctCard(init);
      var a := set i | 0 <= i < |init| :: init[i];
      var b := set i | 0 <= i < |slots| :: slots[i];
      assert b == a + {slots[|slots| - 1]};
      assert slots[|slots| - 1] !in a;
    }
  }

  /** The slots of the lists are exactly the positions that exist. */
  lemma {:induction false} SlotsOfMembers(lists: seq<seq<Edge>>)
    ensures forall s :: s in SlotsOf(lists) <==> InGraph(lists, s)
    decreases |lists|
  {
    if lists != [] {
      var init := lists[..|lists| - 1];
      SlotsOfMembers(init);
      forall s ensures s in SlotsOf(lists) <==> InGraph(lists, s) {
        if s.list < |init| {
          assert lists[s.list] == init[s.list];
        }
      }
    }
  }

  /** There are as many slots as edges. */
  lemma {:induction false} SlotsOfCard(lists: seq<seq<Edge>>)
    ensures |SlotsOf(lists)| == EdgeCount(lists)
    decreases |lists|
  {
    if lists != [] {
      var init := lists[..|lists| - 1];
      var v := |lists| - 1;
      SlotsOfCard(init);
      SlotsOfMembers(init);
      RowCard(v, |lists[v]|);
      assert SlotsOf(init) !! Row(v, |lists[v]|);
    }
  }

  /** A row of `len` positions has `len` slots. */
  lemma {:induction false} RowCard(v: nat, len: nat)
    ensures |Row(v, len)| == len
  {
    if len > 0 {
      RowCard(v, len - 1);
      assert Row(v, len) == Row(v, len - 1) + {Slot(v, len - 1)};
    }
  }

  lemma {:induction false} SubsetCard(a: set<Slot>, b: set<Slot>)
    requires a <= b
    ensures |a| <= |b|
    decreases |a|
  {
    if a != {} {
      var x :| x in a;
      SubsetCard(a - {x}, b - {x});
    }
  }
}
