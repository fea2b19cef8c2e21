/**
 * `WordGraph.queryBridgeWords` (WordGraph.py:113-135): the words `w3` with an
 * edge `word1 -> w3` and an edge `w3 -> word2`, after lowercasing both words.
 */
module Bridges {
  import opened Text
  import opened Graphs
  import opened Construction

  /**
   * The four outcomes of the query: the source returns -1, -2 and -3 for the
   * first three and the list of bridge words for the last.
   */
  datatype BridgeResult = NoWord1 | NoWord2 | NoBridge | Bridges(words: seq<string>)

  /** The inner loop (WordGraph.py:128-130): `w3` once per target of `w3` equal to `w2`. */
  function Hits(targets: seq<string>, w3: string, w2: string): seq<string> {
    if targets == [] then []
    else Hits(targets[..|targets| - 1], w3, w2) + (if targets[|targets| - 1] == w2 then [w3] else [])
  }

  /** The outer loop (WordGraph.py:126-130) over the targets `firsts` of `word1`. */
  function BridgesVia(g: GraphData, firsts: seq<string>, w2: string): seq<string>
    requires Indexed(g)
  {
    if firsts == [] then []
    else
      var w3 := firsts[|firsts| - 1];
      BridgesVia(g, firsts[..|firsts| - 1], w2) + Hits(Ends(EdgesOf(g, w3)), w3, w2)
  }

  /** `queryBridgeWords(word1, word2)` on the graph `g`. */
  function BridgeSpec(g: GraphData, word1: string, word2: string): BridgeResult
    requires Indexed(g)
  {
    var w1 := Lower(word1);
    var w2 := Lower(word2);
    if w1 !in g.vertexDict then NoWord1
    else if w2 !in g.vertexDict then NoWord2
    else
      var found := BridgesVia(g, Ends(EdgesOf(g, w1)), w2);
      if found == [] then NoBridge else Bridges(found)
  }

  /** The reference definition: the targets of `firsts` that have an edge to `w2`, in order. */
  function Filter(g: GraphData, firsts: seq<string>, w2: string): seq<string>
    requires Indexed(g)
  {
    if firsts == [] then []
    else
      var w3 := firsts[|firsts| - 1];
      Filter(g, firsts[..|firsts| - 1], w2) + (if Successor(g, w3, w2) then [w3] else [])
  }

  /** A list with one edge per target yields each bridge word at most once. */
  lemma {:induction false} HitsOnce(targets: seq<string>, w3: string, w2: string)
    requires NoDup(targets)
    ensures Hits(targets, w3, w2) == if w2 in targets then [w3] else []
  {
    if targets != [] {
      var init := targets[..|targets| - 1];
      assert NoDup(init);
      HitsOnce(init, w3, w2);
      assert targets == init + [targets[|targets| - 1]];
      if targets[|targets| - 1] == w2 {
        assert w2 !in init;
      }
    }
  }

  lemma EndsNoDup(l: seq<Edge>)
    requires DistinctEnds(l)
    ensures NoDup(Ends(l))
  {
  }

  /** The two nested loops compute exactly the filter. */
  lemma {:induction false} BridgesViaFilter(g: GraphData, firsts: seq<string>, w2: string)
    requires ValidGraph(g)
    ensures BridgesVia(g, firsts, w2) == Filter(g, firsts, w2)
  {
    if firsts != [] {
      var w3 := firsts[|firsts| - 1];
      BridgesViaFilter(g, firsts[..|firsts| - 1], w2);
      EdgesOfValid(g, w3);
      EndsNoDup(EdgesOf(g, w3));
      HitsOnce(Ends(EdgesOf(g, w3)), w3, w2);
      FindEndIn(EdgesOf(g, w3), w2);
    }
  }

  /** The filter holds exactly the elements of `firsts` with an edge to `w2`. */
  lemma {:induction false} FilterMembers(g: GraphData, firsts: seq<string>, w2: string)
    requires Indexed(g)
    ensures forall w :: w in Filter(g, firsts, w2) <==> w in firsts && Successor(g, w, w2)
  {
    if firsts != [] {
      var init := firsts[..|firsts| - 1];
      FilterMembers(g, init, w2);
      assert firsts == init + [firsts[|firsts| - 1]];
    }
  }

  /** The filter of a list without repeats has no repeats. */
  lemma {:induction false} FilterNoDup(g: GraphData, firsts: seq<string>, w2: string)
    requires Indexed(g) && NoDup(firsts)
    ensures NoDup(Filter(g, firsts, w2))
  {
    if firsts != [] {
      var init := firsts[..|firsts| - 1];
      var last := firsts[|firsts| - 1];
      assert NoDup(init);
      FilterNoDup(g, init, w2);
      FilterMembers(g, init, w2);
      assert last !in init;
    }
  }

  /**
   * The result of `queryBridgeWords`: -1 exactly when the lowercased `word1` is
   * unknown, -2 exactly when it is known and the lowercased `word2` is not, -3
   * exactly when both are known and no word lies between them, and otherwise
   * the words `w` with edges `word1 -> w -> word2`, each once, in the order of
   * `word1`'s outgoing edges.
   */
  lemma BridgeSpecCorrect(g: GraphData, word1: string, word2: string)
    requires ValidGraph(g)
    ensures var w1, w2, r := Lower(word1), Lower(word2), BridgeSpec(g, word1, word2);
      && (r == NoWord1 <==> w1 !in g.vertexDict)
      && (r == NoWord2 <==> w1 in g.vertexDict && w2 !in g.vertexDict)
      && (r == NoBridge <==>
            (w1 in g.vertexDict && w2 in g.vertexDict &&
             forall w :: !(Successor(g, w1, w) && Successor(g, w, w2))))
      && (r.Bridges? ==>
            && (forall w :: w in r.words <==> Successor(g, w1, w) && Successor(g, w, w2))
            && NoDup(r.words)
            && r.words == Filter(g, Ends(EdgesOf(g, w1)), w2))
  {
    var w1, w2 := Lower(word1), Lower(word2);
    var firsts := Ends(EdgesOf(g, w1));
    BridgesViaFilter(g, firsts, w2);
    FilterMembers(g, firsts, w2);
    EdgesOfValid(g, w1);
    EndsNoDup(EdgesOf(g, w1));
    FilterNoDup(g, firsts, w2);
    forall w ensures Successor(g, w1, w) <==> w in firsts {
      FindEndIn(EdgesOf(g, w1), w);
    }
    var found := Filter(g, firsts, w2);
    if w1 in g.vertexDict && w2 in g.vertexDict && found == [] {
      forall w ensures !(Successor(g, w1, w) && Successor(g, w, w2)) {
        assert w !in found;
      }
    }
    if w1 in g.vertexDict && w2 in g.vertexDict && found != [] {
      assert found[0] in found;
    }
  }

  /** The token sequence whose consecutive pairs build the graph of test_black_queryBridgeWords.py. */
  const TestTokens: seq<string> := ["a", "b", "e", "o", "a", "b", "c", "o", "a", "d", "c"]

  /** The targets of each word of the test graph, in order. */
  lemma TestGraphTargets(t: seq<string>, g: GraphData)
    requires t == TestTokens && g == Build(Empty, t)
    ensures WellFormed(g)
    ensures Ends(EdgesOf(g, "a")) == ["b", "d"] && Ends(EdgesOf(g, "b")) == ["e", "c"]
    ensures Ends(EdgesOf(g, "c")) == ["o"] && Ends(EdgesOf(g, "d")) == ["c"]
    ensures Ends(EdgesOf(g, "o")) == ["a"]
    ensures "a" in g.vertexDict && "c" in g.vertexDict && "e" in g.vertexDict && "," !in g.vertexDict
  {
    TestTokensSafe(t);
    BuildWeight(Empty, t, 0, "a", "b");
    TestGraphWords(t, g);
    TestTargetsAB(t, g);
    TestTargetsCDO(t, g);
  }

  lemma TestTokensSafe(t: seq<string>)
    requires t == TestTokens
    ensures SafeFrom(Empty, t, 0)
  {
  }

  lemma TestTargetsAB(t: seq<string>, g: GraphData)
    requires t == TestTokens && g == Build(Empty, t)
    ensures Ends(EdgesOf(g, "a")) == ["b", "d"] && Ends(EdgesOf(g, "b")) == ["e", "c"]
  {
    TestTokensSafe(t);
    TestTargetsA(t);
    BuildEndsFromEmpty(t, "a");
    TestTargetsB(t);
    BuildEndsFromEmpty(t, "b");
  }

  lemma TestTargetsCDO(t: seq<string>, g: GraphData)
    requires t == TestTokens && g == Build(Empty, t)
    ensures Ends(EdgesOf(g, "c")) == ["o"] && Ends(EdgesOf(g, "d")) == ["c"]
    ensures Ends(EdgesOf(g, "o")) == ["a"]
  {
    TestTokensSafe(t);
    TestTargetsC(t);
    BuildEndsFromEmpty(t, "c");
    TestTargetsD(t);
    BuildEndsFromEmpty(t, "d");
    TestTargetsO(t);
    BuildEndsFromEmpty(t, "o");
  }

  lemma TestGraphWords(t: seq<string>, g: GraphData)
    requires t == TestTokens && g == Build(Empty, t)
    ensures "a" in g.vertexDict && "c" in g.vertexDict && "e" in g.vertexDict && "," !in g.vertexDict
  {
    BuildVertices(Empty, t, 0);
    TestTokenSet(t);
  }

  lemma TestTokenSet(t: seq<string>)
    requires t == TestTokens
    ensures t[0..] == t && "a" in t && "c" in t && "e" in t && "," !in t
  {
  }

  lemma TestTargetsA(t: seq<string>)
    requires t == TestTokens
    ensures TargetsFrom([], t, "a", 0) == ["b", "d"]
  {
  }

  lemma TestTargetsB(t: seq<string>)
    requires t == TestTokens
    ensures TargetsFrom([], t, "b", 0) == ["e", "c"]
  {
  }

  lemma TestTargetsC(t: seq<string>)
    requires t == TestTokens
    ensures TargetsFrom([], t, "c", 0) == ["o"]
  {
  }

  lemma TestTargetsO(t: seq<string>)
    requires t == TestTokens
    ensures TargetsFrom([], t, "o", 0) == ["a"]
  {
  }

  lemma TestTargetsD(t: seq<string>)
    requires t == TestTokens
    ensures TargetsFrom([], t, "d", 0) == ["c"]
  {
  }

  /**
   * The cases of test_black_queryBridgeWords.py, on the graph `g` its fixture
   * builds: `b` lies between `a` and `e`; `b` and `d` lie between `a` and `c`, in
   * that order; nothing lies between `c` and `e` (-3); and `,` is not a word of
   * the graph (-1).
   */
  lemma BridgeTestCases(t: seq<string>, g: GraphData)
    requires t == TestTokens && g == Build(Empty, t)
    ensures BridgeSpec(g, "a", "e") == Bridges(["b"])
    ensures BridgeSpec(g, "a", "c") == Bridges(["b", "d"])
    ensures BridgeSpec(g, "c", "e") == NoBridge
    ensures BridgeSpec(g, ",", "c") == NoWord1
  {
    TestGraphTargets(t, g);
    LowerOneChar("a");
    LowerOneChar("c");
    LowerOneChar("e");
    LowerOneChar(",");
    TestBridgeAE(g);
    TestBridgeAC(g);
    TestBridgeCE(g);
  }

  lemma LowerOneChar(s: string)
    requires |s| == 1 && !('A' <= s[0] <= 'Z')
    ensures Lower(s) == s
  {
  }

  lemma TestBridgeAE(g: GraphData)
    requires Indexed(g) && Ends(EdgesOf(g, "b")) == ["e", "c"] && Ends(EdgesOf(g, "d")) == ["c"]
    ensures BridgesVia(g, ["b", "d"], "e") == ["b"]
  {
    HitsOf2("e", "c", "b", "e");
    HitsOf1("c", "d", "e");
    assert ["b", "d"][..1] == ["b"] && ["b"][..0] == [];
    assert BridgesVia(g, ["b"], "e") == Hits(["e", "c"], "b", "e");
    assert BridgesVia(g, ["b", "d"], "e") == BridgesVia(g, ["b"], "e") + Hits(["c"], "d", "e");
  }

  lemma TestBridgeAC(g: GraphData)
    requires Indexed(g) && Ends(EdgesOf(g, "b")) == ["e", "c"] && Ends(EdgesOf(g, "d")) == ["c"]
    ensures BridgesVia(g, ["b", "d"], "c") == ["b", "d"]
  {
    HitsOf2("e", "c", "b", "c");
    HitsOf1("c", "d", "c");
    assert ["b", "d"][..1] == ["b"] && ["b"][..0] == [];
    assert BridgesVia(g, ["b"], "c") == Hits(["e", "c"], "b", "c");
    assert BridgesVia(g, ["b", "d"], "c") == BridgesVia(g, ["b"], "c") + Hits(["c"], "d", "c");
  }

  lemma TestBridgeCE(g: GraphData)
    requires Indexed(g) && Ends(EdgesOf(g, "o")) == ["a"]
    ensures BridgesVia(g, ["o"], "e") == []
  {
    HitsOf1("a", "o", "e");
    assert ["o"][..0] == [];
  }

  lemma HitsOf1(x: string, w3: string, w2: string)
    ensures Hits([x], w3, w2) == if x == w2 then [w3] else []
  {
    assert [x][..0] == [];
  }

  lemma HitsOf2(x: string, y: string, w3: string, w2: string)
    ensures Hits([x, y], w3, w2) == (if x == w2 then [w3] else []) + (if y == w2 then [w3] else [])
  {
    assert [x, y][..1] == [x];
    HitsOf1(x, w3, w2);
  }

  /**
   * `queryBridgeWords` as the source runs it: the edge list of `word1`, then for
   * each of its edges `word1 -> w3` the edge list of `w3`, collecting `w3` once
   * for every edge of `w3` towards `word2`.
   */
  method QueryBridgeWords(g: GraphData, word1: string, word2: string) returns (r: BridgeResult)
    requires ValidGraph(g)
    ensures r == BridgeSpec(g, word1, word2)
  {
    var w1 := Lower(word1);
    var w2 := Lower(word2);
    var list1 := EdgeListOf(g, w1);
    if list1.None? {
      return NoWord1;
    }
    if EdgeListOf(g, w2).None? {
      return NoWord2;
    }
    var edges1 := list1.value;
    EdgesOfValid(g, w1);
    var bridgeWords: seq<string> := [];
    for i := 0 to |edges1|
      invariant bridgeWords == BridgesVia(g, Ends(edges1)[..i], w2)
    {
      var w3 := edges1[i].end;
      var hits := CollectHits(EdgeListOf(g, w3).value, w3, w2);
      bridgeWords := bridgeWords + hits;
      ViaStep(g, Ends(edges1), i, w2);
    }
    assert Ends(edges1)[..|edges1|] == Ends(EdgesOf(g, w1));
    if bridgeWords == [] {
      return NoBridge;
    }
    return Bridges(bridgeWords);
  }

  /** The inner loop (WordGraph.py:128-130) over the edges of `w3`. */
  method CollectHits(edges: seq<Edge>, w3: string, w2: string) returns (hits: seq<string>)
    ensures hits == Hits(Ends(edges), w3, w2)
  {
    hits := [];
    for j := 0 to |edges|
      invariant hits == Hits(Ends(edges)[..j], w3, w2)
    {
      if w2 == edges[j].end {
        hits := hits + [w3];
      }
      assert Ends(edges)[..j + 1][..j] == Ends(edges)[..j];
    }
    assert Ends(edges)[..|edges|] == Ends(edges);
  }

  /** One more iteration of the outer loop appends the hits of the next target. */
  lemma ViaStep(g: GraphData, firsts: seq<string>, i: nat, w2: string)
    requires Indexed(g) && i < |firsts|
    ensures BridgesVia(g, firsts[..i + 1], w2)
      == BridgesVia(g, firsts[..i], w2) + Hits(Ends(EdgesOf(g, firsts[i])), firsts[i], w2)
  {
    assert firsts[..i + 1][..i] == firsts[..i];
  }
}
