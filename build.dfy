/**
 * Graph construction of `WordGraph.generateGraph` (WordGraph.py:74-92): the
 * lines are stripped of punctuation and split, the tokens of all lines are
 * concatenated and lowercased, and `addEdge` is called once per consecutive
 * pair of tokens, across line boundaries.
 */
module Construction {
  import opened Text
  import opened Graphs

  /** The tokens of the lines, punctuation turned into spaces, before lowercasing. */
  function RawTokens(lines: seq<string>): seq<string> {
    if lines == [] then [] else Split(Blanked(lines[0])) + RawTokens(lines[1..])
  }

  /** The token list generateGraph feeds to `addEdge`. */
  function GraphWords(lines: seq<string>): seq<string> {
    LowerAll(RawTokens(lines))
  }

  /** Every graph word is a non-empty lowercase word without whitespace or punctuation. */
  lemma {:induction false} GraphWordsShape(lines: seq<string>)
    ensures forall k :: 0 <= k < |GraphWords(lines)| ==>
      var w := GraphWords(lines)[k];
      w != [] && NoWhitespace(w) && NoPunctuation(w) && NoUpper(w)
  {
    RawTokensShape(lines);
    var raw := RawTokens(lines);
    forall k | 0 <= k < |raw|
      ensures var w := Lower(raw[k]); w != [] && NoWhitespace(w) && NoPunctuation(w)
    {
      LowerKeepsClasses(raw[k]);
    }
  }

  lemma {:induction false} RawTokensShape(lines: seq<string>)
    ensures forall k :: 0 <= k < |RawTokens(lines)| ==>
      RawTokens(lines)[k] != [] && NoWhitespace(RawTokens(lines)[k]) && NoPunctuation(RawTokens(lines)[k])
  {
    if lines != [] {
      GraphWordsClean(lines[0]);
      RawTokensShape(lines[1..]);
    }
  }

  /** Lowercasing maps ASCII letters to ASCII letters, so it creates no whitespace or punctuation. */
  lemma LowerKeepsClasses(s: string)
    requires NoWhitespace(s) && NoPunctuation(s)
    ensures NoWhitespace(Lower(s)) && NoPunctuation(Lower(s))
  {
    forall i | 0 <= i < |s| ensures !IsWhitespace(Lower(s)[i]) && !IsPunctuation(Lower(s)[i]) {
      if 'A' <= s[i] <= 'Z' {
        assert 'a' <= Lower(s)[i] <= 'z';
      }
    }
  }

  /** The `addEdge` loop of WordGraph.py:91-92 applied to `g`, from pair `i` on. */
  function BuildFrom(g: GraphData, tokens: seq<string>, i: nat): (r: GraphData)
    requires Indexed(g)
    ensures Indexed(r)
    decreases |tokens| - i
  {
    if i + 1 >= |tokens| then g else BuildFrom(AddEdgeSpec(g, tokens[i], tokens[i + 1]), tokens, i + 1)
  }

  function Build(g: GraphData, tokens: seq<string>): (r: GraphData)
    requires Indexed(g)
    ensures Indexed(r)
  {
    BuildFrom(g, tokens, 0)
  }

  /** The number of positions from `i` on where `a` is immediately followed by `b`. */
  function PairsFrom(tokens: seq<string>, a: string, b: string, i: nat): nat
    decreases |tokens| - i
  {
    if i + 1 >= |tokens| then 0
    else (if tokens[i] == a && tokens[i + 1] == b then 1 else 0) + PairsFrom(tokens, a, b, i + 1)
  }

  function PairCount(tokens: seq<string>, a: string, b: string): nat {
    PairsFrom(tokens, a, b, 0)
  }

  /** Pair `i` is not a self-loop on a word the graph lacks (all later starts already exist). */
  predicate SafeFrom(g: GraphData, tokens: seq<string>, i: nat) {
    i + 1 >= |tokens| || tokens[i] != tokens[i + 1] || tokens[i] in g.vertexDict
  }

  /**
   * Building keeps the graph well-formed, and the weight of every pair `a -> b`
   * grows by exactly the number of times `b` directly follows `a` in the tokens.
   */
  lemma {:induction false} BuildWeight(g: GraphData, tokens: seq<string>, i: nat, a: string, b: string)
    requires WellFormed(g) && SafeFrom(g, tokens, i)
    ensures WellFormed(BuildFrom(g, tokens, i))
    ensures Weight(BuildFrom(g, tokens, i), a, b) == Weight(g, a, b) + PairsFrom(tokens, a, b, i)
    decreases |tokens| - i
  {
    if i + 1 < |tokens| {
      BuildStep(g, tokens, i);
      AddEdgeWeight(g, tokens[i], tokens[i + 1], a, b);
      BuildWeight(AddEdgeSpec(g, tokens[i], tokens[i + 1]), tokens, i + 1, a, b);
    }
  }

  /** Building keeps the graph valid, and existing words keep their indices. */
  lemma {:induction false} BuildValid(g: GraphData, tokens: seq<string>, i: nat)
    requires ValidGraph(g)
    ensures ValidGraph(BuildFrom(g, tokens, i))
    ensures forall w :: w in g.vertexDict ==>
      w in BuildFrom(g, tokens, i).vertexDict && BuildFrom(g, tokens, i).vertexDict[w] == g.vertexDict[w]
    decreases |tokens| - i
  {
    if i + 1 < |tokens| {
      AddEdgeValid(g, tokens[i], tokens[i + 1]);
      BuildValid(AddEdgeSpec(g, tokens[i], tokens[i + 1]), tokens, i + 1);
    }
  }

  /**
   * The vertices after building are the old ones plus every token from `i` on,
   * provided there is at least one pair to add.
   */
  lemma {:induction false} BuildVertices(g: GraphData, tokens: seq<string>, i: nat)
    requires Indexed(g)
    ensures forall w :: w in BuildFrom(g, tokens, i).vertexDict <==>
      w in g.vertexDict || (i + 1 < |tokens| && w in tokens[i..])
    decreases |tokens| - i
  {
    if i + 1 < |tokens| {
      var g' := AddEdgeSpec(g, tokens[i], tokens[i + 1]);
      AddEdgeKeys(g, tokens[i], tokens[i + 1]);
      BuildVertices(g', tokens, i + 1);
      SuffixMembers(tokens, i);
    }
  }

  lemma SuffixMembers(tokens: seq<string>, i: nat)
    requires i + 1 < |tokens|
    ensures forall w :: w in tokens[i..] <==> w == tokens[i] || w in tokens[i + 1..]
    ensures tokens[i + 1] in tokens[i + 1..]
  {
    assert tokens[i..] == [tokens[i]] + tokens[i + 1..];
    assert tokens[i + 1..][0] == tokens[i + 1];
  }

  /** One `addEdge` call of the loop keeps the graph well-formed, and the next call is safe. */
  lemma BuildStep(g: GraphData, tokens: seq<string>, i: nat)
    requires WellFormed(g) && SafeFrom(g, tokens, i) && i + 1 < |tokens|
    ensures WellFormed(AddEdgeSpec(g, tokens[i], tokens[i + 1]))
    ensures SafeFrom(AddEdgeSpec(g, tokens[i], tokens[i + 1]), tokens, i + 1)
  {
    AddEdgeWellFormed(g, tokens[i], tokens[i + 1]);
    AddEdgeKeys(g, tokens[i], tokens[i + 1]);
  }

  /**
   * `s` extended, in order, by every word that directly follows `x` in the
   * tokens from position `i` on and is not yet present.
   */
  function TargetsFrom(s: seq<string>, tokens: seq<string>, x: string, i: nat): seq<string>
    decreases |tokens| - i
  {
    if i + 1 >= |tokens| then s
    else TargetsFrom(if tokens[i] == x then AddNew(s, tokens[i + 1]) else s, tokens, x, i + 1)
  }

  /**
   * After building, the targets of `x`'s edges are its old targets followed by
   * its new successors in the tokens, each once, in order of first occurrence.
   */
  lemma {:induction false} BuildEnds(g: GraphData, tokens: seq<string>, i: nat, x: string)
    requires WellFormed(g) && SafeFrom(g, tokens, i)
    ensures Ends(EdgesOf(BuildFrom(g, tokens, i), x)) == TargetsFrom(Ends(EdgesOf(g, x)), tokens, x, i)
    decreases |tokens| - i
  {
    if i + 1 < |tokens| {
      BuildStep(g, tokens, i);
      AddEdgeEnds(g, tokens[i], tokens[i + 1], x);
      BuildEnds(AddEdgeSpec(g, tokens[i], tokens[i + 1]), tokens, i + 1, x);
    }
  }

  /** In a graph built from scratch, each word's targets are its successors in order of first occurrence. */
  lemma BuildEndsFromEmpty(tokens: seq<string>, x: string)
    requires SafeFrom(Empty, tokens, 0)
    ensures Ends(EdgesOf(Build(Empty, tokens), x)) == TargetsFrom([], tokens, x, 0)
  {
    BuildEnds(Empty, tokens, 0, x);
    assert Ends(EdgesOf(Empty, x)) == [];
  }

  /** The graph of a whole text, built into an empty `Graph`. */
  function TextGraph(lines: seq<string>): GraphData {
    Build(Empty, GraphWords(lines))
  }

  /**
   * generateGraph on a fresh graph: unless the text starts with the same word
   * twice, the graph is well-formed and the weight of `a -> b` is the number of
   * times `b` directly follows `a` in the text.
   */
  lemma TextGraphWeight(lines: seq<string>, a: string, b: string)
    requires SafeFrom(Empty, GraphWords(lines), 0)
    ensures WellFormed(TextGraph(lines))
    ensures Weight(TextGraph(lines), a, b) == PairCount(GraphWords(lines), a, b)
  {
    BuildWeight(Empty, GraphWords(lines), 0, a, b);
  }

  /**
   * The text `a a b` opens with a self-loop on a new word: `b` then shares the
   * index of `a`'s list, so the lookup reports the edge `a -> b` as `b`'s own
   * and loses the edge `a -> a` altogether.
   */
  lemma RepeatedFirstWord()
    ensures var g := Build(Empty, ["a", "a", "b"]);
      && !WellFormed(g)
      && Weight(g, "a", "a") == 0 && PairCount(["a", "a", "b"], "a", "a") == 1
      && EdgeListOf(g, "b") == Some([Edge("a", "b", 1)])
  {
    var r := AddEdgeSpec(Empty, "a", "a");
    assert r.vertexDict == map["a" := 1] by {
      assert map["a" := 0]["a" := 1] == map["a" := 1];
    }
    assert r.edgeList == [[Edge("a", "a", 1)], []] by {
      assert InsertIntoList([], "a", "a") == [Edge("a", "a", 1)];
    }
    assert "a" != "b";
    var h := AddEdgeSpec(r, "a", "b");
    assert h.vertexDict == map["a" := 1, "b" := 1];
    assert h.edgeList == [[Edge("a", "a", 1)], [Edge("a", "b", 1)], []] by {
      assert InsertIntoList([], "a", "b") == [Edge("a", "b", 1)];
    }
    assert Build(Empty, ["a", "a", "b"]) == h;
  }
}
