/**
 * The `WordGraph` object (WordGraph.py:70-92): it owns one `Graph` and fills it
 * from the lines of a text with `generateGraph`.
 */
module WordGraphs {
  import opened Text
  import opened Graphs
  import opened Construction

  class WordGraph {
    var graph: Graph

    /** The graph is in a state that `addEdge` produces. */
    ghost predicate Valid()
      reads this, graph
    {
      graph.Valid()
    }

    /** `WordGraph()`: a fresh, empty graph. */
    constructor ()
      ensures fresh(graph) && graph.Data() == Empty && WellFormed(graph.Data()) && Valid()
    {
      graph := new Graph();
    }

    /**
     * `generateGraph` on the lines of the file: every line is blanked of
     * punctuation and split, the tokens of all lines are concatenated and
     * lowercased, and each consecutive pair becomes an `addEdge` call.
     */
    method GenerateGraph(lines: seq<string>)
      requires Valid()
      modifies graph
      ensures Valid() && graph.Data() == Build(old(graph.Data()), GraphWords(lines))
    {
      var tokens := TextTokens(lines);
      ghost var g0 := graph.Data();
      var pairs := if |tokens| == 0 then 0 else |tokens| - 1;
      for i := 0 to pairs
        invariant graph.Valid()
        invariant BuildFrom(graph.Data(), tokens, i) == Build(g0, tokens)
      {
        graph.AddEdge(tokens[i], tokens[i + 1]);
      }
    }
  }

  /** The token loop of WordGraph.py:78-88: blank, split and concatenate the lines, then lowercase. */
  method TextTokens(lines: seq<string>) returns (tokens: seq<string>)
    ensures tokens == GraphWords(lines)
  {
    tokens := [];
    for i := 0 to |lines|
      invariant tokens == RawTokens(lines[..i])
    {
      var blanked := BlankPunctuation(lines[i]);
      tokens := tokens + Split(blanked);
      RawTokensSnoc(lines[..i], lines[i]);
      assert lines[..i + 1] == lines[..i] + [lines[i]];
    }
    assert lines[..|lines|] == lines;
    tokens := LowerTokens(tokens);
  }

  /** The tokens of one more line follow those of the lines before it. */
  lemma {:induction false} RawTokensSnoc(lines: seq<string>, line: string)
    ensures RawTokens(lines + [line]) == RawTokens(lines) + Split(Blanked(line))
  {
    if lines == [] {
      assert RawTokens([line]) == Split(Blanked(line)) + RawTokens([]);
    } else {
      assert (lines + [line])[1..] == lines[1..] + [line];
      RawTokensSnoc(lines[1..], line);
    }
  }
}
