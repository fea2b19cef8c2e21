/**
 * `WordGraph.generateNewText` (WordGraph.py:137-162): the line is padded so that
 * every punctuation character starts a token, split and lowercased; then, for
 * each pair position of the ORIGINAL token count, the bridge words of the pair
 * currently at that position are spliced in after its first word, and the
 * final tokens are joined, each followed by one space.
 */
module Augment {
  import opened Text
  import opened Graphs
  import opened Bridges
  import opened Construction

  /** The tokens of the line before any bridge word is inserted (WordGraph.py:140-148). */
  function InputTokens(line: string): seq<string> {
    LowerAll(Split(PadPunctuation(line)))
  }

  /** `range(len(tokens) - 1)`: the number of loop iterations, fixed before the loop. */
  function PairPositions(tokens: seq<string>): nat {
    if |tokens| == 0 then 0 else |tokens| - 1
  }

  /**
   * One iteration (WordGraph.py:152-155) at position `i`: the bridge words of
   * the pair `tokens[i], tokens[i + 1]`, if any, are inserted after `tokens[i]`.
   */
  function Step(g: GraphData, tokens: seq<string>, i: nat): (r: seq<string>)
    requires Indexed(g) && i + 1 < |tokens|
    ensures |tokens| <= |r|
  {
    match BridgeSpec(g, tokens[i], tokens[i + 1])
    case Bridges(ws) => tokens[..i + 1] + ws + tokens[i + 1..]
    case _ => tokens
  }

  /** The iterations at positions `i` up to `stop - 1`, on the list as it changes. */
  function AugmentFrom(g: GraphData, tokens: seq<string>, i: nat, stop: nat): (r: seq<string>)
    requires Indexed(g) && stop <= PairPositions(tokens)
    ensures |tokens| <= |r|
    decreases stop - i
  {
    if i >= stop then tokens
    else
      var next := Step(g, tokens, i);
      AugmentFrom(g, next, i + 1, stop)
  }

  /** The final token list of `generateNewText`. */
  function NewTextTokens(g: GraphData, line: string): seq<string>
    requires Indexed(g)
  {
    var tokens := InputTokens(line);
    AugmentFrom(g, tokens, 0, PairPositions(tokens))
  }

  /** Every token followed by a single space (WordGraph.py:158-160). */
  function JoinSpaced(tokens: seq<string>): string {
    if tokens == [] then [] else tokens[0] + " " + JoinSpaced(tokens[1..])
  }

  /** The string `generateNewText` returns. */
  function NewText(g: GraphData, line: string): string
    requires Indexed(g)
  {
    JoinSpaced(NewTextTokens(g, line))
  }

  /** Only a `Bridges` result inserts anything; the sentinels -1, -2 and -3 leave the list alone. */
  lemma {:induction false} NoBridgeKeepsTokens(g: GraphData, tokens: seq<string>, i: nat, stop: nat)
    requires Indexed(g) && stop <= PairPositions(tokens)
    requires forall k :: i <= k < stop ==> !BridgeSpec(g, tokens[k], tokens[k + 1]).Bridges?
    ensures AugmentFrom(g, tokens, i, stop) == tokens
    decreases stop - i
  {
    if i < stop {
      NoBridgeKeepsTokens(g, tokens, i + 1, stop);
    }
  }

  /**
   * When no pair of the input yields bridge words, the new text's tokens are the
   * lowercased input tokens, each punctuation character starting its own token.
   */
  lemma NewTextWithoutBridges(g: GraphData, line: string)
    requires Indexed(g)
    requires var t := InputTokens(line);
      forall k :: 0 <= k < PairPositions(t) ==> !BridgeSpec(g, t[k], t[k + 1]).Bridges?
    ensures NewTextTokens(g, line) == InputTokens(line)
  {
    NoBridgeKeepsTokens(g, InputTokens(line), 0, PairPositions(InputTokens(line)));
  }

  /** Insertion never removes a token: the input tokens are all still there. */
  lemma {:induction false} AugmentKeepsTokens(g: GraphData, tokens: seq<string>, i: nat, stop: nat)
    requires Indexed(g) && stop <= PairPositions(tokens)
    ensures multiset(tokens) <= multiset(AugmentFrom(g, tokens, i, stop))
    decreases stop - i
  {
    if i < stop {
      StepKeepsTokens(g, tokens, i);
      AugmentKeepsTokens(g, Step(g, tokens, i), i + 1, stop);
    }
  }

  lemma StepKeepsTokens(g: GraphData, tokens: seq<string>, i: nat)
    requires Indexed(g) && i + 1 < |tokens|
    ensures multiset(tokens) <= multiset(Step(g, tokens, i))
  {
    if BridgeSpec(g, tokens[i], tokens[i + 1]).Bridges? {
      var ws := BridgeSpec(g, tokens[i], tokens[i + 1]).words;
      assert tokens == tokens[..i + 1] + tokens[i + 1..];
      assert multiset(Step(g, tokens, i)) == multiset(tokens) + multiset(ws);
    }
  }

  /** `f` maps each position of `a` to a position of `b` holding the same token, in increasing order. */
  ghost predicate Embedding(f: seq<int>, a: seq<string>, b: seq<string>) {
    && |f| == |a|
    && (forall k :: 0 <= k < |f| ==> 0 <= f[k] < |b| && b[f[k]] == a[k])
    && (forall j, k :: 0 <= j < k < |f| ==> f[j] < f[k])
  }

  /** `a` is `b` with some tokens removed: the same tokens in the same order. */
  ghost predicate Subsequence(a: seq<string>, b: seq<string>) {
    exists f :: Embedding(f, a, b)
  }

  /** The splice keeps every input token, in order: the input is a subsequence of the output. */
  lemma {:induction false} AugmentKeepsOrder(g: GraphData, tokens: seq<string>, i: nat, stop: nat)
    requires Indexed(g) && stop <= PairPositions(tokens)
    ensures Subsequence(tokens, AugmentFrom(g, tokens, i, stop))
    decreases stop - i
  {
    if i < stop {
      var next := Step(g, tokens, i);
      AugmentKeepsOrder(g, next, i + 1, stop);
      StepKeepsOrder(g, tokens, i, AugmentFrom(g, next, i + 1, stop));
    } else {
      SubsequenceRefl(tokens);
    }
  }

  lemma SubsequenceRefl(a: seq<string>)
    ensures Subsequence(a, a)
  {
    var id := seq(|a|, k => k);
    assert Embedding(id, a, a);
  }

  /** One iteration keeps the tokens in order, and so does everything after it. */
  lemma StepKeepsOrder(g: GraphData, tokens: seq<string>, i: nat, out: seq<string>)
    requires Indexed(g) && i + 1 < |tokens|
    requires Subsequence(Step(g, tokens, i), out)
    ensures Subsequence(tokens, out)
  {
    StepOrder(g, tokens, i);
    SubsequenceTrans(tokens, Step(g, tokens, i), out);
  }

  lemma StepOrder(g: GraphData, tokens: seq<string>, i: nat)
    requires Indexed(g) && i + 1 < |tokens|
    ensures Subsequence(tokens, Step(g, tokens, i))
  {
    var r := Step(g, tokens, i);
    var n := |r| - |tokens|;
    var f := seq(|tokens|, k => if k <= i then k else k + n);
    if BridgeSpec(g, tokens[i], tokens[i + 1]).Bridges? {
      var ws := BridgeSpec(g, tokens[i], tokens[i + 1]).words;
      assert r == tokens[..i + 1] + ws + tokens[i + 1..];
      assert n == |ws|;
      forall k | 0 <= k < |f| ensures 0 <= f[k] < |r| && r[f[k]] == tokens[k] {
        if k > i {
          assert r[k + n] == tokens[i + 1..][k - i - 1];
        }
      }
    }
    assert Embedding(f, tokens, r);
  }

  lemma SubsequenceTrans(a: seq<string>, b: seq<string>, c: seq<string>)
    requires Subsequence(a, b) && Subsequence(b, c)
    ensures Subsequence(a, c)
  {
    var f :| Embedding(f, a, b);
    var h :| Embedding(h, b, c);
    var fh := seq(|f|, k requires 0 <= k < |f| => h[f[k]]);
    assert Embedding(fh, a, c);
  }

  /** A token `split` gives back: non-empty and free of whitespace. */
  predicate Word(w: string) {
    w != [] && NoWhitespace(w)
  }

  /** Splitting the joined tokens gives the tokens back. */
  lemma {:induction false} SplitJoinSpaced(tokens: seq<string>)
    requires forall k :: 0 <= k < |tokens| ==> Word(tokens[k])
    ensures Split(JoinSpaced(tokens)) == tokens
  {
    if tokens != [] {
      var w := tokens[0];
      var rest := JoinSpaced(tokens[1..]);
      SplitJoinSpaced(tokens[1..]);
      SplitWordSpace(w, rest);
      assert w + " " + rest == w + (" " + rest);
    }
  }

  /** `split` peels one word off a word followed by a space. */
  lemma SplitWordSpace(w: string, rest: string)
    requires Word(w)
    ensures Split(w + (" " + rest)) == [w] + Split(rest)
  {
    var s := w + (" " + rest);
    WordLengthOf(w, " " + rest);
    assert s[..|w|] == w;
    assert s[|w|..] == " " + rest;
    assert (" " + rest)[1..] == rest;
  }

  lemma {:induction false} WordLengthOf(w: string, rest: string)
    requires NoWhitespace(w) && rest != [] && IsWhitespace(rest[0])
    ensures WordLength(w + rest) == |w|
  {
    if w != [] {
      assert (w + rest)[1..] == w[1..] + rest;
      WordLengthOf(w[1..], rest);
    } else {
      assert w + rest == rest;
    }
  }

  /** Lowercasing keeps a word a word. */
  lemma LowerWord(w: string)
    requires Word(w)
    ensures Word(Lower(w))
  {
    forall i | 0 <= i < |w| ensures !IsWhitespace(Lower(w)[i]) {
      if 'A' <= w[i] <= 'Z' {
        assert 'a' <= Lower(w)[i] <= 'z';
      }
    }
  }

  lemma InputWords(line: string)
    ensures forall k :: 0 <= k < |InputTokens(line)| ==> Word(InputTokens(line)[k])
  {
    var raw := Split(PadPunctuation(line));
    forall k | 0 <= k < |raw| ensures Word(Lower(raw[k])) {
      LowerWord(raw[k]);
    }
  }

  /** Every bridge word is a word of the graph. */
  lemma BridgeWordsInGraph(g: GraphData, a: string, b: string)
    requires ValidGraph(g) && BridgeSpec(g, a, b).Bridges?
    ensures forall w :: w in BridgeSpec(g, a, b).words ==> w in g.vertexDict
  {
    BridgeSpecCorrect(g, a, b);
    var w1 := Lower(a);
    forall w | w in BridgeSpec(g, a, b).words ensures w in g.vertexDict {
      assert Successor(g, w1, w);
      var j := FindEnd(EdgesOf(g, w1), w).value;
      EdgesOfValid(g, w1);
      assert EdgesOf(g, w1)[j].end == w;
    }
  }

  /** With graph words that are words, augmenting keeps every token a word. */
  lemma {:induction false} AugmentWords(g: GraphData, tokens: seq<string>, i: nat, stop: nat)
    requires ValidGraph(g) && stop <= PairPositions(tokens)
    requires forall w :: w in g.vertexDict ==> Word(w)
    requires forall k :: 0 <= k < |tokens| ==> Word(tokens[k])
    ensures forall k :: 0 <= k < |AugmentFrom(g, tokens, i, stop)| ==> Word(AugmentFrom(g, tokens, i, stop)[k])
    decreases stop - i
  {
    if i < stop {
      StepWords(g, tokens, i);
      AugmentWords(g, Step(g, tokens, i), i + 1, stop);
    }
  }

  lemma StepWords(g: GraphData, tokens: seq<string>, i: nat)
    requires ValidGraph(g) && i + 1 < |tokens|
    requires forall w :: w in g.vertexDict ==> Word(w)
    requires forall k :: 0 <= k < |tokens| ==> Word(tokens[k])
    ensures forall k :: 0 <= k < |Step(g, tokens, i)| ==> Word(Step(g, tokens, i)[k])
  {
    var next := Step(g, tokens, i);
    if BridgeSpec(g, tokens[i], tokens[i + 1]).Bridges? {
      BridgeWordsInGraph(g, tokens[i], tokens[i + 1]);
      var ws := BridgeSpec(g, tokens[i], tokens[i + 1]).words;
      forall k | 0 <= k < |next| ensures Word(next[k]) {
        if k <= i {
          assert next[k] == tokens[k];
        } else if k < i + 1 + |ws| {
          assert next[k] == ws[k - i - 1];
          assert ws[k - i - 1] in ws;
        } else {
          assert next[k] == tokens[k - |ws|];
        }
      }
    }
  }

  /**
   * On a graph whose words are words (as generateGraph builds them), splitting
   * the new text gives back exactly its final tokens.
   */
  lemma NewTextSplits(g: GraphData, line: string)
    requires ValidGraph(g)
    requires forall w :: w in g.vertexDict ==> Word(w)
    ensures Split(NewText(g, line)) == NewTextTokens(g, line)
  {
    var t := InputTokens(line);
    InputWords(line);
    AugmentWords(g, t, 0, PairPositions(t));
    SplitJoinSpaced(NewTextTokens(g, line));
  }

  /**
   * Padding puts a space only in front of a punctuation character: in `A, b`
   * and `a.` the punctuation becomes a token of its own, because a space or the
   * end of the line follows it, but in `a,b` the comma stays glued to the word
   * after it.
   */
  lemma PunctuationTokens(line1: string, line2: string, line3: string)
    requires line1 == "A, b" && line2 == "a,b" && line3 == "a."
    ensures InputTokens(line1) == ["a", ",", "b"]
    ensures InputTokens(line2) == ["a", ",b"]
    ensures InputTokens(line3) == ["a", "."]
  {
    SpacedTokens(line1);
    assert line2 == "a" + [','] + "b";
    GluedTokens("a", ',', "b");
    assert [','] + "b" == ",b";
    assert line3 == "a" + ['.'] + "";
    GluedTokens("a", '.', "");
    assert ['.'] + "" == ".";
  }

  lemma SpacedTokens(line: string)
    requires line == "A, b"
    ensures InputTokens(line) == ["a", ",", "b"]
  {
    assert line == "A" + [','] + " b";
    PaddedOnce("A", ',', " b");
    SplitSpaced(PadPunctuation(line));
    var raw := ["A", ",", "b"];
    assert Lower("A") == "a";
    LowerUnchanged(",");
    LowerUnchanged("b");
    assert LowerAll(raw) == [Lower(raw[0]), Lower(raw[1]), Lower(raw[2])];
  }

  lemma SplitSpaced(s: string)
    requires s == "A" + [' ', ','] + " b"
    ensures Split(s) == ["A", ",", "b"]
  {
    assert s == "A" + (" " + ", b");
    SplitWordSpace("A", ", b");
    assert ", b" == "," + " " + "b";
    SplitTwo(",", "b");
  }

  /**
   * A lowercase word, one punctuation character and then lowercase text without
   * whitespace or punctuation: the punctuation is split off the word before it
   * and stays glued to the text after it (a token of its own when that text is empty).
   */
  lemma GluedTokens(w: string, p: char, rest: string)
    requires Word(w) && NoUpper(w) && NoPunctuation(w)
    requires IsPunctuation(p) && NoPunctuation(rest) && NoWhitespace(rest) && NoUpper(rest)
    ensures InputTokens(w + [p] + rest) == [w, [p] + rest]
  {
    PaddedOnce(w, p, rest);
    var glued := [p] + rest;
    assert w + [' ', p] + rest == w + " " + glued;
    assert Word(glued) && NoUpper(glued) by {
      forall i | 0 < i < |glued| ensures glued[i] == rest[i - 1] {
      }
    }
    SplitTwo(w, glued);
    LowerUnchanged(w);
    LowerUnchanged(glued);
    assert LowerAll([w, glued]) == [Lower(w), Lower(glued)];
  }

  /** A line with one punctuation character gets one space in front of it. */
  lemma PaddedOnce(a: string, p: char, b: string)
    requires NoPunctuation(a) && NoPunctuation(b) && IsPunctuation(p)
    ensures PadPunctuation(a + [p] + b) == a + [' ', p] + b
  {
    var line := a + [p] + b;
    PadFromSkip(line, line, 0, |a|);
    var r := Replace(line, p, [' ', p]);
    assert PadFrom(line, line, |a|) == PadFrom(line, r, |a| + 1);
    assert p !in a;
    assert line == a + ([p] + b);
    ReplaceSplit(a, [p] + b, p, [' ', p]);
    assert ([p] + b)[1..] == b;
    ReplaceAbsent(b, p, [' ', p]);
    PadFromSkip(line, r, |a| + 1, |line|);
  }

  /** Two words separated by one space split into the two words. */
  lemma SplitTwo(w: string, v: string)
    requires Word(w) && Word(v)
    ensures Split(w + " " + v) == [w, v]
  {
    assert w + " " + v == w + (" " + v);
    SplitWordSpace(w, v);
    SplitWord(v);
  }

  /** Characters that are not punctuation leave the padded line as it is. */
  lemma {:induction false} PadFromSkip(line: string, cur: string, k: nat, k': nat)
    requires k <= k' <= |line|
    requires forall j :: k <= j < k' ==> !IsPunctuation(line[j])
    ensures PadFrom(line, cur, k) == PadFrom(line, cur, k')
    decreases k' - k
  {
    if k < k' {
      PadFromSkip(line, cur, k + 1, k');
    }
  }

  lemma {:induction false} ReplaceSplit(a: string, b: string, p: char, rep: string)
    requires p !in a
    requires b != [] && b[0] == p
    ensures Replace(a + b, p, rep) == a + rep + Replace(b[1..], p, rep)
  {
    if a == [] {
      assert a + b == b;
    } else {
      assert (a + b)[1..] == a[1..] + b;
      ReplaceSplit(a[1..], b, p, rep);
    }
  }

  lemma {:induction false} ReplaceAbsent(s: string, p: char, rep: string)
    requires p !in s
    ensures Replace(s, p, rep) == s
  {
    if s != [] {
      ReplaceAbsent(s[1..], p, rep);
    }
  }

  /** A single word splits into itself. */
  lemma SplitWord(w: string)
    requires Word(w)
    ensures Split(w) == [w]
  {
    WordLengthAll(w);
    assert w[..|w|] == w;
    assert w[|w|..] == [];
  }

  lemma {:induction false} WordLengthAll(w: string)
    requires NoWhitespace(w)
    ensures WordLength(w) == |w|
  {
    if w != [] {
      WordLengthAll(w[1..]);
    }
  }

  lemma LowerUnchanged(s: string)
    requires NoUpper(s)
    ensures Lower(s) == s
  {
  }
  /** A text whose graph has the edges `a -> b`, `b -> c`, `c -> d` and `d -> c`. */
  const DriftText: seq<string> := ["a", "b", "c", "d", "c"]

  /**
   * The loop bound is fixed before any insertion: for the tokens `a c c` the
   * bridge word `b` goes in after `a`, the two iterations then look at `a c`
   * and `b c`, and the pair `c c`, whose bridge word is `d`, is never examined.
   */
  lemma IndexDrift(t: seq<string>, g: GraphData, tokens: seq<string>)
    requires t == DriftText && g == Build(Empty, t) && tokens == ["a", "c", "c"]
    ensures BridgeSpec(g, tokens[1], tokens[2]) == Bridges(["d"])
    ensures AugmentFrom(g, tokens, 0, PairPositions(tokens)) == ["a", "b", "c", "c"]
  {
    DriftGraph(t, g);
    DriftBridge(g, "a", "c", "b");
    DriftBridge(g, "c", "c", "d");
    DriftNoBridge(g);
    DriftSteps(g, tokens);
  }

  /** The two iterations on `a c c`, given the bridge words of the pairs they look at. */
  lemma DriftSteps(g: GraphData, tokens: seq<string>)
    requires Indexed(g) && tokens == ["a", "c", "c"]
    requires BridgeSpec(g, "a", "c") == Bridges(["b"]) && BridgeSpec(g, "b", "c") == NoBridge
    ensures AugmentFrom(g, tokens, 0, PairPositions(tokens)) == ["a", "b", "c", "c"]
  {
    assert PairPositions(tokens) == 2;
    var next := Step(g, tokens, 0);
    assert next == tokens[..1] + ["b"] + tokens[1..] == ["a", "b", "c", "c"];
    assert Step(g, next, 1) == next;
    assert AugmentFrom(g, tokens, 0, 2) == AugmentFrom(g, next, 1, 2);
    assert AugmentFrom(g, next, 1, 2) == AugmentFrom(g, next, 2, 2);
  }

  /** A pair `w1 w2` whose only bridge word is `w3`, the one target of `w1`. */
  lemma DriftBridge(g: GraphData, w1: string, w2: string, w3: string)
    requires Indexed(g) && |w1| == 1 && |w2| == 1 && 'a' <= w1[0] <= 'z' && 'a' <= w2[0] <= 'z'
    requires w1 in g.vertexDict && w2 in g.vertexDict
    requires Ends(EdgesOf(g, w1)) == [w3] && Ends(EdgesOf(g, w3)) == [w2]
    ensures BridgeSpec(g, w1, w2) == Bridges([w3])
  {
    LowerOneChar(w1);
    LowerOneChar(w2);
    HitsOf1(w2, w3, w2);
    assert [w3][..0] == [];
    assert BridgesVia(g, [w3], w2) == BridgesVia(g, [], w2) + Hits(Ends(EdgesOf(g, w3)), w3, w2);
  }

  lemma DriftNoBridge(g: GraphData)
    requires Indexed(g) && "b" in g.vertexDict && "c" in g.vertexDict
    requires Ends(EdgesOf(g, "b")) == ["c"] && Ends(EdgesOf(g, "c")) == ["d"]
    ensures BridgeSpec(g, "b", "c") == NoBridge
  {
    LowerOneChar("b");
    LowerOneChar("c");
    HitsOf1("d", "c", "c");
    assert ["c"][..0] == [];
    assert BridgesVia(g, ["c"], "c") == BridgesVia(g, [], "c") + Hits(Ends(EdgesOf(g, "c")), "c", "c");
  }

  /** The targets and words of the graph of `DriftText`. */
  lemma DriftGraph(t: seq<string>, g: GraphData)
    requires t == DriftText && g == Build(Empty, t)
    ensures Ends(EdgesOf(g, "a")) == ["b"] && Ends(EdgesOf(g, "b")) == ["c"]
    ensures Ends(EdgesOf(g, "c")) == ["d"] && Ends(EdgesOf(g, "d")) == ["c"]
    ensures "a" in g.vertexDict && "b" in g.vertexDict && "c" in g.vertexDict
  {
    DriftSafe(t);
    DriftTargetsAB(t);
    BuildEndsFromEmpty(t, "a");
    BuildEndsFromEmpty(t, "b");
    DriftTargetsCD(t);
    BuildEndsFromEmpty(t, "c");
    BuildEndsFromEmpty(t, "d");
    BuildVertices(Empty, t, 0);
    DriftWords(t);
  }

  lemma DriftSafe(t: seq<string>)
    requires t == DriftText
    ensures SafeFrom(Empty, t, 0)
  {
  }

  lemma DriftWords(t: seq<string>)
    requires t == DriftText
    ensures t[0..] == t && "a" in t && "b" in t && "c" in t
  {
  }

  lemma DriftTargetsAB(t: seq<string>)
    requires t == DriftText
    ensures TargetsFrom([], t, "a", 0) == ["b"] && TargetsFrom([], t, "b", 0) == ["c"]
  {
  }

  lemma DriftTargetsCD(t: seq<string>)
    requires t == DriftText
    ensures TargetsFrom([], t, "c", 0) == ["d"] && TargetsFrom([], t, "d", 0) == ["c"]
  {
  }

  /**
   * `generateNewText(line)` as the source runs it: pad and split the line,
   * lowercase the tokens, splice in the bridge words of each of the original
   * number of pair positions, and join the tokens with a space after each.
   */
  method GenerateNewText(g: GraphData, line: string) returns (sentence: string)
    requires ValidGraph(g)
    ensures sentence == NewText(g, line)
  {
    var padded := PadPunctuationLoop(line);
    var tokens := LowerTokens(Split(padded));
    var stop := if |tokens| == 0 then 0 else |tokens| - 1;
    tokens := SpliceBridges(g, tokens, stop);
    sentence := JoinTokens(tokens);
  }

  /** The loop of WordGraph.py:151-155 over the original `stop` pair positions. */
  method SpliceBridges(g: GraphData, input: seq<string>, stop: nat) returns (tokens: seq<string>)
    requires ValidGraph(g) && stop <= PairPositions(input)
    ensures tokens == AugmentFrom(g, input, 0, stop)
  {
    tokens := input;
    for i := 0 to stop
      invariant stop <= PairPositions(tokens)
      invariant AugmentFrom(g, tokens, i, stop) == AugmentFrom(g, input, 0, stop)
    {
      var found := QueryBridgeWords(g, tokens[i], tokens[i + 1]);
      if found.Bridges? {
        tokens := InsertAfter(tokens, i, found.words);
      }
    }
  }

  /** The join of WordGraph.py:158-160: every token followed by one space. */
  method JoinTokens(tokens: seq<string>) returns (sentence: string)
    ensures sentence == JoinSpaced(tokens)
  {
    sentence := "";
    for k := 0 to |tokens|
      invariant sentence + JoinSpaced(tokens[k..]) == JoinSpaced(tokens)
    {
      assert tokens[k..][1..] == tokens[k + 1..];
      sentence := sentence + tokens[k] + " ";
    }
  }

  /** The insertions of WordGraph.py:154-155: `ws[j]` goes to position `i + j + 1`, for each `j` in turn. */
  method InsertAfter(tokens: seq<string>, i: nat, ws: seq<string>) returns (r: seq<string>)
    requires i < |tokens|
    ensures r == tokens[..i + 1] + ws + tokens[i + 1..]
  {
    r := tokens;
    for j := 0 to |ws|
      invariant r == tokens[..i + 1] + ws[..j] + tokens[i + 1..]
    {
      r := r[..i + j + 1] + [ws[j]] + r[i + j + 1..];
      assert ws[..j + 1] == ws[..j] + [ws[j]];
    }
    assert ws[..|ws|] == ws;
  }
}
