# WordGraph in Dafny

A verified model of the core of `WordGraph.py`. That program builds a directed,
weighted word-adjacency graph from a text and answers four queries over it:
- bridge words between two words;
- a new text with bridge words spliced in;
- shortest-path distances (Dijkstra);
- a random walk.

The model follows the Python code branch for branch. It proves what each
operation computes and the invariants the graph keeps.

Files, one module each:

| file | module | models |
|---|---|---|
| `text.dfy` | `Text` | `str.lower`, `str.split`, `str.replace` and the two punctuation loops |
| `graph.dfy` | `Graphs` | `Edge`, the `Graph` class (`addEdge`, `getEdgeList`) as a Dafny class over a value `GraphData`, and the invariants |
| `build.dfy` | `Construction` | the token and `addEdge` passes of `generateGraph` as functions, with edge-weight counting |
| `wordgraph.dfy` | `WordGraphs` | the `WordGraph` class: constructor and `generateGraph` |
| `bridge.dfy` | `Bridges` | `queryBridgeWords` |
| `augment.dfy` | `Augment` | `generateNewText` |
| `paths.dfy` | `ShortestPaths` | `calcShortestPath` |
| `walk.dfy` | `Walks` | `randomWalk` |

## How the model is built

**The graph.** `vertex_dict` and `edge_list` are the fields of the class
`Graphs.Graph`:
- `vertexDict: map<string, nat>`;
- `edgeList: seq<seq<Edge>>`.

`Edge` is a value. Python's in-place `edge.weight += 1` becomes a
reassignment of that list slot.

Every mutating method states its new state as a function of the old state:
`Data() == AddEdgeSpec(old(Data()), start, end)`. The lemmas are then proved
about `AddEdgeSpec`.

Two invariants are kept:
- `ValidGraph`: indices address existing lists, each list holds one edge per
  target, weights are at least 1, and every target is a vertex. Every reachable
  state satisfies it.
- `WellFormed`: indices form a bijection with the lists, and every edge is filed
  under its own start word.

**The loops.** They are Dafny loops with invariants, each proved against a
specification function on values:

| method | specification function |
|---|---|
| `WordGraphs.TextTokens` | `GraphWords` |
| `WordGraph.GenerateGraph` | `Build` |
| `Bridges.QueryBridgeWords` | `BridgeSpec` |
| `Augment.GenerateNewText` | `NewText` |

The properties are proved as lemmas about those functions.
- `BridgeSpec` is compared with an independent reference, `Filter`.
- `ShortestPaths.ShortestFrom` is proved directly against the mathematical
  definition of a shortest distance, over all paths.
- `Walks.RandomWalk` is characterised step by step by the predicates `Follows`
  and `Stopped`.

The read-only queries take the graph's state `Data()` as a value. That is all
they use of the object.

**Where the code and the description of the system differ, the model follows
the code:**
- **The self-loop defect in `addEdge`.** Both endpoints are looked up before
  either is inserted (WordGraph.py:40-41). So `addEdge(w, w)` for a new word
  gives `w` two indices and leaves an orphaned list.
  - `Graphs.SelfLoopOnNewWord` shows this for any well-formed graph and new word;
    `Graphs.SelfLoopSharesIndex` and `Construction.RepeatedFirstWord` show what follows.
  - `WellFormed` is preserved only when `start != end` or `start` is already
    present.
  - In `generateGraph` only the first pair of a text can hit this case.
- **Punctuation in `generateNewText`.** The code puts a space *before* each
  punctuation character, not around it. So `"a,b"` yields the tokens
  `["a", ",b"]`, not three tokens. A punctuation character is a token of its own
  only when whitespace, another punctuation character or the end of the line
  follows it (`Augment.PunctuationTokens`).
- **Index drift in `generateNewText`.** The loop bound is fixed on the original
  token count, but each pair is read from the list as insertions change it.
  Tail pairs of the input can therefore go unexamined (`Augment.IndexDrift`).
- **No separate "unreachable" value in `calcShortestPath`.** Unreachable words
  get the number `1e9`, modelled as `INF`.
- **Edge identity in `randomWalk`.** The repeated-edge check compares edge
  objects. The model names an object by its list and position (`Walks.Slot`).

## Model

| member | source | states |
|---|---|---|
| Text.Lower | WordGraph.py:87-88 | lowercasing keeps the length, leaves no ASCII capital, and changes no character that is not an ASCII capital |
| Text.LowerIdempotent | WordGraph.py:116-117 | lowercasing an already lowercased word changes nothing, so `queryBridgeWords` sees `generateNewText`'s tokens unchanged |
| Text.LowerTokens | WordGraph.py:87-88 | the in-place loop leaves every token lowercased, position by position |
| Text.Split | WordGraph.py:84 | `split()` yields non-empty tokens without whitespace that together spell exactly the non-whitespace characters of the line |
| Text.BlankPunctuation | WordGraph.py:80-83 | the loop over the original line's characters turns every punctuation character into a space and leaves the rest |
| Text.Blanked | WordGraph.py:80-83 | the blanked line has the same length and no punctuation |
| Text.PadPunctuationLoop | WordGraph.py:140-143 | the loop over the original line's characters computes the padded line `PadPunctuation` |
| Text.PadPunctuationSpec | WordGraph.py:140-144 | padding keeps the non-space characters and puts a space in front of every punctuation character, including one that began the line |
| Graphs.EdgeListOf | WordGraph.py:59-67 | `getEdgeList` returns `None` exactly for a word that is not a key, otherwise that word's list, which may be empty |
| Graphs.FindEnd | WordGraph.py:52-55 | the search finds the first edge of the list towards `end`, or reports that none exists |
| Graphs.FindEdge | WordGraph.py:52-55 | the search loop returns the position `FindEnd` specifies |
| Graphs.Bump | WordGraph.py:54 | `edge.weight += 1` keeps the endpoints and adds one to the weight |
| Graphs.InsertIntoList | WordGraph.py:52-57 | adding to an adjacency list keeps every existing edge's endpoints and appends at most one edge, `Edge(start, end, 1)` |
| Graphs.Graph.constructor | WordGraph.py:34-36 | a new graph is empty and well-formed |
| Graphs.Graph.AddEdge | WordGraph.py:38-57 | `addEdge` moves the graph to `AddEdgeSpec` of its old state and keeps it valid |
| Graphs.Graph.NewVertex | WordGraph.py:43-50 | a new vertex gets index `len(vertex_dict)` and one new empty list |
| Graphs.Graph.FileEdge | WordGraph.py:52-57 | the existing edge `start -> end` is bumped, or a new one is appended, in list `v` only |
| Graphs.Graph.GetEdgeList | WordGraph.py:59-67 | the object lookup agrees with `EdgeListOf` on the graph's state |
| Graphs.AddEdgeValid | WordGraph.py:38-57 | `addEdge` keeps the graph valid, adds exactly its two words as vertices and keeps every existing word's index |
| Graphs.AddEdgeKeys | WordGraph.py:40-50 | after `addEdge` the words are the old words plus `start` and `end` |
| Graphs.AddEdgeIndices | WordGraph.py:40-50 | a first-seen `start` gets index `len(vertex_dict)`, and a first-seen `end` the next one |
| Graphs.AddEdgeNewStart | WordGraph.py:43-57 | in a well-formed graph, a new start word (other than the end word) ends up with exactly the edge `Edge(start, end, 1)` |
| Graphs.AddEdgeWellFormed | WordGraph.py:40-57 | with `start != end` or `start` present, `addEdge` keeps indices a bijection with the lists |
| Graphs.AddEdgeWeight | WordGraph.py:52-57 | `addEdge(start, end)` raises the weight of `start -> end` by one and changes no other weight |
| Graphs.AddEdgeEnds | WordGraph.py:52-57 | `end` is appended to `start`'s targets when the edge is new; no other target list and no order changes |
| Graphs.AddEdgeKeepsOtherList | WordGraph.py:52-57 | in a well-formed graph, the list of any existing word other than `start` is untouched |
| Graphs.AddEdgeNewEndList | WordGraph.py:47-50 | in a well-formed graph, a first-seen end word gets an empty list |
| Graphs.SelfLoopOnNewWord | WordGraph.py:40-57 | on any well-formed graph, `addEdge(w, w)` for a new word `w` gives `w` the index `len(vertex_dict) + 1` and an empty list, files the self-loop under index `len(vertex_dict)`, which no word keeps, and breaks well-formedness |
| Graphs.SelfLoopSharesIndex | WordGraph.py:40-50 | after that defect on the empty graph, the next new word `x` is given `w`'s index and `getEdgeList(x)` reports the edge `w -> x` |
| Construction.GraphWordsShape | WordGraph.py:79-88 | every graph token is a non-empty lowercase word without whitespace or punctuation |
| Construction.BuildWeight | WordGraph.py:91-92 | the `addEdge` pass keeps the graph well-formed, and each weight grows by the number of times `b` directly follows `a` |
| Construction.BuildValid | WordGraph.py:91-92 | the `addEdge` pass keeps the graph valid and keeps existing indices |
| Construction.BuildVertices | WordGraph.py:91-92 | after the pass the vertices are the old ones plus every token, when there is at least one pair |
| Construction.BuildEnds | WordGraph.py:91-92 | each word's targets are its successors in the text, in order of first occurrence |
| Construction.TextGraphWeight | WordGraph.py:74-92 | on a fresh graph the weight of `a -> b` equals the number of adjacent occurrences of `a` then `b` in the text |
| Construction.RepeatedFirstWord | WordGraph.py:91-92 | the text `a a b` leaves the graph ill-formed, loses the edge `a -> a` and reports `a`'s edge as `b`'s |
| WordGraphs.WordGraph.constructor | WordGraph.py:71-72 | a new `WordGraph` owns a fresh, empty, well-formed graph |
| WordGraphs.WordGraph.GenerateGraph | WordGraph.py:74-92 | `generateGraph` adds one edge per consecutive token pair of the whole text: the new graph is `Build(old graph, GraphWords(lines))` |
| WordGraphs.TextTokens | WordGraph.py:77-88 | the token loops produce the blanked, split, concatenated and lowercased tokens of all lines |
| WordGraphs.RawTokensSnoc | WordGraph.py:84 | the tokens of one more line are appended after those of the earlier lines |
| Bridges.QueryBridgeWords | WordGraph.py:113-135 | the nested loops return exactly `BridgeSpec`, including the -1, -2 and -3 outcomes |
| Bridges.CollectHits | WordGraph.py:128-130 | the inner loop collects `w3` once per edge of `w3` towards `word2` |
| Bridges.BridgeSpecCorrect | WordGraph.py:113-135 | -1 iff `word1` is absent; -2 iff `word1` is present and `word2` absent; -3 iff no bridge exists; otherwise exactly the bridges, each once, in the order of `word1`'s edges |
| Bridges.BridgesViaFilter | WordGraph.py:125-130 | in a valid graph the two loops compute the reference filter of `word1`'s targets |
| Bridges.FilterMembers | WordGraph.py:125-130 | a word is collected iff it is a target of `word1` with an edge to `word2` |
| Bridges.FilterNoDup | WordGraph.py:125-130 | no word is collected twice |
| Bridges.HitsOnce | WordGraph.py:128-130 | over a list with one edge per target, the inner loop yields `w3` at most once |
| Bridges.TestGraphTargets | test_black_queryBridgeWords.py:4-12 | the fixture graph of `a b e o a b c o a d c` is well-formed and has the expected targets |
| Bridges.BridgeTestCases | test_black_queryBridgeWords.py:14-24 | on the fixture graph: `('a','e')` gives `['b']`; `('a','c')` gives `['b','d']`; `('c','e')` gives -3; `(',','c')` gives -1 |
| Augment.GenerateNewText | WordGraph.py:137-162 | the method returns exactly `NewText`, the padded, split and lowercased tokens with bridge words spliced in and a space after each |
| Augment.SpliceBridges | WordGraph.py:151-155 | the loop over the original pair count produces exactly `AugmentFrom`, reading each pair from the list as it grows |
| Augment.JoinTokens | WordGraph.py:158-160 | the join loop builds every token followed by one space |
| Augment.InsertAfter | WordGraph.py:154-155 | the inserts at `i + j + 1` put the bridge words, in order, right after token `i` |
| Augment.NoBridgeKeepsTokens | WordGraph.py:151-155 | when no examined pair has bridge words, the tokens are unchanged: -1, -2 and -3 insert nothing |
| Augment.NewTextWithoutBridges | WordGraph.py:137-162 | without bridge words the final tokens are the lowercased input tokens |
| Augment.AugmentKeepsTokens | WordGraph.py:151-155 | the splicing only adds tokens: every input token survives, counted with repeats |
| Augment.AugmentKeepsOrder | WordGraph.py:151-155 | the input tokens appear in the output in their original order: an increasing map sends each input position to an output position holding the same token |
| Augment.AugmentWords | WordGraph.py:151-155 | in a graph of words, the spliced list still holds only words |
| Augment.InputWords | WordGraph.py:140-148 | every input token is a non-empty word without whitespace or capitals |
| Augment.BridgeWordsInGraph | WordGraph.py:125-130 | every bridge word is a vertex of the graph |
| Augment.SplitJoinSpaced | WordGraph.py:158-160 | when every token is a non-empty word without whitespace, the joined sentence splits back into its tokens |
| Augment.NewTextSplits | WordGraph.py:158-162 | in a graph whose every word is non-empty and free of whitespace (as `generateGraph` builds), the output sentence splits back into the final token list |
| Augment.GluedTokens | WordGraph.py:140-148 | a word, one punctuation character and following text without whitespace or punctuation give two tokens: the word, and the punctuation glued to that text |
| Augment.PunctuationTokens | WordGraph.py:140-144 | `"A, b"` gives `["a", ",", "b"]` and `"a."` gives `["a", "."]`, but `"a,b"` gives `["a", ",b"]`: a punctuation character followed directly by a word character stays glued to it |
| Augment.IndexDrift | WordGraph.py:151-155 | on the text `a b c d c` the sentence `a c c` becomes `a b c c`: the pair `c c`, whose bridge is `d`, is never examined |
| ShortestPaths.CalcShortestPath | WordGraph.py:164-185 | `KeyError` for an unknown lowercased `word1`, then for an unknown `word2`; otherwise the shortest-distance list, or the shortest distance to `word2` |
| ShortestPaths.ShortestFrom | WordGraph.py:166-180 | after the loop, `dis` holds at each word's index the cheapest path cost from `src`, or 1e9 when no path is cheaper |
| ShortestPaths.ShortestDistanceUnique | WordGraph.py:170-173 | two values that both meet the definition of the capped shortest distance are equal |
| ShortestPaths.DijkstraStart | WordGraph.py:167-171 | the initial `dis`, `vis` and queue satisfy the loop invariant |
| ShortestPaths.MinIndex | WordGraph.py:173 | `q.get()` takes an entry of least distance |
| ShortestPaths.RemoveAt | WordGraph.py:173 | removing the popped entry keeps every other entry in order |
| ShortestPaths.PopSettled | WordGraph.py:174-175 | popping a stale entry of a visited word keeps the invariant |
| ShortestPaths.PopUnsettled | WordGraph.py:173-176 | the least entry of an unvisited word carries that word's final distance; marking the word visited keeps the invariant |
| ShortestPaths.PopPending | WordGraph.py:173-176 | after the pop every other unvisited reached word is still queued with its distance |
| ShortestPaths.RelaxEdges | WordGraph.py:177-180 | relaxing all edges of the newly settled word restores the loop invariant |
| ShortestPaths.RelaxEdge | WordGraph.py:178-180 | one relaxation keeps the inner invariant and relaxes one more edge |
| ShortestPaths.RelaxStep | WordGraph.py:178-180 | lowering `dis[end]` to `dis[u] + weight` and queueing it keeps the invariant |
| ShortestPaths.RelaxWitness | WordGraph.py:178-180 | every finite distance remains the cost of a path from the source |
| ShortestPaths.SettleCount | WordGraph.py:172-176 | settling a word leaves one fewer unsettled, so the loop ends |
| ShortestPaths.DijkstraDone | WordGraph.py:172-180 | an empty queue means every distance is a shortest distance |
| ShortestPaths.RelaxedLowerBound | WordGraph.py:178-180 | relaxed distances with `dis[src] = 0` are lower bounds of every path's cost |
| ShortestPaths.ShortestRelaxed | WordGraph.py:177-180 | the final distances satisfy `dis[v] <= dis[u] + weight` for every edge out of a reached word |
| ShortestPaths.UnreachedKeepsSentinel | WordGraph.py:167 | a word no path reaches keeps the initial 1e9 |
| ShortestPaths.ShortestEdge | WordGraph.py:178-179 | a shortest distance plus an edge's weight bounds the distance to the edge's target |
| Walks.RandomWalk | WordGraph.py:187-203 | starts at the start word; each step takes the oracle's edge; stops at a word without edges (no edge repeated) or right after a repeated edge; returns the words joined by single spaces |
| Walks.WalkStep | WordGraph.py:196-198 | one step appends the chosen edge's target to the path and to the returned string |
| Walks.WalkLength | WordGraph.py:190-202 | a finished walk takes at most one step more than the graph has edges |
| Walks.WalkIsPath | WordGraph.py:196-198 | in a valid graph each consecutive pair of visited words is an edge |
| Walks.DistinctBound | WordGraph.py:200-202 | distinct edges taken are no more than the edges of the graph |

## Left out

- The dialogs `openfile` and `savefile`, the drawing `showDirectedGraph`, the interactive `main` loop and the module constant `s2r7` are user interface and I/O.
- File reading in `generateGraph` (WordGraph.py:78): `WordGraph.GenerateGraph` takes the file's lines as a parameter.
- Walks.RandomWalk: the start word and each `random.choice` are supplied. The start word is a parameter required to be a vertex, which rules out the `IndexError` on an empty graph. The edge choices come from an oracle `pick(step, n) < n`.
- ShortestPaths.CalcShortestPath: requires a well-formed graph. After the self-loop defect, two words share a list and `len(dis)` is too small, so the source can raise `IndexError` or report one word's edges for another. That state is not modelled.
- ShortestPaths.ShortestFrom: the priority queue is a sequence, and `q.get()` takes the first entry of least distance. Python also breaks ties by the word. The proof of `ShortestPaths.ShortestFrom` uses only that the popped entry has the least distance (`ShortestPaths.PopUnsettled`), so it holds for either tie-break.
- ShortestPaths.INF: the float `1e9` is the integer 1,000,000,000. Distances are integers because weights are.
- Text.Lower: only ASCII capitals are lowercased, since Unicode case mapping is not modelled. `string.punctuation` and the whitespace set of `str.split` are written out as character sets.
- Construction.BuildWeight: the weight count is proved for token lists whose first pair is not a self-loop on a new word. `Construction.RepeatedFirstWord` shows what happens otherwise.
- Construction.TextGraphWeight: states weights only under the same first-pair condition.
- Construction.BuildEnds: stated under the same first-pair condition as `Construction.BuildWeight`.
- Graphs.AddEdgeWeight: stated for well-formed graphs, and for `start != end` or `start` already present. `Graphs.SelfLoopOnNewWord` covers the remaining case.
- Graphs.AddEdgeEnds: stated under the same condition as `Graphs.AddEdgeWeight`.
- Graphs.AddEdgeNewStart: stated for well-formed graphs. After the self-loop defect a new word can be given an index whose list already holds edges.
- Graphs.AddEdgeKeepsOtherList: stated for well-formed graphs. After the self-loop defect two words can share one list, so adding to one changes the other.
- Graphs.AddEdgeNewEndList: stated for well-formed graphs. After the self-loop defect a new end word can be given an index whose list is not empty.
- A non-string argument to `queryBridgeWords` (test_black_queryBridgeWords.py:26-27) makes the source raise on `.lower()`. Dafny's types rule this input out.
- The `KeyError` of `calcShortestPath` is the result value `PathResult.KeyError`, not an exception. `BridgeResult`'s `NoWord1`, `NoWord2` and `NoBridge` stand for the integer return codes -1, -2 and -3.
- The Python lists `dis`, `vis` and `tokens` are sequence variables reassigned by the loops. Edges are values in the lists, and the in-place weight update is a list-slot update. Nothing else holds a reference to an edge, so no aliasing is lost.
- Walks.RandomWalk: the path and the sequence of edges taken are ghost outputs describing the walk. The source returns only the joined string.
