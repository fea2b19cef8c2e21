/**
 * `WordGraph.calcShortestPath` (WordGraph.py:164-185): Dijkstra's algorithm with
 * a priority queue and lazy deletion. `dis` holds one tentative distance per
 * vertex index, initialised to 10^9; `vis` marks the vertices already settled.
 */
module ShortestPaths {
  import opened Text
  import opened Graphs

  /** The initial distance `1e9`, which also stands for "unreachable". */
  const INF: int := 1_000_000_000

  /** The three outcomes: the distance list (no `word2`), one distance, or a `KeyError`. */
  datatype PathResult = AllDistances(dis: seq<int>) | Distance(d: int) | KeyError(word: string)

  /** A sequence of words in which each word is a target of the word before it. */
  predicate IsPath(g: GraphData, p: seq<string>)
    requires Indexed(g)
  {
    |p| >= 1 && forall k :: 0 <= k < |p| - 1 ==> Successor(g, p[k], p[k + 1])
  }

  /** A path from `a` to `b`. */
  predicate PathBetween(g: GraphData, p: seq<string>, a: string, b: string)
    requires Indexed(g)
  {
    IsPath(g, p) && p[0] == a && p[|p| - 1] == b
  }

  /** The sum of the weights of the edges along `p`. */
  function PathCost(g: GraphData, p: seq<string>): nat
    requires Indexed(g) && |p| >= 1
  {
    if |p| == 1 then 0 else PathCost(g, p[..|p| - 1]) + Weight(g, p[|p| - 2], p[|p| - 1])
  }

  /**
   * `d` is the distance from `a` to `b` capped at `INF`: no path is cheaper than
   * `d`, and unless `d` is `INF` some path costs exactly `d`.
   */
  ghost predicate ShortestDistance(g: GraphData, a: string, b: string, d: int)
    requires Indexed(g)
  {
    && 0 <= d <= INF
    && (forall p :: PathBetween(g, p, a, b) ==> d <= PathCost(g, p))
    && (d < INF ==> exists p :: PathBetween(g, p, a, b) && PathCost(g, p) == d)
  }

  /** Every index is below the number of words, so a list of that length has a slot per word. */
  predicate Dense(g: GraphData) {
    forall w :: w in g.vertexDict ==> g.vertexDict[w] < |g.vertexDict|
  }

  /** The distance list `dis` holds the shortest distance from `src` at each word's index. */
  ghost predicate ShortestDistances(g: GraphData, src: string, dis: seq<int>)
    requires Indexed(g) && Dense(g)
  {
    |dis| == |g.vertexDict|
    && forall w :: w in g.vertexDict ==> ShortestDistance(g, src, w, dis[g.vertexDict[w]])
  }

  /** The capped distance is unique: whatever order the queue settles ties in, the result is the same. */
  lemma ShortestDistanceUnique(g: GraphData, a: string, b: string, d1: int, d2: int)
    requires Indexed(g) && ShortestDistance(g, a, b, d1) && ShortestDistance(g, a, b, d2)
    ensures d1 == d2
  {
    if d1 < INF {
      var p :| PathBetween(g, p, a, b) && PathCost(g, p) == d1;
      assert d2 <= d1;
    }
    if d2 < INF {
      var p :| PathBetween(g, p, a, b) && PathCost(g, p) == d2;
      assert d1 <= d2;
    }
  }

  /** A well-formed graph's index map is dense and can be inverted. */
  lemma WellFormedDense(g: GraphData)
    requires WellFormed(g)
    ensures ValidGraph(g) && Dense(g) && Named(g, NamesOf(g))
  {
    forall w | w in g.vertexDict ensures NamesOf(g)[g.vertexDict[w]] == w {
      var i := g.vertexDict[w];
      assert exists v :: v in g.vertexDict && g.vertexDict[v] == i;
    }
  }

  /** The word at each index of a well-formed graph. */
  ghost function NamesOf(g: GraphData): seq<string>
    requires WellFormed(g)
  {
    seq(|g.vertexDict|, i => if exists v :: v in g.vertexDict && g.vertexDict[v] == i
      then var v :| v in g.vertexDict && g.vertexDict[v] == i; v else [])
  }

  /** The `k`-th edge of `u`'s list is the edge `u -> end`, and its weight is `Weight(g, u, end)`. */
  lemma EdgeWeight(g: GraphData, u: string, k: nat)
    requires ValidGraph(g) && k < |EdgesOf(g, u)|
    ensures var e := EdgesOf(g, u)[k];
      && Successor(g, u, e.end) && Weight(g, u, e.end) == e.weight && e.end in g.vertexDict
      && u in g.vertexDict
  {
    EdgesOfValid(g, u);
    var l := EdgesOf(g, u);
    match FindEnd(l, l[k].end)
    case None =>
    case Some(j) =>
  }

  /** A path extended by one edge. */
  lemma PathExtend(g: GraphData, p: seq<string>, a: string, u: string, x: string)
    requires Indexed(g) && PathBetween(g, p, a, u) && Successor(g, u, x)
    ensures PathBetween(g, p + [x], a, x)
    ensures PathCost(g, p + [x]) == PathCost(g, p) + Weight(g, u, x)
  {
    var q := p + [x];
    assert q[..|q| - 1] == p;
  }

  /** The last edge of a path of two or more words. */
  lemma PathSplit(g: GraphData, p: seq<string>, a: string, b: string)
    requires Indexed(g) && PathBetween(g, p, a, b) && |p| >= 2
    ensures PathBetween(g, p[..|p| - 1], a, p[|p| - 2]) && Successor(g, p[|p| - 2], b)
    ensures PathCost(g, p) == PathCost(g, p[..|p| - 1]) + Weight(g, p[|p| - 2], b)
  {
  }

  /**
   * Distances with `dis[src] == 0`, bounded by `INF` and relaxed along every edge
   * out of a reached vertex are lower bounds of every path's cost.
   */
  predicate Relaxed(g: GraphData, dis: seq<int>)
    requires Indexed(g) && Dense(g) && |dis| == |g.vertexDict|
  {
    forall u, k ::
      (u in g.vertexDict && 0 <= k < |EdgesOf(g, u)| && dis[g.vertexDict[u]] < INF
       && EdgesOf(g, u)[k].end in g.vertexDict) ==>
      dis[g.vertexDict[EdgesOf(g, u)[k].end]] <= dis[g.vertexDict[u]] + EdgesOf(g, u)[k].weight
  }

  predicate Bounded(g: GraphData, dis: seq<int>)
    requires Dense(g) && |dis| == |g.vertexDict|
  {
    forall w :: w in g.vertexDict ==> 0 <= dis[g.vertexDict[w]] <= INF
  }

  lemma {:induction false} RelaxedLowerBound(g: GraphData, src: string, dis: seq<int>, p: seq<string>, b: string)
    requires ValidGraph(g) && Dense(g) && |dis| == |g.vertexDict| && src in g.vertexDict
    requires Bounded(g, dis) && Relaxed(g, dis) && dis[g.vertexDict[src]] == 0
    requires PathBetween(g, p, src, b)
    ensures b in g.vertexDict && dis[g.vertexDict[b]] <= PathCost(g, p)
    decreases |p|
  {
    if |p| >= 2 {
      PathSplit(g, p, src, b);
      var u := p[|p| - 2];
      RelaxedLowerBound(g, src, dis, p[..|p| - 1], u);
      var l := EdgesOf(g, u);
      var j := FindEnd(l, b).value;
      EdgeWeight(g, u, j);
    }
  }
  /** The distance and visited lists have one slot per word, addressed by the word's index. */
  predicate Fits(g: GraphData, dis: seq<int>, vis: seq<bool>) {
    Dense(g) && |dis| == |g.vertexDict| && |vis| == |g.vertexDict|
  }

  /**
   * `names` inverts the index map: it names the word at each word's index, so
   * distinct words have distinct slots.
   */
  predicate Named(g: GraphData, names: seq<string>) {
    |names| == |g.vertexDict|
    && forall w :: w in g.vertexDict ==> g.vertexDict[w] < |names| && names[g.vertexDict[w]] == w
  }

  /** Every queue entry `(d, w)` is a finite distance not below `w`'s current one nor below `last`. */
  predicate QueueOk(g: GraphData, dis: seq<int>, q: seq<(int, string)>, last: int)
    requires Dense(g) && |dis| == |g.vertexDict|
  {
    forall j :: 0 <= j < |q| ==>
      q[j].1 in g.vertexDict && dis[g.vertexDict[q[j].1]] <= q[j].0 < INF && last <= q[j].0
  }

  /** Settled vertices are no farther than `last`, the distance of the latest one settled. */
  predicate Settled(g: GraphData, dis: seq<int>, vis: seq<bool>, last: int)
    requires Fits(g, dis, vis)
  {
    0 <= last < INF
    && forall w :: w in g.vertexDict && vis[g.vertexDict[w]] ==> dis[g.vertexDict[w]] <= last
  }

  /** An unsettled vertex with a finite distance has that distance waiting in the queue. */
  predicate Pending(g: GraphData, dis: seq<int>, vis: seq<bool>, q: seq<(int, string)>)
    requires Fits(g, dis, vis)
  {
    forall w :: w in g.vertexDict && !vis[g.vertexDict[w]] && dis[g.vertexDict[w]] < INF ==>
      (dis[g.vertexDict[w]], w) in q
  }

  /** The edges of settled vertices are relaxed, except those of `cur` from position `kk` on. */
  predicate RelaxedUpTo(g: GraphData, dis: seq<int>, vis: seq<bool>, cur: string, kk: int)
    requires Indexed(g) && Fits(g, dis, vis)
  {
    forall u, k ::
      (u in g.vertexDict && vis[g.vertexDict[u]] && 0 <= k < |EdgesOf(g, u)| && (u != cur || k < kk)
       && EdgesOf(g, u)[k].end in g.vertexDict) ==>
      dis[g.vertexDict[EdgesOf(g, u)[k].end]] <= dis[g.vertexDict[u]] + EdgesOf(g, u)[k].weight
  }

  /** Every finite distance is the cost of a recorded path from `src`. */
  ghost predicate Witnessed(g: GraphData, src: string, dis: seq<int>, paths: map<string, seq<string>>)
    requires Indexed(g) && Dense(g) && |dis| == |g.vertexDict|
  {
    forall w :: w in g.vertexDict && dis[g.vertexDict[w]] < INF ==>
      w in paths && PathBetween(g, paths[w], src, w) && PathCost(g, paths[w]) == dis[g.vertexDict[w]]
  }

  /** The invariant of the main loop of `calcShortestPath`. */
  ghost predicate DijkstraInv(g: GraphData, names: seq<string>, src: string, dis: seq<int>, vis: seq<bool>,
                              q: seq<(int, string)>, last: int, paths: map<string, seq<string>>)
    requires Indexed(g)
  {
    && Fits(g, dis, vis) && Named(g, names) && src in g.vertexDict
    && Bounded(g, dis) && dis[g.vertexDict[src]] == 0
    && QueueOk(g, dis, q, last) && Settled(g, dis, vis, last) && Pending(g, dis, vis, q)
    && RelaxedUpTo(g, dis, vis, src, |EdgesOf(g, src)|) && Witnessed(g, src, dis, paths)
  }

  /**
   * Once the queue is empty, the invariant yields the shortest distances: a
   * finite distance belongs to a settled vertex, whose edges are relaxed.
   */
  lemma DijkstraDone(g: GraphData, names: seq<string>, src: string, dis: seq<int>, vis: seq<bool>, last: int,
                     paths: map<string, seq<string>>)
    requires ValidGraph(g) && DijkstraInv(g, names, src, dis, vis, [], last, paths)
    ensures ShortestDistances(g, src, dis)
  {
    forall u, k |
      u in g.vertexDict && 0 <= k < |EdgesOf(g, u)| && dis[g.vertexDict[u]] < INF
      && EdgesOf(g, u)[k].end in g.vertexDict
      ensures dis[g.vertexDict[EdgesOf(g, u)[k].end]] <= dis[g.vertexDict[u]] + EdgesOf(g, u)[k].weight
    {
      assert vis[g.vertexDict[u]];
    }
    assert Relaxed(g, dis);
    forall w | w in g.vertexDict ensures ShortestDistance(g, src, w, dis[g.vertexDict[w]]) {
      forall p | PathBetween(g, p, src, w) ensures dis[g.vertexDict[w]] <= PathCost(g, p) {
        RelaxedLowerBound(g, src, dis, p, w);
      }
      if dis[g.vertexDict[w]] < INF {
        assert PathBetween(g, paths[w], src, w);
      }
    }
  }

  /** The final distances are relaxed along every edge out of a reached word. */
  lemma ShortestRelaxed(g: GraphData, src: string, dis: seq<int>)
    requires ValidGraph(g) && Dense(g) && ShortestDistances(g, src, dis)
    ensures Relaxed(g, dis)
  {
    forall u, k |
      u in g.vertexDict && 0 <= k < |EdgesOf(g, u)| && dis[g.vertexDict[u]] < INF
      && EdgesOf(g, u)[k].end in g.vertexDict
      ensures dis[g.vertexDict[EdgesOf(g, u)[k].end]] <= dis[g.vertexDict[u]] + EdgesOf(g, u)[k].weight
    {
      var x := EdgesOf(g, u)[k].end;
      ShortestEdge(g, src, u, x, k, dis[g.vertexDict[u]], dis[g.vertexDict[x]]);
    }
  }

  /** A shortest path to `u` followed by the `k`-th edge `u -> x` bounds the distance to `x`. */
  lemma ShortestEdge(g: GraphData, src: string, u: string, x: string, k: nat, du: int, dx: int)
    requires ValidGraph(g) && k < |EdgesOf(g, u)| && x == EdgesOf(g, u)[k].end && du < INF
    requires ShortestDistance(g, src, u, du) && ShortestDistance(g, src, x, dx)
    ensures dx <= du + EdgesOf(g, u)[k].weight
  {
    var p :| PathBetween(g, p, src, u) && PathCost(g, p) == du;
    EdgeWeight(g, u, k);
    PathExtend(g, p, src, u, x);
  }

  /** A word no path from `src` reaches keeps the sentinel `1e9`. */
  lemma UnreachedKeepsSentinel(g: GraphData, src: string, dis: seq<int>, w: string)
    requires Indexed(g) && Dense(g) && ShortestDistances(g, src, dis) && w in g.vertexDict
    requires forall p :: !PathBetween(g, p, src, w)
    ensures dis[g.vertexDict[w]] == INF
  {
    assert ShortestDistance(g, src, w, dis[g.vertexDict[w]]);
  }

  /** The position of an entry with the least distance: what `q.get()` removes. */
  method MinIndex(q: seq<(int, string)>) returns (m: nat)
    requires q != []
    ensures m < |q| && forall j :: 0 <= j < |q| ==> q[m].0 <= q[j].0
  {
    m := 0;
    for i := 1 to |q|
      invariant m < i && forall j :: 0 <= j < i ==> q[m].0 <= q[j].0
    {
      if q[i].0 < q[m].0 {
        m := i;
      }
    }
  }
  /**
   * The inner loop of WordGraph.py:177-180: every edge `u -> end` that improves
   * `dis[end]` lowers it and pushes the new distance. `u` has just been settled at
   * distance `last`.
   */
  method RelaxEdges(g: GraphData, ghost names: seq<string>, src: string, u: string, dis0: seq<int>, vis: seq<bool>,
                    q0: seq<(int, string)>, ghost last: int, ghost paths0: map<string, seq<string>>)
    returns (dis: seq<int>, q: seq<(int, string)>, ghost paths: map<string, seq<string>>)
    requires ValidGraph(g) && StepInv(g, names, src, u, 0, dis0, vis, q0, last, paths0)
    ensures DijkstraInv(g, names, src, dis, vis, q, last, paths)
  {
    var edges := EdgesOf(g, u);
    dis, q, paths := dis0, q0, paths0;
    for k := 0 to |edges|
      invariant StepInv(g, names, src, u, k, dis, vis, q, last, paths)
    {
      dis, q, paths := RelaxEdge(g, names, src, u, k, dis, vis, q, last, paths);
    }
    RelaxedAll(g, names, src, u, dis, vis, q, last, paths);
  }

  /** One iteration of the inner loop, on the `k`-th edge of `u`. */
  method RelaxEdge(g: GraphData, ghost names: seq<string>, src: string, u: string, k: nat, dis0: seq<int>, vis: seq<bool>,
                   q0: seq<(int, string)>, ghost last: int, ghost paths0: map<string, seq<string>>)
    returns (dis: seq<int>, q: seq<(int, string)>, ghost paths: map<string, seq<string>>)
    requires ValidGraph(g) && StepInv(g, names, src, u, k, dis0, vis, q0, last, paths0) && k < |EdgesOf(g, u)|
    ensures StepInv(g, names, src, u, k + 1, dis, vis, q, last, paths)
  {
    var edge := EdgesOf(g, u)[k];
    StepBounds(g, names, src, u, k, dis0, vis, q0, last, paths0);
    var ix := g.vertexDict[edge.end];
    var nd := dis0[g.vertexDict[u]] + edge.weight;
    if dis0[ix] > nd {
      dis := dis0[ix := nd];
      q := q0 + [(nd, edge.end)];
      paths := Extend(paths0, u, edge.end);
      RelaxStep(g, names, src, u, k, dis0, vis, q0, last, paths0, ix, nd);
    } else {
      dis, q, paths := dis0, q0, paths0;
      RelaxSkip(g, names, src, u, k, dis, vis, q, last, paths);
    }
  }

  /** The recorded path to `x`: the one to `u` followed by `x`. */
  ghost function Extend(paths: map<string, seq<string>>, u: string, x: string): map<string, seq<string>> {
    if u in paths then paths[x := paths[u] + [x]] else paths
  }

  lemma StepBounds(g: GraphData, names: seq<string>, src: string, u: string, k: nat, dis: seq<int>, vis: seq<bool>,
                   q: seq<(int, string)>, last: int, paths: map<string, seq<string>>)
    requires ValidGraph(g) && StepInv(g, names, src, u, k, dis, vis, q, last, paths) && k < |EdgesOf(g, u)|
    ensures EdgesOf(g, u)[k].end in g.vertexDict && g.vertexDict[EdgesOf(g, u)[k].end] < |dis|
    ensures g.vertexDict[u] < |dis| && dis[g.vertexDict[u]] == last && u in paths
  {
    EdgesOfValid(g, u);
  }

  /** The invariant of the inner loop, before the `k`-th edge of `u`. */
  ghost predicate StepInv(g: GraphData, names: seq<string>, src: string, u: string, k: nat, dis: seq<int>, vis: seq<bool>,
                          q: seq<(int, string)>, last: int, paths: map<string, seq<string>>)
    requires Indexed(g)
  {
    && u in g.vertexDict && k <= |EdgesOf(g, u)| && Fits(g, dis, vis) && Named(g, names) && src in g.vertexDict
    && vis[g.vertexDict[u]] && dis[g.vertexDict[u]] == last
    && Bounded(g, dis) && dis[g.vertexDict[src]] == 0
    && QueueOk(g, dis, q, last) && Settled(g, dis, vis, last)
    && Pending(g, dis, vis, q) && RelaxedUpTo(g, dis, vis, u, k)
    && Witnessed(g, src, dis, paths)
  }

  lemma RelaxSkip(g: GraphData, names: seq<string>, src: string, u: string, k: nat, dis: seq<int>, vis: seq<bool>,
                  q: seq<(int, string)>, last: int, paths: map<string, seq<string>>)
    requires ValidGraph(g) && StepInv(g, names, src, u, k, dis, vis, q, last, paths) && k < |EdgesOf(g, u)|
    requires EdgesOf(g, u)[k].end in g.vertexDict
    requires dis[g.vertexDict[EdgesOf(g, u)[k].end]] <= dis[g.vertexDict[u]] + EdgesOf(g, u)[k].weight
    ensures StepInv(g, names, src, u, k + 1, dis, vis, q, last, paths)
  {
  }

  lemma RelaxedAll(g: GraphData, names: seq<string>, src: string, u: string, dis: seq<int>, vis: seq<bool>,
                   q: seq<(int, string)>, last: int, paths: map<string, seq<string>>)
    requires ValidGraph(g) && StepInv(g, names, src, u, |EdgesOf(g, u)|, dis, vis, q, last, paths)
    ensures DijkstraInv(g, names, src, dis, vis, q, last, paths)
  {
  }

  /**
   * Lowering `dis[end]` to `dis[u] + weight` for the `k`-th edge `u -> end`, and
   * pushing that distance, keeps the invariant and relaxes the edge.
   */
  lemma RelaxStep(g: GraphData, names: seq<string>, src: string, u: string, k: nat, dis: seq<int>, vis: seq<bool>,
                  q: seq<(int, string)>, last: int, paths: map<string, seq<string>>, ix: nat, nd: int)
    requires ValidGraph(g) && StepInv(g, names, src, u, k, dis, vis, q, last, paths) && k < |EdgesOf(g, u)|
    requires EdgesOf(g, u)[k].end in g.vertexDict && ix == g.vertexDict[EdgesOf(g, u)[k].end] && ix < |dis|
    requires nd == dis[g.vertexDict[u]] + EdgesOf(g, u)[k].weight && dis[ix] > nd
    ensures var x := EdgesOf(g, u)[k].end;
      StepInv(g, names, src, u, k + 1, dis[ix := nd], vis, q + [(nd, x)], last, Extend(paths, u, x))
  {
    var x := EdgesOf(g, u)[k].end;
    var dis' := dis[ix := nd];
    var q' := q + [(nd, x)];
    assert nd == last + EdgesOf(g, u)[k].weight;
    assert Settled(g, dis, vis, last);
    assert ix != g.vertexDict[src] by {
      assert dis[g.vertexDict[src]] == 0 <= last;
    }
    assert !vis[ix] && ix != g.vertexDict[u];
    RelaxSource(g, names, src, x, nd, dis);
    RelaxQueue(g, names, u, x, nd, dis, vis, q, last);
    RelaxEdgeKept(g, names, u, k, x, nd, dis, vis, last);
    RelaxWitness(g, names, src, u, k, dis, paths, last, ix, nd);
    assert A: u in g.vertexDict && k + 1 <= |EdgesOf(g, u)| && Fits(g, dis', vis) && Named(g, names) && src in g.vertexDict;
    assert B: vis[g.vertexDict[u]] && dis'[g.vertexDict[u]] == last;
    assert C: Bounded(g, dis') && dis'[g.vertexDict[src]] == 0;
    assert D: QueueOk(g, dis', q', last) && Settled(g, dis', vis, last);
    assert E: Pending(g, dis', vis, q') && RelaxedUpTo(g, dis', vis, u, k + 1);
    assert F: Witnessed(g, src, dis', Extend(paths, u, x));
  }

  lemma RelaxSource(g: GraphData, names: seq<string>, src: string, x: string, nd: int, dis: seq<int>)
    requires Dense(g) && Named(g, names) && |dis| == |g.vertexDict|
    requires src in g.vertexDict && x in g.vertexDict && x != src && dis[g.vertexDict[src]] == 0
    ensures dis[g.vertexDict[x] := nd][g.vertexDict[src]] == 0
  {
  }

  lemma RelaxQueue(g: GraphData, names: seq<string>, u: string, x: string, nd: int, dis: seq<int>, vis: seq<bool>,
                   q: seq<(int, string)>, last: int)
    requires Fits(g, dis, vis) && Named(g, names) && x in g.vertexDict && !vis[g.vertexDict[x]]
    requires last <= nd < dis[g.vertexDict[x]] && Bounded(g, dis)
    requires QueueOk(g, dis, q, last) && Settled(g, dis, vis, last) && Pending(g, dis, vis, q)
    ensures var dis' := dis[g.vertexDict[x] := nd];
      && Fits(g, dis', vis) && Bounded(g, dis')
      && QueueOk(g, dis', q + [(nd, x)], last) && Settled(g, dis', vis, last)
      && Pending(g, dis', vis, q + [(nd, x)])
  {
  }

  lemma RelaxEdgeKept(g: GraphData, names: seq<string>, u: string, k: nat, x: string, nd: int, dis: seq<int>, vis: seq<bool>, last: int)
    requires ValidGraph(g) && Fits(g, dis, vis) && Named(g, names) && u in g.vertexDict && k < |EdgesOf(g, u)|
    requires x == EdgesOf(g, u)[k].end && x in g.vertexDict && !vis[g.vertexDict[x]]
    requires vis[g.vertexDict[u]] && dis[g.vertexDict[u]] == last
    requires nd == last + EdgesOf(g, u)[k].weight && nd < dis[g.vertexDict[x]]
    requires RelaxedUpTo(g, dis, vis, u, k)
    ensures RelaxedUpTo(g, dis[g.vertexDict[x] := nd], vis, u, k + 1)
  {
  }

  lemma RelaxWitness(g: GraphData, names: seq<string>, src: string, u: string, k: nat, dis: seq<int>,
                     paths: map<string, seq<string>>, last: int, ix: nat, nd: int)
    requires ValidGraph(g) && Dense(g) && Named(g, names) && |dis| == |g.vertexDict|
    requires u in g.vertexDict && k < |EdgesOf(g, u)| && dis[g.vertexDict[u]] == last < INF
    requires EdgesOf(g, u)[k].end in g.vertexDict && ix == g.vertexDict[EdgesOf(g, u)[k].end]
    requires nd == last + EdgesOf(g, u)[k].weight
    requires Witnessed(g, src, dis, paths)
    ensures Witnessed(g, src, dis[ix := nd], Extend(paths, u, EdgesOf(g, u)[k].end))
  {
    var x := EdgesOf(g, u)[k].end;
    EdgeWeight(g, u, k);
    PathExtend(g, paths[u], src, u, x);
  }
  /** `q` without its `m`-th entry. */
  function RemoveAt(q: seq<(int, string)>, m: nat): (r: seq<(int, string)>)
    requires m < |q|
    ensures |r| == |q| - 1
    ensures forall j :: 0 <= j < |r| ==> r[j] == if j < m then q[j] else q[j + 1]
    ensures forall x :: x in q && x != q[m] ==> x in r
  {
    var r := q[..m] + q[m + 1..];
    assert forall j :: 0 <= j < |q| && j != m ==> q[j] == r[if j < m then j else j - 1];
    r
  }

  /** Popping an entry of a settled vertex (the `continue` of WordGraph.py:174-175) keeps the invariant. */
  lemma PopSettled(g: GraphData, names: seq<string>, src: string, dis: seq<int>, vis: seq<bool>, q: seq<(int, string)>,
                   last: int, paths: map<string, seq<string>>, m: nat)
    requires ValidGraph(g) && DijkstraInv(g, names, src, dis, vis, q, last, paths) && m < |q|
    requires vis[g.vertexDict[q[m].1]]
    ensures DijkstraInv(g, names, src, dis, vis, RemoveAt(q, m), last, paths)
  {
    var r := RemoveAt(q, m);
    forall w | w in g.vertexDict && !vis[g.vertexDict[w]] && dis[g.vertexDict[w]] < INF
      ensures (dis[g.vertexDict[w]], w) in r
    {
      assert (dis[g.vertexDict[w]], w) in q;
    }
  }

  /**
   * Popping the least entry of an unsettled vertex `u` (WordGraph.py:171-176):
   * its distance is final and equals the entry, every other entry is no smaller,
   * and `u` becomes settled with its edges still to relax.
   */
  lemma PopUnsettled(g: GraphData, names: seq<string>, src: string, dis: seq<int>, vis: seq<bool>, q: seq<(int, string)>,
                     last: int, paths: map<string, seq<string>>, m: nat)
    requires ValidGraph(g) && DijkstraInv(g, names, src, dis, vis, q, last, paths) && m < |q|
    requires forall j :: 0 <= j < |q| ==> q[m].0 <= q[j].0
    requires !vis[g.vertexDict[q[m].1]]
    ensures q[m].0 == dis[g.vertexDict[q[m].1]]
    ensures StepInv(g, names, src, q[m].1, 0, dis, vis[g.vertexDict[q[m].1] := true], RemoveAt(q, m), q[m].0, paths)
  {
    var u := q[m].1;
    var iu := g.vertexDict[u];
    assert (dis[iu], u) in q;
    PopPending(g, dis, vis, q, m);
    assert Settled(g, dis, vis[iu := true], q[m].0);
    assert RelaxedUpTo(g, dis, vis[iu := true], u, 0);
  }

  /** Removing the entry of `q[m].1` and settling it leaves every other unsettled vertex queued. */
  lemma PopPending(g: GraphData, dis: seq<int>, vis: seq<bool>, q: seq<(int, string)>, m: nat)
    requires Fits(g, dis, vis) && Pending(g, dis, vis, q) && m < |q| && q[m].1 in g.vertexDict
    ensures Pending(g, dis, vis[g.vertexDict[q[m].1] := true], RemoveAt(q, m))
  {
    var vis' := vis[g.vertexDict[q[m].1] := true];
    var r := RemoveAt(q, m);
    forall w | w in g.vertexDict && !vis'[g.vertexDict[w]] && dis[g.vertexDict[w]] < INF
      ensures (dis[g.vertexDict[w]], w) in r
    {
      assert (dis[g.vertexDict[w]], w) in q;
    }
  }

  /**
   * The Dijkstra loop of WordGraph.py:166-181 from the word `src`: the list it
   * leaves holds, at each word's index, the cheapest cost of a path from `src`,
   * or `INF` when there is none cheaper than `INF`.
   */
  method ShortestFrom(g: GraphData, src: string) returns (dis: seq<int>)
    requires WellFormed(g) && src in g.vertexDict
    ensures ShortestDistances(g, src, dis)
  {
    WellFormedDense(g);
    ghost var names := NamesOf(g);
    var n := |g.vertexDict|;
    dis := seq(n, _ => INF)[g.vertexDict[src] := 0];
    var vis := seq(n, _ => false);
    var q := [(0, src)];
    ghost var last := 0;
    ghost var paths := map[src := [src]];
    DijkstraStart(g, names, src, dis, vis, q, paths);
    while q != []
      invariant DijkstraInv(g, names, src, dis, vis, q, last, paths)
      decreases Unsettled(vis), |q|
    {
      var m := MinIndex(q);
      var d := q[m].0;
      var u := q[m].1;
      var iu := g.vertexDict[u];
      if vis[iu] {
        PopSettled(g, names, src, dis, vis, q, last, paths, m);
        q := RemoveAt(q, m);
      } else {
        PopUnsettled(g, names, src, dis, vis, q, last, paths, m);
        q := RemoveAt(q, m);
        SettleCount(vis, iu);
        vis := vis[iu := true];
        last := d;
        dis, q, paths := RelaxEdges(g, names, src, u, dis, vis, q, last, paths);
      }
    }
    DijkstraDone(g, names, src, dis, vis, last, paths);
  }

  /** The number of vertices not yet settled. */
  function Unsettled(vis: seq<bool>): nat {
    if vis == [] then 0 else Unsettled(vis[..|vis| - 1]) + (if vis[|vis| - 1] then 0 else 1)
  }

  /** Settling a vertex leaves one fewer unsettled: the outer loop terminates. */
  lemma {:induction false} SettleCount(vis: seq<bool>, i: nat)
    requires i < |vis| && !vis[i]
    ensures Unsettled(vis[i := true]) == Unsettled(vis) - 1
  {
    var v := vis[i := true];
    assert v[..|v| - 1] == if i == |vis| - 1 then vis[..|vis| - 1] else vis[..|vis| - 1][i := true];
    if i < |vis| - 1 {
      SettleCount(vis[..|vis| - 1], i);
    }
  }

  /** The state before the loop: `dis[src] = 0`, everything else `1e9`, and `(0, src)` queued. */
  lemma DijkstraStart(g: GraphData, names: seq<string>, src: string, dis: seq<int>, vis: seq<bool>, q: seq<(int, string)>,
                      paths: map<string, seq<string>>)
    requires ValidGraph(g) && Dense(g) && Named(g, names) && src in g.vertexDict
    requires dis == seq(|g.vertexDict|, _ => INF)[g.vertexDict[src] := 0]
    requires vis == seq(|g.vertexDict|, _ => false) && q == [(0, src)] && paths == map[src := [src]]
    ensures DijkstraInv(g, names, src, dis, vis, q, 0, paths)
  {
    assert PathBetween(g, [src], src, src);
  }

  /**
   * `calcShortestPath(word1, word2)`: `word1` and `word2` are lowercased; an
   * unknown `word1` raises `KeyError` before the search, an unknown `word2`
   * after it; without `word2` the whole distance list is returned.
   */
  method CalcShortestPath(g: GraphData, word1: string, word2: Option<string>) returns (r: PathResult)
    requires WellFormed(g)
    ensures Lower(word1) !in g.vertexDict ==> r == KeyError(Lower(word1))
    ensures Lower(word1) in g.vertexDict && word2.None? ==>
      r.AllDistances? && ShortestDistances(g, Lower(word1), r.dis)
    ensures Lower(word1) in g.vertexDict && word2.Some? && Lower(word2.value) !in g.vertexDict ==>
      r == KeyError(Lower(word2.value))
    ensures Lower(word1) in g.vertexDict && word2.Some? && Lower(word2.value) in g.vertexDict ==>
      r.Distance? && ShortestDistance(g, Lower(word1), Lower(word2.value), r.d)
  {
    var w1 := Lower(word1);
    if w1 !in g.vertexDict {
      return KeyError(w1);
    }
    var dis := ShortestFrom(g, w1);
    if word2.None? {
      return AllDistances(dis);
    }
    var w2 := Lower(word2.value);
    if w2 !in g.vertexDict {
      return KeyError(w2);
    }
    return Distance(dis[g.vertexDict[w2]]);
  }
}
