/** When the cycle search can fail to look an id up in its path.  Whether it does depends on the order in
    which the sets are iterated; whether some order makes it fail depends on the graph alone. */
module CycleOrders {
  import opened CycleDetection

  /** A cycle that an id outside it depends on. */
  ghost predicate EntersCycle(g: Graph, id: string, dep: string, c: seq<string>) {
    Cycle(g, c) && dep in c && id !in c && Edge(g, id, dep)
  }

  ghost predicate HasEntrance(g: Graph) {
    exists id, dep, c :: EntersCycle(g, id, dep, c)
  }

  /** The same dependencies, iterated in another order. */
  ghost predicate Reordered(g: Graph, h: Graph) {
    h.Keys == g.Keys && forall id | id in g :: multiset(h[id]) == multiset(g[id])
  }

  // ---------------------------------------------------------------- no entrance, no failure

  /** A cycle that an earlier root has left grey. */
  ghost predicate LeftGray(g: Graph, s: Search, id: string, c: seq<string>)
    requires s.color.Keys == g.Keys
  {
    Cycle(g, c) && id in c && forall x | x in c :: x in g && s.color[x] == Gray && x !in s.path
  }

  ghost predicate PathIsGray(g: Graph, s: Search)
    requires OnWalk(g, s)
  {
    && (forall i | 0 <= i < |s.path| :: s.color[s.path[i]] == Gray)
    && (forall i, j | 0 <= i < j < |s.path| :: s.path[i] != s.path[j])
  }

  ghost predicate OthersLeftGray(g: Graph, s: Search)
    requires s.color.Keys == g.Keys
  {
    forall id | id in g && s.color[id] == Gray && id !in s.path :: exists c :: LeftGray(g, s, id, c)
  }

  /** The path is a grey walk without repetitions, and every other grey id lies on a cycle left grey. */
  ghost predicate GrayIsCyclic(g: Graph, s: Search) {
    OnWalk(g, s) && PathIsGray(g, s) && OthersLeftGray(g, s)
  }

  ghost predicate PathClosesUp(g: Graph, s: Search) {
    s.path != [] && Cycle(g, s.path + [s.path[0]])
  }

  ghost predicate Unfailing(g: Graph, t: Search, v: Verdict) {
    v != Raised && GrayIsCyclic(g, t) && (v == Found ==> PathClosesUp(g, t))
  }

  /** A step that keeps the grey ids off the path, and the path's share of the others, keeps their cycles. */
  lemma CyclesStayGray(g: Graph, s: Search, t: Search)
    requires s.color.Keys == t.color.Keys == g.Keys && OthersLeftGray(g, s)
    requires forall x | x in g :: s.color[x] == Gray && x !in s.path <==> t.color[x] == Gray && x !in t.path
    ensures OthersLeftGray(g, t)
  {
    hide Cycle;
    forall id | id in g && t.color[id] == Gray && id !in t.path
      ensures exists c :: LeftGray(g, t, id, c)
    {
      var c :| LeftGray(g, s, id, c);
      assert LeftGray(g, t, id, c);
    }
  }

  lemma EnteringKeepsGray(g: Graph, node: string, s: Search)
    requires GrayIsCyclic(g, s) && node in g && s.color[node] == White
    requires s.path == [] || Edge(g, s.path[|s.path| - 1], node)
    ensures GrayIsCyclic(g, Entered(s, node))
  {
    hide OthersLeftGray;
    CyclesStayGray(g, s, Entered(s, node));
  }

  lemma LeavingKeepsGray(g: Graph, node: string, s: Search)
    requires GrayIsCyclic(g, s) && s.path != [] && s.path[|s.path| - 1] == node
    ensures GrayIsCyclic(g, Left(s, node))
  {
    hide OthersLeftGray;
    var t := Left(s, node);
    assert s.path == t.path + [node];
    CyclesStayGray(g, s, t);
  }

  /** A grey dependency is on the path, and closes the whole path to a cycle. */
  lemma GrayDependencyIsTheRoot(g: Graph, s: Search, dep: string)
    requires GrayIsCyclic(g, s) && !HasEntrance(g)
    requires s.path != [] && Edge(g, s.path[|s.path| - 1], dep) && s.color[dep] == Gray
    ensures dep in s.path && PathClosesUp(g, s)
  {
    var last := s.path[|s.path| - 1];
    if dep !in s.path {
      var c :| LeftGray(g, s, dep, c);
      assert EntersCycle(g, last, dep, c);
    } else {
      var k := IndexOf(s.path, dep);
      var c := s.path[k..] + [dep];
      ClosingIsACycle(g, s.path, dep);
      if k > 0 {
        assert Edge(g, s.path[k - 1], s.path[k]);
        assert EntersCycle(g, s.path[k - 1], dep, c);
      }
      assert c == s.path + [s.path[0]];
    }
  }

  lemma GrayNeverFails(g: Graph, node: string, i: nat, s: Search)
    requires GrayIsCyclic(g, s) && !HasEntrance(g) && node in g && i < |g[node]|
    requires s.path != [] && s.path[|s.path| - 1] == node
    requires g[node][i] in g && s.color[g[node][i]] == Gray
    ensures var (t, v) := Visit(g, g[node], i, s); Unfailing(g, t, v)
  {
    hide OthersLeftGray, HasEntrance;
    assert Edge(g, node, g[node][i]);
    GrayDependencyIsTheRoot(g, s, g[node][i]);
    var (t, v) := Visit(g, g[node], i, s);
    assert v == Found && t.path == s.path && t.color == s.color;
    CyclesStayGray(g, s, t);
  }

  lemma {:induction false} DfsNeverFails(g: Graph, node: string, s: Search)
    requires GrayIsCyclic(g, s) && !HasEntrance(g) && node in g && s.color[node] == White
    requires s.path == [] || Edge(g, s.path[|s.path| - 1], node)
    ensures var (t, v) := Dfs(g, node, s); Unfailing(g, t, v)
    decreases Whites(s), 0
  {
    hide OthersLeftGray, PathIsGray, HasEntrance;
    var entered := Entered(s, node);
    assert node in Whites(s) && node !in Whites(entered);
    EnteringKeepsGray(g, node, s);
    VisitNeverFails(g, node, 0, entered);
    var (t, v) := Visit(g, g[node], 0, entered);
    if v == NoCycle {
      assert t.path == s.path + [node];
      LeavingKeepsGray(g, node, t);
    }
  }

  lemma {:induction false} VisitNeverFails(g: Graph, node: string, i: nat, s: Search)
    requires GrayIsCyclic(g, s) && !HasEntrance(g) && node in g && i <= |g[node]|
    requires s.path != [] && s.path[|s.path| - 1] == node
    ensures var (t, v) := Visit(g, g[node], i, s); Unfailing(g, t, v)
    decreases Whites(s), |g[node]| - i + 1
  {
    hide OthersLeftGray, PathIsGray, HasEntrance, PathClosesUp, Chain;
    if i < |g[node]| {
      var dep := g[node][i];
      if dep !in g {
        VisitNeverFails(g, node, i + 1, s);
      } else {
        assert Edge(g, node, dep);
        match s.color[dep]
        case Black =>
          VisitNeverFails(g, node, i + 1, s);
        case Gray =>
          GrayNeverFails(g, node, i, s);
        case White =>
          DfsNeverFails(g, dep, s);
          var (t, v) := Dfs(g, dep, s);
          if v == NoCycle {
            VisitNeverFails(g, node, i + 1, t);
          }
      }
    }
  }

  /** The next root starts with an empty path; a path that closed up has become a cycle left grey. */
  lemma NextRoot(g: Graph, t: Search, v: Verdict)
    requires Unfailing(g, t, v) && (v == NoCycle ==> t.path == [])
    ensures GrayIsCyclic(g, t.(path := []))
  {
    var u := t.(path := []);
    forall id | id in g && u.color[id] == Gray
      ensures exists c :: LeftGray(g, u, id, c)
    {
      if id in t.path {
        assert LeftGray(g, u, id, t.path + [t.path[0]]);
      } else {
        var c :| LeftGray(g, t, id, c);
        assert LeftGray(g, u, id, c);
      }
    }
  }

  lemma {:induction false} DetectNeverFails(g: Graph, roots: seq<string>, i: nat, s: Search)
    requires i <= |roots| && (forall id | id in roots :: id in g)
    requires GrayIsCyclic(g, s.(path := [])) && !HasEntrance(g)
    ensures Detect(g, roots, i, s).1 != Raised
    decreases |roots| - i
  {
    hide OthersLeftGray, PathIsGray, HasEntrance;
    if i < |roots| {
      if s.color[roots[i]] != White {
        DetectNeverFails(g, roots, i + 1, s);
      } else {
        DfsNeverFails(g, roots[i], s.(path := []));
        var (t, v) := Dfs(g, roots[i], s.(path := []));
        NextRoot(g, t, v);
        DetectNeverFails(g, roots, i + 1, t);
      }
    }
  }

  // ---------------------------------------------------------------- an entrance makes some order fail

  /** The list with `x` moved to its front. */
  function Front(s: seq<string>, x: string): (r: seq<string>)
    ensures multiset(r) == multiset(s)
    ensures x in s ==> r != [] && r[0] == x
    ensures x in s && s[0] != x ==> |r| >= 2 && r[1] == s[0]
  {
    if x !in s then s
    else
      var k := IndexOf(s, x);
      assert s == s[..k] + [x] + s[k + 1..];
      [x] + (s[..k] + s[k + 1..])
  }

  /** Every id of `region` depends first of all on an id of `region`. */
  ghost predicate StaysIn(g: Graph, region: set<string>) {
    region <= g.Keys && forall id | id in region :: g[id] != [] && g[id][0] in region
  }

  /** Nothing in the region is finished, and what is grey there is on the path. */
  ghost predicate Fresh(g: Graph, region: set<string>, s: Search) {
    && s.color.Keys == g.Keys
    && forall id | id in region && id in g :: s.color[id] != Black && (s.color[id] == Gray ==> id in s.path)
  }

  /** Such a region is never left: the search runs into its own path there, and leaves the node grey. */
  lemma {:induction false} RegionTraps(g: Graph, region: set<string>, node: string, s: Search)
    requires StaysIn(g, region) && Fresh(g, region, s) && node in region && s.color[node] == White
    ensures var (t, v) := Dfs(g, node, s);
            && v == Found
            && t.color[node] == Gray
            && forall id | id in g :: (s.color[id] == Gray ==> t.color[id] == Gray) && (id !in region ==> t.color[id] == s.color[id])
    decreases Whites(s)
  {
    var entered := Entered(s, node);
    assert node in Whites(s) && node !in Whites(entered);
    var next := g[node][0];
    if entered.color[next] == White {
      RegionTraps(g, region, next, entered);
    } else {
      assert next in entered.path;
    }
  }

  function Successor(c: seq<string>, x: string): string
    requires x in c
  {
    var i := IndexOf(c, x);
    if i + 1 < |c| then c[i + 1] else x
  }

  lemma SuccessorIsNext(g: Graph, c: seq<string>, x: string)
    requires Cycle(g, c) && x in c
    ensures Successor(c, x) in c && Edge(g, x, Successor(c, x))
  {
    var i := IndexOf(c, x);
    assert i < |c| - 1;
    assert Edge(g, c[i], c[i + 1]);
  }

  /** The graph that iterates over a preferred dependency first. */
  function Preferring(g: Graph, first: map<string, string>): (h: Graph)
    ensures Reordered(g, h)
  {
    map x | x in g :: if x in first then Front(g[x], first[x]) else g[x]
  }

  /** Every id of the cycle prefers its successor, and the id outside it the cycle. */
  function IntoCycle(c: seq<string>, id: string, dep: string): map<string, string> {
    (map x | x in c :: Successor(c, x))[id := dep]
  }

  lemma PreferringTheCycle(g: Graph, c: seq<string>, id: string, dep: string)
    requires EntersCycle(g, id, dep, c)
    ensures var h := Preferring(g, IntoCycle(c, id, dep));
            StaysIn(h, set x | x in c) && h[id] != [] && h[id][0] == dep
  {
    hide Cycle;
    var first := IntoCycle(c, id, dep);
    var h := Preferring(g, first);
    forall x | x in c
      ensures x in g && h[x] != [] && h[x][0] in c
    {
      SuccessorIsNext(g, c, x);
      assert first[x] == Successor(c, x);
    }
  }

  /** A root whose first dependency is grey fails at once. */
  lemma GrayFirstFails(h: Graph, id: string, s: Search)
    requires s.color.Keys == h.Keys && id in h && s.color[id] == White && s.path == []
    requires h[id] != [] && h[id][0] in h && h[id][0] != id && s.color[h[id][0]] == Gray
    ensures Dfs(h, id, s).1 == Raised
  {
    var entered := Entered(s, id);
    assert entered.path == [id];
    assert Visit(h, h[id], 0, entered).1 == Raised;
  }

  lemma EntranceFails(h: Graph, region: set<string>, roots: seq<string>, id: string, dep: string)
    requires |roots| >= 2 && roots[0] == dep && roots[1] == id && forall x | x in roots :: x in h
    requires StaysIn(h, region) && dep in region && id !in region && h[id] != [] && h[id][0] == dep
    ensures Detect(h, roots, 0, Start(h)).1 == Raised
  {
    hide Dfs, StaysIn;
    var s := Start(h);
    assert s.(path := []) == s;
    assert id in h && dep in h;
    RegionTraps(h, region, dep, s);
    var t := Dfs(h, dep, s).0;
    GrayFirstFails(h, id, t.(path := []));
    assert Detect(h, roots, 1, t).1 == Raised;
  }

  // ---------------------------------------------------------------- exactly when

  lemma ReorderedEdges(g: Graph, h: Graph)
    requires Reordered(g, h)
    ensures forall x, y :: Edge(g, x, y) <==> Edge(h, x, y)
  {
    forall x, y
      ensures Edge(g, x, y) <==> Edge(h, x, y)
    {
      if x in g {
        assert y in g[x] <==> y in multiset(g[x]);
        assert y in h[x] <==> y in multiset(h[x]);
      }
    }
  }

  lemma ReorderedEntrance(g: Graph, h: Graph)
    requires Reordered(g, h) && HasEntrance(h)
    ensures HasEntrance(g)
  {
    var id, dep, c :| EntersCycle(h, id, dep, c);
    ReorderedEdges(g, h);
    assert EntersCycle(g, id, dep, c);
  }

  /** Some iteration order of the dependencies and the roots makes the search fail. */
  ghost predicate CanFail(g: Graph, roots: seq<string>) {
    exists h: Graph, order: seq<string> ::
      Reordered(g, h) && multiset(order) == multiset(roots) && Fails(h, order)
  }

  ghost predicate Fails(g: Graph, roots: seq<string>) {
    (forall id | id in roots :: id in g) && Detect(g, roots, 0, Start(g)).1 == Raised
  }

  lemma EnteredCanFail(g: Graph, roots: seq<string>)
    requires (forall id :: id in roots <==> id in g) && HasEntrance(g)
    ensures CanFail(g, roots)
  {
    hide Cycle, StaysIn, Detect, Preferring;
    var id, dep, c :| EntersCycle(g, id, dep, c);
    var h := Preferring(g, IntoCycle(c, id, dep));
    PreferringTheCycle(g, c, id, dep);
    var order := Front(Front(roots, id), dep);
    forall x
      ensures x in order <==> x in roots
    {
      assert x in order <==> x in multiset(order);
    }
    EntranceFails(h, (set x | x in c), order, id, dep);
    assert Fails(h, order);
  }

  lemma UnenteredNeverFails(g: Graph, roots: seq<string>)
    requires (forall id | id in roots :: id in g) && !HasEntrance(g)
    ensures Detect(g, roots, 0, Start(g)).1 != Raised
  {
    assert Start(g).(path := []) == Start(g);
    DetectNeverFails(g, roots, 0, Start(g));
  }

  /** The lookup can fail if and only if a known id outside some cycle depends on an id in it.  Without
      such an entrance no iteration order raises. */
  lemma FailsInSomeOrderIffEntered(g: Graph, roots: seq<string>)
    requires forall id :: id in roots <==> id in g
    ensures CanFail(g, roots) <==> HasEntrance(g)
  {
    hide Detect, HasEntrance, Reordered;
    if CanFail(g, roots) {
      var h, order :| Reordered(g, h) && multiset(order) == multiset(roots) && Fails(h, order);
      if !HasEntrance(h) {
        UnenteredNeverFails(h, order);
      }
      ReorderedEntrance(g, h);
    }
    if HasEntrance(g) {
      EnteredCanFail(g, roots);
    }
  }
}
