/** Three-colour depth-first search for circular step dependencies.

    A graph maps every known step id to its dependencies, listed in the order in which the search happens
    to iterate over them; the theorems hold for every such listing and every order of the roots. */
module CycleDetection {

  type Graph = map<string, seq<string>>

  datatype Color = White | Gray | Black

  /** The variables of a search.  `finished` lists the ids in the order in which they turned black. */
  datatype Search = Search(color: map<string, Color>, path: seq<string>, errors: seq<seq<string>>, finished: seq<string>)

  /** `Raised` is the ValueError of looking up an id that is not in the path. */
  datatype Verdict = NoCycle | Found | Raised

  ghost function Whites(s: Search): set<string> {
    set id | id in s.color && s.color[id] == White
  }

  function IndexOf(path: seq<string>, id: string): (i: nat)
    requires id in path
    ensures i < |path| && path[i] == id && id !in path[..i]
  {
    if path[0] == id then 0 else 1 + IndexOf(path[1..], id)
  }

  // ---------------------------------------------------------------- the search

  ghost predicate Shrinks(s: Search, t: Search) {
    t.color.Keys == s.color.Keys && Whites(t) <= Whites(s)
  }

  function Entered(s: Search, node: string): Search {
    s.(color := s.color[node := Gray], path := s.path + [node])
  }

  function Left(s: Search, node: string): Search
    requires s.path != []
  {
    s.(color := s.color[node := Black], path := s.path[..|s.path| - 1], finished := s.finished + [node])
  }

  function Dfs(g: Graph, node: string, s: Search): (r: (Search, Verdict))
    requires s.color.Keys == g.Keys && node in g && s.color[node] == White
    ensures Shrinks(s, r.0)
    ensures r.1 == NoCycle ==> r.0.path == s.path
    decreases Whites(s), 0
  {
    var entered := Entered(s, node);
    assert node in Whites(s) && node !in Whites(entered);
    var (t, v) := Visit(g, g[node], 0, entered);
    if v != NoCycle then (t, v)
    else
      assert t.path == s.path + [node];
      (Left(t, node), NoCycle)
  }

  /** The loop over the dependencies of one node, from the `i`-th on. */
  function Visit(g: Graph, deps: seq<string>, i: nat, s: Search): (r: (Search, Verdict))
    requires s.color.Keys == g.Keys && i <= |deps|
    ensures Shrinks(s, r.0)
    ensures r.1 == NoCycle ==> r.0.path == s.path
    decreases Whites(s), |deps| - i + 1
  {
    if i == |deps| then (s, NoCycle)
    else
      var dep := deps[i];
      if dep !in s.color then Visit(g, deps, i + 1, s)
      else match s.color[dep]
        case Gray =>
          if dep in s.path
          then (s.(errors := s.errors + [s.path[IndexOf(s.path, dep)..] + [dep]]), Found)
          else (s, Raised)
        case White =>
          var (t, v) := Dfs(g, dep, s);
          if v != NoCycle then (t, v) else Visit(g, deps, i + 1, t)
        case Black => Visit(g, deps, i + 1, s)
  }

  /** The loop over the roots.  Every root starts with an empty path but with the colours left so far. */
  function Detect(g: Graph, roots: seq<string>, i: nat, s: Search): (r: (Search, Verdict))
    requires s.color.Keys == g.Keys && i <= |roots| && forall id | id in roots :: id in g
    ensures r.0.color.Keys == g.Keys
    decreases |roots| - i
  {
    if i == |roots| then (s, NoCycle)
    else if s.color[roots[i]] != White then Detect(g, roots, i + 1, s)
    else
      var (t, v) := Dfs(g, roots[i], s.(path := []));
      if v == Raised then (t, v) else Detect(g, roots, i + 1, t)
  }

  function Start(g: Graph): Search {
    Search(map id | id in g :: White, [], [], [])
  }

  // ---------------------------------------------------------------- the search as a program

  class Detector {
    const deps: Graph
    var color: map<string, Color>
    var path: seq<string>
    var errors: seq<seq<string>>
    ghost var finished: seq<string>

    constructor (g: Graph)
      ensures deps == g && View() == Start(g)
    {
      deps := g;
      color := map id | id in g :: White;
      path := [];
      errors := [];
      finished := [];
    }

    ghost function View(): Search
      reads this
    {
      Search(color, path, errors, finished)
    }

    method RunDfs(node: string) returns (v: Verdict)
      requires color.Keys == deps.Keys && node in deps && color[node] == White
      modifies this
      ensures (View(), v) == Dfs(deps, node, old(View()))
      decreases Whites(View()), 0
    {
      ghost var entered := Entered(View(), node);
      assert node in Whites(View()) && node !in Whites(entered);
      color := color[node := Gray];
      path := path + [node];
      var i := 0;
      while i < |deps[node]|
        invariant 0 <= i <= |deps[node]|
        invariant color.Keys == deps.Keys && Shrinks(entered, View())
        invariant Visit(deps, deps[node], i, View()) == Visit(deps, deps[node], 0, entered)
        decreases |deps[node]| - i
      {
        var dep := deps[node][i];
        if dep in color {
          if color[dep] == Gray {
            if dep !in path {
              return Raised;
            }
            errors := errors + [path[IndexOf(path, dep)..] + [dep]];
            return Found;
          }
          if color[dep] == White {
            var inner := RunDfs(dep);
            if inner != NoCycle {
              return inner;
            }
          }
        }
        i := i + 1;
      }
      assert path == old(path) + [node];
      path := path[..|path| - 1];
      color := color[node := Black];
      finished := finished + [node];
      return NoCycle;
    }

    method DetectCycles(roots: seq<string>) returns (v: Verdict)
      requires View() == Start(deps) && forall id | id in roots :: id in deps
      modifies this
      ensures (View(), v) == Detect(deps, roots, 0, Start(deps))
    {
      hide Dfs;
      var i := 0;
      while i < |roots|
        invariant 0 <= i <= |roots|
        invariant color.Keys == deps.Keys
        invariant Detect(deps, roots, i, View()) == Detect(deps, roots, 0, Start(deps))
      {
        ghost var s := View();
        if color[roots[i]] == White {
          path := [];
          assert View() == s.(path := []);
          v := RunDfs(roots[i]);
          if v == Raised {
            return v;
          }
        }
        i := i + 1;
      }
      return NoCycle;
    }
  }

  // ---------------------------------------------------------------- cycles and orders, independently

  ghost predicate Edge(g: Graph, x: string, y: string) {
    x in g && y in g && y in g[x]
  }

  ghost predicate Chain(g: Graph, path: seq<string>) {
    && (forall i | 0 <= i < |path| :: path[i] in g)
    && (forall i | 0 <= i < |path| - 1 :: Edge(g, path[i], path[i + 1]))
  }

  /** A closed walk along dependency edges. */
  ghost predicate Cycle(g: Graph, c: seq<string>) {
    |c| >= 2 && c[0] == c[|c| - 1] && Chain(g, c)
  }

  ghost predicate HasCycle(g: Graph) {
    exists c :: Cycle(g, c)
  }

  /** Every id comes after all the known ids it depends on, and none comes twice. */
  ghost predicate Topological(g: Graph, order: seq<string>) {
    && (forall i | 0 <= i < |order| :: order[i] in g)
    && (forall i, dep | 0 <= i < |order| && Edge(g, order[i], dep) :: dep in order[..i])
    && (forall i, j | 0 <= i < j < |order| :: order[i] != order[j])
  }

  /** Along a walk, positions in a topological order fall by at least one per edge. */
  lemma {:induction false} PositionsFall(g: Graph, order: seq<string>, c: seq<string>, k: nat)
    requires Topological(g, order) && Chain(g, c) && k < |c|
    requires forall i | 0 <= i < |c| :: c[i] in order
    ensures IndexOf(order, c[k]) + k <= IndexOf(order, c[0])
  {
    if k > 0 {
      PositionsFall(g, order, c, k - 1);
      var at := IndexOf(order, c[k - 1]);
      assert Edge(g, order[at], c[k]);
      assert c[k] in order[..at];
      var j :| 0 <= j < at && order[j] == c[k];
      assert IndexOf(order, c[k]) == j;
    }
  }

  lemma OrderExcludesCycles(g: Graph, order: seq<string>)
    requires Topological(g, order) && forall id | id in g :: id in order
    ensures !HasCycle(g)
  {
    if HasCycle(g) {
      var c :| Cycle(g, c);
      PositionsFall(g, order, c, |c| - 1);
      assert false;
    }
  }

  // ---------------------------------------------------------------- what the search keeps

  /** The path is a walk in the graph. */
  ghost predicate OnWalk(g: Graph, s: Search) {
    s.color.Keys == g.Keys && Chain(g, s.path)
  }

  /** As long as no cycle has been found, the grey ids are those on the path, and the black ones, in
      finishing order, are topologically ordered. */
  ghost predicate Clean(g: Graph, s: Search) {
    && s.color.Keys == g.Keys
    && (forall id | id in g :: s.color[id] == Gray <==> id in s.path)
    && (forall id | id in g :: s.color[id] == Black <==> id in s.finished)
    && Topological(g, s.finished)
  }

  ghost predicate Darkens(s: Search, t: Search) {
    && t.color.Keys == s.color.Keys
    && (forall id | id in s.color && s.color[id] == Black :: t.color[id] == Black)
  }

  /** What a call reports: nothing new, one more real cycle, or, never from a clean state, a stale grey id. */
  ghost predicate Reports(g: Graph, s: Search, t: Search, v: Verdict) {
    && (v == Found ==> |t.errors| == |s.errors| + 1 && t.errors[..|s.errors|] == s.errors && Cycle(g, t.errors[|s.errors|]))
    && (v != Found ==> t.errors == s.errors)
    && (Clean(g, s) ==> v != Raised && (v == NoCycle ==> Clean(g, t)))
    && Darkens(s, t)
  }

  ghost predicate AllBlack(g: Graph, deps: seq<string>, i: nat, s: Search)
    requires s.color.Keys == g.Keys
  {
    forall j | i <= j < |deps| && deps[j] in g :: s.color[deps[j]] == Black
  }

  lemma ReportsChain(g: Graph, s: Search, t: Search, u: Search, v: Verdict)
    requires Reports(g, s, t, NoCycle) && Reports(g, t, u, v)
    ensures Reports(g, s, u, v)
  {
  }

  lemma EnteringIsClean(g: Graph, node: string, s: Search)
    requires OnWalk(g, s) && node in g && s.color[node] == White
    requires s.path == [] || Edge(g, s.path[|s.path| - 1], node)
    ensures OnWalk(g, Entered(s, node))
    ensures Clean(g, s) ==> Clean(g, Entered(s, node))
    ensures Darkens(s, Entered(s, node))
  {
  }

  lemma LeavingIsClean(g: Graph, node: string, s: Search)
    requires s.color.Keys == g.Keys && s.path != [] && s.path[|s.path| - 1] == node && node in g
    requires node !in s.path[..|s.path| - 1] && AllBlack(g, g[node], 0, s)
    requires Clean(g, s)
    ensures Clean(g, Left(s, node))
  {
    var t := Left(s, node);
    forall id | id in g
      ensures t.color[id] == Gray <==> id in t.path
    {
      assert id in s.path <==> id in t.path || id == node;
    }
    forall i, dep | 0 <= i < |t.finished| && Edge(g, t.finished[i], dep)
      ensures dep in t.finished[..i]
    {
      if i == |s.finished| {
        var j :| 0 <= j < |g[node]| && g[node][j] == dep;
        assert s.color[dep] == Black;
        assert t.finished[..i] == s.finished;
      } else {
        assert t.finished[..i] == s.finished[..i];
      }
    }
  }

  lemma ClosingIsACycle(g: Graph, path: seq<string>, dep: string)
    requires Chain(g, path) && dep in path && Edge(g, path[|path| - 1], dep)
    ensures Cycle(g, path[IndexOf(path, dep)..] + [dep])
  {
    var k := IndexOf(path, dep);
    var c := path[k..] + [dep];
    forall i | 0 <= i < |c| - 1
      ensures Edge(g, c[i], c[i + 1])
    {
      if i < |c| - 2 {
        assert Edge(g, path[k + i], path[k + i + 1]);
      }
    }
  }

  lemma {:induction false} DfsReports(g: Graph, node: string, s: Search)
    requires OnWalk(g, s) && node in g && s.color[node] == White
    requires s.path == [] || Edge(g, s.path[|s.path| - 1], node)
    ensures var (t, v) := Dfs(g, node, s);
            Reports(g, s, t, v) && (v == NoCycle ==> t.color[node] == Black)
    decreases Whites(s), 0
  {
    var entered := Entered(s, node);
    assert node in Whites(s) && node !in Whites(entered);
    EnteringIsClean(g, node, s);
    VisitReports(g, node, 0, entered);
    var (t, v) := Visit(g, g[node], 0, entered);
    if v == NoCycle {
      assert t.path == s.path + [node];
      if Clean(g, s) {
        assert node !in s.path;
        LeavingIsClean(g, node, t);
      }
    }
  }

  lemma GrayReports(g: Graph, node: string, i: nat, s: Search)
    requires OnWalk(g, s) && node in g && i < |g[node]|
    requires s.path != [] && s.path[|s.path| - 1] == node
    requires g[node][i] in g && s.color[g[node][i]] == Gray
    ensures var (t, v) := Visit(g, g[node], i, s); Reports(g, s, t, v) && v != NoCycle
  {
    var dep := g[node][i];
    assert Edge(g, node, dep);
    if dep in s.path {
      ClosingIsACycle(g, s.path, dep);
    }
  }

  lemma {:induction false} VisitReports(g: Graph, node: string, i: nat, s: Search)
    requires OnWalk(g, s) && node in g && i <= |g[node]|
    requires s.path != [] && s.path[|s.path| - 1] == node
    ensures var (t, v) := Visit(g, g[node], i, s);
            Reports(g, s, t, v) && (v == NoCycle ==> AllBlack(g, g[node], i, t))
    decreases Whites(s), |g[node]| - i + 1
  {
    if i < |g[node]| {
      var dep := g[node][i];
      if dep !in g {
        VisitReports(g, node, i + 1, s);
      } else {
        match s.color[dep]
        case Black =>
          VisitReports(g, node, i + 1, s);
        case Gray =>
          GrayReports(g, node, i, s);
        case White =>
          assert Edge(g, node, dep);
          DfsReports(g, dep, s);
          var (t, v) := Dfs(g, dep, s);
          if v == NoCycle {
            VisitReports(g, node, i + 1, t);
            ReportsChain(g, s, t, Visit(g, g[node], i + 1, t).0, Visit(g, g[node], i + 1, t).1);
          }
      }
      hide Clean, Cycle, Chain;
    }
  }

  // ---------------------------------------------------------------- the whole detection

  /** Between roots: every error is a real cycle, and without one the search is clean and the roots done
      so far are black. */
  ghost predicate Between(g: Graph, roots: seq<string>, i: nat, s: Search)
    requires i <= |roots|
  {
    && s.color.Keys == g.Keys
    && (forall k | 0 <= k < |s.errors| :: Cycle(g, s.errors[k]))
    && (s.errors == [] ==>
          && Clean(g, s.(path := []))
          && forall j | 0 <= j < i && roots[j] in g :: s.color[roots[j]] == Black)
  }

  lemma RootKeepsBetween(g: Graph, roots: seq<string>, i: nat, s: Search)
    requires i < |roots| && roots[i] in g && Between(g, roots, i, s) && s.color[roots[i]] == White
    ensures var (t, v) := Dfs(g, roots[i], s.(path := []));
            && (v != Raised ==> Between(g, roots, i + 1, t))
            && (v == Raised ==> t.errors == s.errors && s.errors != [])
  {
    var s0 := s.(path := []);
    DfsReports(g, roots[i], s0);
    var (t, v) := Dfs(g, roots[i], s0);
    forall k | v != Raised && 0 <= k < |t.errors|
      ensures Cycle(g, t.errors[k])
    {
      if k < |s.errors| {
        assert t.errors[k] == s.errors[k];
      }
    }
    if v == NoCycle {
      assert t.path == [];
      assert t.(path := []) == t;
    }
  }

  lemma {:induction false} SearchIsCorrect(g: Graph, roots: seq<string>, i: nat, s: Search)
    requires i <= |roots| && (forall id | id in roots :: id in g) && Between(g, roots, i, s)
    ensures var (t, v) := Detect(g, roots, i, s);
            && (v == Raised ==> t.errors != [] && forall k | 0 <= k < |t.errors| :: Cycle(g, t.errors[k]))
            && (v != Raised ==> Between(g, roots, |roots|, t))
    decreases |roots| - i
  {
    if i < |roots| {
      if s.color[roots[i]] != White {
        assert s.errors == [] ==> s.color[roots[i]] == Black;
        SearchIsCorrect(g, roots, i + 1, s);
      } else {
        RootKeepsBetween(g, roots, i, s);
        var (t, v) := Dfs(g, roots[i], s.(path := []));
        if v != Raised {
          SearchIsCorrect(g, roots, i + 1, t);
        }
      }
    }
  }

  /** For every iteration order: the detection returns without an error exactly when the known ids have no
      circular dependency, and then its finishing order is a topological order of all of them; every
      reported cycle is real; and the lookup failure happens only after a real cycle has been found. */
  lemma DetectionIsExact(g: Graph, roots: seq<string>)
    requires forall id :: id in roots <==> id in g
    ensures var (t, v) := Detect(g, roots, 0, Start(g));
            && (v != Raised && t.errors == [] <==> !HasCycle(g))
            && (forall k | 0 <= k < |t.errors| :: Cycle(g, t.errors[k]))
            && (v == Raised ==> t.errors != [] && HasCycle(g))
            && (!HasCycle(g) ==> Topological(g, t.finished) && forall id | id in g :: id in t.finished)
  {
    assert Start(g).(path := []) == Start(g);
    SearchIsCorrect(g, roots, 0, Start(g));
    var (t, v) := Detect(g, roots, 0, Start(g));
    if v != Raised && t.errors == [] {
      forall id | id in g
        ensures id in t.finished
      {
        var j :| 0 <= j < |roots| && roots[j] == id;
        assert t.color[roots[j]] == Black;
      }
      OrderExcludesCycles(g, t.finished);
    } else {
      assert Cycle(g, t.errors[0]);
    }
  }

  /** The lookup failure does happen: the cycle of `a` and `b` leaves both grey, and `c`, a later root that
      depends on `a`, then finds a grey id that is not on its own path. */
  lemma StaleGrayRaises()
    ensures var g: Graph := map["a" := ["b"], "b" := ["a"], "c" := ["a"]];
            Detect(g, ["a", "b", "c"], 0, Start(g)).1 == Raised
  {
    var g: Graph := map["a" := ["b"], "b" := ["a"], "c" := ["a"]];
    var s0 := Start(g);
    var s1 := Entered(s0, "a");
    var s2 := Entered(s1, "b");
    assert s2.path == ["a", "b"];
    var (t, v) := Visit(g, ["a"], 0, s2);
    assert v == Found;
    assert Dfs(g, "b", s1) == (t, Found);
    assert Visit(g, ["b"], 0, s1) == (t, Found);
    assert Dfs(g, "a", s0) == (t, Found);
    assert Detect(g, ["a", "b", "c"], 0, s0) == Detect(g, ["a", "b", "c"], 1, t);
    assert t.color["b"] == Gray;
    var u := t.(path := []);
    assert Entered(u, "c").path == ["c"];
    assert Visit(g, ["a"], 0, Entered(u, "c")).1 == Raised;
    assert Dfs(g, "c", u).1 == Raised;
  }
}
