/** The CSS importer traversal of packages/vite-plugin/src/node/getCSSImportDeps.ts:
    starting from a module, follow `importers` edges through CSS modules (and, by
    default, only self-accepting ones), guarded by the set of nodes found so far. */
module CssImportDeps {

  /** The languages of `CSS_LANGS_RE`. */
  const CssLangs: seq<string> := ["css", "less", "sass", "scss", "styl", "stylus", "pcss", "postcss", "sss"]

  /** `lang` starts at `j` in `u` and is followed by the end of `u` or by `?`. */
  predicate LangAt(u: string, j: nat, lang: string) {
    j + |lang| <= |u| && u[j..j + |lang|] == lang && (j + |lang| == |u| || u[j + |lang|] == '?')
  }

  /** One match of `CSS_LANGS_RE` starting at the `.` at index `i`. */
  predicate MatchAt(u: string, i: nat) {
    i < |u| && u[i] == '.' && exists k :: 0 <= k < |CssLangs| && LangAt(u, i + 1, CssLangs[k])
  }

  /** `CSS_LANGS_RE.test(u)` from index `i` on. */
  predicate MatchFrom(u: string, i: nat)
    decreases |u| - i
  {
    i < |u| && (MatchAt(u, i) || MatchFrom(u, i + 1))
  }

  /** `isCSSRequest(request)`. */
  predicate IsCssRequest(u: string) {
    MatchFrom(u, 0)
  }

  lemma {:induction false} MatchFromSpec(u: string, i: nat)
    ensures MatchFrom(u, i) <==> exists j :: i <= j < |u| && MatchAt(u, j)
    decreases |u| - i
  {
    if i < |u| {
      MatchFromSpec(u, i + 1);
    }
  }

  /** A request is CSS iff some `.` is followed by one of the CSS languages and then by
      the end of the request or a query. */
  lemma IsCssRequestSpec(u: string)
    ensures IsCssRequest(u) <==>
      exists i, k :: 0 <= i < |u| && 0 <= k < |CssLangs| && u[i] == '.' && LangAt(u, i + 1, CssLangs[k])
  {
    MatchFromSpec(u, 0);
    if IsCssRequest(u) {
      var i :| 0 <= i < |u| && MatchAt(u, i);
      var k :| 0 <= k < |CssLangs| && LangAt(u, i + 1, CssLangs[k]);
    }
    if exists i, k :: 0 <= i < |u| && 0 <= k < |CssLangs| && u[i] == '.' && LangAt(u, i + 1, CssLangs[k]) {
      var i, k :| 0 <= i < |u| && 0 <= k < |CssLangs| && u[i] == '.' && LangAt(u, i + 1, CssLangs[k]);
      assert MatchAt(u, i);
    }
  }

  /** A query after the extension keeps a request CSS. */
  lemma CssRequestExample()
    ensures IsCssRequest("a.css?used")
  {
    assert LangAt("a.css?used", 2, CssLangs[0]) by {
      assert "a.css?used"[2..5] == "css";
    }
    assert MatchAt("a.css?used", 1);
  }

  type Id = nat

  /** vite's module graph as far as the traversal sees it: the known modules, and for
      each its `importers` (in set iteration order), its `url` and `isSelfAccepting`. */
  datatype ModuleGraph = ModuleGraph(
    modules: set<Id>,
    importers: Id -> seq<Id>,
    url: Id -> string,
    isSelfAccepting: Id -> bool)

  /** Every importer of a known module is a known module. */
  ghost predicate Closed(g: ModuleGraph) {
    forall n, k :: n in g.modules && 0 <= k < |g.importers(n)| ==> g.importers(n)[k] in g.modules
  }

  /** A node the traversal keeps and explores. */
  predicate Passes(g: ModuleGraph, selfAccepting: bool, n: Id) {
    (!selfAccepting || g.isSelfAccepting(n)) && IsCssRequest(g.url(n))
  }

  /** `p` is a path along `importers` edges made of passing nodes only. */
  ghost predicate Chain(g: ModuleGraph, selfAccepting: bool, p: seq<Id>) {
    |p| >= 1 &&
    (forall k :: 0 <= k < |p| ==> Passes(g, selfAccepting, p[k])) &&
    (forall k :: 0 <= k < |p| - 1 ==> p[k + 1] in g.importers(p[k]))
  }

  /** `m` is found from one of `list[i..]` by a passing path. */
  ghost predicate FoundFrom(g: ModuleGraph, selfAccepting: bool, list: seq<Id>, i: nat, m: Id) {
    exists j, p :: i <= j < |list| && Chain(g, selfAccepting, p) && p[0] == list[j] && p[|p| - 1] == m
  }

  /** `addDeps(list[i..], nodes)`: the `reduce` from the `i`-th importer on. Every node
      it adds passes both filters and is found from the list; every passing node of the
      list ends up in the result, and so does every passing importer of an added node. */
  function AddDeps(g: ModuleGraph, selfAccepting: bool, list: seq<Id>, i: nat, nodes: set<Id>): (r: set<Id>)
    requires Closed(g) && nodes <= g.modules
    requires forall k :: 0 <= k < |list| ==> list[k] in g.modules
    ensures nodes <= r <= g.modules
    ensures forall n :: n in r - nodes ==> Passes(g, selfAccepting, n)
    ensures forall k :: i <= k < |list| && Passes(g, selfAccepting, list[k]) ==> list[k] in r
    ensures forall n, k :: n in r - nodes && 0 <= k < |g.importers(n)| && Passes(g, selfAccepting, g.importers(n)[k]) ==>
      g.importers(n)[k] in r
    ensures forall m :: m in r - nodes ==> FoundFrom(g, selfAccepting, list, i, m)
    decreases |g.modules - nodes|, |list| - i
  {
    if i >= |list| then nodes
    else
      var n := list[i];
      if n in nodes || !Passes(g, selfAccepting, n) then
        AddDeps(g, selfAccepting, list, i + 1, nodes)
      else
        assert g.modules - (nodes + {n}) < g.modules - nodes;
        var inner := AddDeps(g, selfAccepting, g.importers(n), 0, nodes + {n});
        assert (g.modules - inner) + (inner - nodes) == g.modules - nodes;
        assert (g.modules - inner) * (inner - nodes) == {};
        var r := AddDeps(g, selfAccepting, list, i + 1, inner);
        FoundFromStep(g, selfAccepting, list, i, nodes, inner, r);
        r
  }

  /** A passing node followed by a path from one of its importers is a path. */
  lemma ChainCons(g: ModuleGraph, selfAccepting: bool, n: Id, p: seq<Id>) returns (q: seq<Id>)
    requires Passes(g, selfAccepting, n) && Chain(g, selfAccepting, p) && p[0] in g.importers(n)
    ensures Chain(g, selfAccepting, q) && q[0] == n && q[|q| - 1] == p[|p| - 1]
  {
    q := [n] + p;
    assert q[1] == p[0];
    forall k | 0 <= k < |q| - 1 ensures q[k + 1] in g.importers(q[k]) {
      if k > 0 { assert q[k] == p[k - 1] && q[k + 1] == p[k]; }
    }
  }

  /** Nodes found below `list[i]` or from `list[i+1..]` are found from `list[i..]`. */
  lemma FoundFromStep(g: ModuleGraph, selfAccepting: bool, list: seq<Id>, i: nat, nodes: set<Id>, inner: set<Id>, r: set<Id>)
    requires i < |list| && Passes(g, selfAccepting, list[i])
    requires forall m :: m in inner - (nodes + {list[i]}) ==> FoundFrom(g, selfAccepting, g.importers(list[i]), 0, m)
    requires forall m :: m in r - inner ==> FoundFrom(g, selfAccepting, list, i + 1, m)
    requires nodes + {list[i]} <= inner
    ensures forall m :: m in r - nodes ==> FoundFrom(g, selfAccepting, list, i, m)
  {
    forall m | m in r - nodes ensures FoundFrom(g, selfAccepting, list, i, m) {
      if m == list[i] {
        assert Chain(g, selfAccepting, [m]);
        assert i <= i < |list| && [m][0] == list[i] && [m][|[m]| - 1] == m;
      } else if m in inner {
        assert m in inner - (nodes + {list[i]});
        FoundBelow(g, selfAccepting, list, i, m);
      } else {
        assert m in r - inner;
        FoundLater(g, selfAccepting, list, i, m);
      }
    }
  }

  lemma FoundBelow(g: ModuleGraph, selfAccepting: bool, list: seq<Id>, i: nat, m: Id)
    requires i < |list| && Passes(g, selfAccepting, list[i])
    requires FoundFrom(g, selfAccepting, g.importers(list[i]), 0, m)
    ensures FoundFrom(g, selfAccepting, list, i, m)
  {
    var n := list[i];
    var j, p :| 0 <= j < |g.importers(n)| && Chain(g, selfAccepting, p) &&
      p[0] == g.importers(n)[j] && p[|p| - 1] == m;
    var q := ChainCons(g, selfAccepting, n, p);
  }

  lemma FoundLater(g: ModuleGraph, selfAccepting: bool, list: seq<Id>, i: nat, m: Id)
    requires FoundFrom(g, selfAccepting, list, i + 1, m)
    ensures FoundFrom(g, selfAccepting, list, i, m)
  {
    var j, p :| i + 1 <= j < |list| && Chain(g, selfAccepting, p) && p[0] == list[j] && p[|p| - 1] == m;
  }

  /** `getCSSImportDeps(node, selfAccepting)`. */
  function GetCssImportDeps(g: ModuleGraph, node: Id, selfAccepting: bool := true): (r: set<Id>)
    requires Closed(g) && node in g.modules
    ensures r <= g.modules
    ensures forall n :: n in r ==> IsCssRequest(g.url(n))
    ensures selfAccepting ==> forall n :: n in r ==> g.isSelfAccepting(n)
  {
    var r := AddDeps(g, selfAccepting, g.importers(node), 0, {});
    assert r - {} == r;
    r
  }

  /** `m` is reachable from `node` through importer edges whose every node passes. */
  ghost predicate Reachable(g: ModuleGraph, selfAccepting: bool, node: Id, m: Id) {
    exists p :: Chain(g, selfAccepting, p) && p[0] in g.importers(node) && p[|p| - 1] == m
  }

  /** The result is exactly the set of reachable nodes: rejected nodes stop the search,
      cycles do not make it loop, and nothing else is added. */
  lemma GetCssImportDepsSpec(g: ModuleGraph, node: Id, selfAccepting: bool, m: Id)
    requires Closed(g) && node in g.modules
    ensures m in GetCssImportDeps(g, node, selfAccepting) <==> Reachable(g, selfAccepting, node, m)
  {
    if m in GetCssImportDeps(g, node, selfAccepting) {
      ResultReachable(g, node, selfAccepting, m);
    }
    if Reachable(g, selfAccepting, node, m) {
      var p :| Chain(g, selfAccepting, p) && p[0] in g.importers(node) && p[|p| - 1] == m;
      ChainInResult(g, selfAccepting, node, p, |p|);
    }
  }

  lemma ResultReachable(g: ModuleGraph, node: Id, selfAccepting: bool, m: Id)
    requires Closed(g) && node in g.modules
    requires m in GetCssImportDeps(g, node, selfAccepting)
    ensures Reachable(g, selfAccepting, node, m)
  {
    var list := g.importers(node);
    assert m in AddDeps(g, selfAccepting, list, 0, {}) - {};
    assert FoundFrom(g, selfAccepting, list, 0, m);
    var j, p :| 0 <= j < |list| && Chain(g, selfAccepting, p) && p[0] == list[j] && p[|p| - 1] == m;
  }

  lemma {:induction false} ChainInResult(g: ModuleGraph, selfAccepting: bool, node: Id, p: seq<Id>, n: nat)
    requires Closed(g) && node in g.modules
    requires Chain(g, selfAccepting, p) && p[0] in g.importers(node) && 1 <= n <= |p|
    ensures p[n - 1] in GetCssImportDeps(g, node, selfAccepting)
  {
    var list := g.importers(node);
    var r := AddDeps(g, selfAccepting, list, 0, {});
    assert r == GetCssImportDeps(g, node, selfAccepting);
    if n == 1 {
      var k :| 0 <= k < |list| && list[k] == p[0];
      assert Passes(g, selfAccepting, list[k]);
    } else {
      ChainInResult(g, selfAccepting, node, p, n - 1);
      var k :| 0 <= k < |g.importers(p[n - 2])| && g.importers(p[n - 2])[k] == p[n - 1];
      assert p[n - 2] in r - {};
      assert Passes(g, selfAccepting, g.importers(p[n - 2])[k]);
    }
  }
}
