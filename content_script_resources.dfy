/** The resource graph of src/plugin-contentScriptResources.ts: which output
    answers for a module id (`getChunksById`), how a chunk's imported-resource
    modules split into chunks and assets (`getCrxImportsFromBundle`), and the
    transitive collection both `getResources` closures perform. */
module ContentScriptResources {
  import opened Wrappers
  import opened SeqSet
  import opened Strings
  import opened Helpers
  import ManifestTypes

  /** `o` is a chunk whose `facadeModuleId` is `id`, and `id` is truthy. */
  predicate HasFacade(o: Output, id: string) {
    o.Chunk? && o.facadeModuleId == Some(id) && id != ""
  }

  /** `getChunksById(bundle)`: each facade module id mapped to the output name
      it was emitted under. */
  function ChunksById(b: Bundle): (r: map<string, string>)
    ensures forall id :: id in r <==> exists i :: 0 <= i < |b| && HasFacade(b[i].1, id)
    decreases |b|
  {
    if b == [] then map[]
    else
      var n := |b| - 1;
      var m := ChunksById(b[..n]);
      var r := if b[n].1.Chunk? && b[n].1.facadeModuleId.Some? && b[n].1.facadeModuleId.value != ""
        then m[b[n].1.facadeModuleId.value := b[n].0]
        else m;
      assert forall id :: id in r <==> exists i :: 0 <= i < |b| && HasFacade(b[i].1, id) by {
        forall id ensures id in r <==> exists i :: 0 <= i < |b| && HasFacade(b[i].1, id) {
          if exists i :: 0 <= i < |b| && HasFacade(b[i].1, id) {
            var i :| 0 <= i < |b| && HasFacade(b[i].1, id);
            if i < n { assert HasFacade(b[..n][i].1, id); }
          }
          if id in m {
            var i :| 0 <= i < n && HasFacade(b[..n][i].1, id);
            assert HasFacade(b[i].1, id);
          }
        }
      }
      r
  }

  /** A later output with the same facade overwrites an earlier one: the name kept
      is the one of the last output with that facade. */
  lemma {:induction false} ChunksByIdLastWins(b: Bundle, id: string, i: nat)
    requires i < |b| && HasFacade(b[i].1, id)
    requires forall j :: i < j < |b| ==> !HasFacade(b[j].1, id)
    ensures id in ChunksById(b) && ChunksById(b)[id] == b[i].0
    decreases |b|
  {
    var n := |b| - 1;
    var init := b[..n];
    if i < n {
      forall j | i < j < n ensures !HasFacade(init[j].1, id) {
        assert init[j] == b[j];
      }
      assert init[i] == b[i];
      ChunksByIdLastWins(init, id, i);
      assert !HasFacade(b[n].1, id);
    }
  }



  /** The imported-resource plumbing `getCrxImportsFromBundle` relies on. */
  datatype CrxApi = CrxApi(
    prefix: string,                       // importedResourcePrefix
    pathname: string -> string,           // `stubUrl(m).pathname`
    relative: (string, string) -> string, // path.relative
    root: string)

  /** The module ids that name an imported resource: those starting with the
      prefix, prefix removed and normalised through the stub URL. */
  function ResourceIds(modules: seq<string>, api: CrxApi): (r: seq<string>)
    ensures forall x :: x in r <==>
      (exists m :: m in modules && StartsWith(m, api.prefix) && x == api.pathname(m[|api.prefix|..]))
    ensures |r| <= |modules|
    decreases |modules|
  {
    if modules == [] then []
    else
      var n := |modules| - 1;
      var m := modules[n];
      assert modules == modules[..n] + [m];
      ResourceIds(modules[..n], api) + (if StartsWith(m, api.prefix) then [api.pathname(m[|api.prefix|..])] else [])
  }

  /** `chunksById.get(id)`, when it is truthy. */
  function ChunkOf(chunksById: map<string, string>, id: string): Option<string> {
    if id in chunksById && chunksById[id] != "" then Some(chunksById[id]) else None
  }

  datatype Split = Split(chunks: seq<string>, assets: seq<string>)

  /** The partition the loop of `getCrxImportsFromBundle` computes: ids some chunk
      answers for go to `chunks` as that chunk's name, all others to `assets`,
      relative to the root. */
  function SplitIds(ids: seq<string>, chunksById: map<string, string>, api: CrxApi): (r: Split)
    ensures |r.chunks| + |r.assets| == |ids|
    decreases |ids|
  {
    if ids == [] then Split([], [])
    else
      var n := |ids| - 1;
      var s := SplitIds(ids[..n], chunksById, api);
      match ChunkOf(chunksById, ids[n])
      case Some(c) => s.(chunks := s.chunks + [c])
      case None => s.(assets := s.assets + [api.relative(api.root, ids[n])])
  }

  /** Every id lands on the side its lookup decides, and nothing else lands anywhere. */
  lemma {:induction false} SplitIdsSpec(ids: seq<string>, chunksById: map<string, string>, api: CrxApi)
    ensures forall id :: id in ids && ChunkOf(chunksById, id).Some? ==>
      ChunkOf(chunksById, id).value in SplitIds(ids, chunksById, api).chunks
    ensures forall id :: id in ids && ChunkOf(chunksById, id).None? ==>
      api.relative(api.root, id) in SplitIds(ids, chunksById, api).assets
    ensures forall c :: c in SplitIds(ids, chunksById, api).chunks ==>
      exists id :: id in ids && ChunkOf(chunksById, id) == Some(c)
    ensures forall a :: a in SplitIds(ids, chunksById, api).assets ==>
      exists id :: id in ids && ChunkOf(chunksById, id).None? && a == api.relative(api.root, id)
    decreases |ids|
  {
    if ids != [] {
      var n := |ids| - 1;
      SplitIdsSpec(ids[..n], chunksById, api);
      assert ids == ids[..n] + [ids[n]];
    }
  }

  /** `getCrxImportsFromBundle(modules, chunksById, api)` as a value. */
  function CrxImports(modules: seq<string>, chunksById: map<string, string>, api: CrxApi): Split {
    SplitIds(ResourceIds(modules, api), chunksById, api)
  }

  /** `getCrxImportsFromBundle`: the filter/map pipeline, then the loop pushing each
      resource id onto `chunks` or `assets`. */
  method GetCrxImportsFromBundle(modules: seq<string>, chunksById: map<string, string>, api: CrxApi)
    returns (chunks: seq<string>, assets: seq<string>)
    ensures Split(chunks, assets) == CrxImports(modules, chunksById, api)
  {
    var resources := ResourceIds(modules, api);
    chunks, assets := [], [];
    var i := 0;
    while i < |resources|
      invariant 0 <= i <= |resources|
      invariant Split(chunks, assets) == SplitIds(resources[..i], chunksById, api)
    {
      assert resources[..i + 1][..i] == resources[..i];
      var id := resources[i];
      if id in chunksById && chunksById[id] != "" {
        chunks := chunks + [chunksById[id]];
      } else {
        assets := assets + [api.relative(api.root, id)];
      }
      i := i + 1;
    }
    assert resources[..i] == resources;
  }

  /** One `getResources` call, before it recurses: the assets and css it adds, and
      the imports it adds and recurses into. A child names the file added to
      `imports` and the key `getResources` is called with next; a vite import key
      missing from the vite manifest is `Unresolved`. A name whose output the
      bundle lacks is `Missing`: `isChunk(bundle[name])` reads `type` of `undefined`. */
  datatype Child = Child(file: string, key: string) | Unresolved(key: string)
  datatype Node = Node(assets: seq<string>, css: seq<string>, children: seq<Child>) | Missing

  /** The children a node walks; a missing output has none. */
  function Edges(n: Node): seq<Child> {
    if n.Node? then n.children else []
  }

  /** The three insertion-ordered sets `getResources` fills (`Resources`). */
  datatype Sets = Sets(assets: seq<string>, css: seq<string>, imports: seq<string>)

  const EmptySets := Sets([], [], [])

  /** The graph a `getResources` closure walks, with a rank that is meant to
      decrease along every edge (the source recurses without a visited set). */
  datatype Graph = Graph(node: string -> Node, rank: string -> nat)

  /** `filesData[key].file` on a key the vite manifest lacks. */
  const UnresolvedImportError := Error(TypeError, "Cannot read properties of undefined (reading 'file')")

  /** `isChunk(bundle[name])` on a name the bundle lacks. */
  const UndefinedChunkError := Error(TypeError, "Cannot read properties of undefined (reading 'type')")

  ghost predicate Acyclic(g: Graph) {
    forall name, k :: 0 <= k < |Edges(g.node(name))| ==>
      g.rank(Edges(g.node(name))[k].key) < g.rank(name)
  }

  /** Every child of a node is resolved and names an output the bundle has. */
  ghost predicate Resolved(g: Graph) {
    forall name, k :: 0 <= k < |Edges(g.node(name))| ==>
      Edges(g.node(name))[k].Child? && g.node(Edges(g.node(name))[k].key).Node?
  }

  ghost predicate Grows(s: Sets, t: Sets) {
    s.assets <= t.assets && s.css <= t.css && s.imports <= t.imports
  }

  ghost predicate Distinct(s: Sets) {
    NoDups(s.assets) && NoDups(s.css) && NoDups(s.imports)
  }

  /** `getResources(name, sets)`: fails on a missing output, otherwise adds the
      node's assets and css, then walks its children. An edge that does not go
      down in rank is not followed; under `Acyclic` there is none. */
  function Collect(g: Graph, name: string, sets: Sets): (r: Result<Sets>)
    ensures r.Ok? ==> Grows(sets, r.value) && (Distinct(sets) ==> Distinct(r.value))
    ensures g.node(name).Missing? ==> r == Err(UndefinedChunkError)
    ensures Resolved(g) && g.node(name).Node? ==> r.Ok?
    decreases g.rank(name), 1, 0
  {
    match g.node(name)
    case Missing => Err(UndefinedChunkError)
    case Node(assets, css, children) =>
      var s := Sets(AddAll(sets.assets, assets), AddAll(sets.css, css), sets.imports);
      assert Edges(g.node(name)) == children;
      CollectChildren(g, name, children, s)
  }

  /** The loop over a node's children: `sets.imports.add(file)`, then recurse. */
  function CollectChildren(g: Graph, parent: string, cs: seq<Child>, sets: Sets): (r: Result<Sets>)
    ensures r.Ok? ==> Grows(sets, r.value) && (Distinct(sets) ==> Distinct(r.value))
    ensures Resolved(g) && (forall k :: 0 <= k < |cs| ==> cs[k].Child? && g.node(cs[k].key).Node?) ==> r.Ok?
    decreases g.rank(parent), 0, |cs|
  {
    if cs == [] then Ok(sets)
    else
      var n := |cs| - 1;
      match CollectChildren(g, parent, cs[..n], sets)
      case Err(e) => Err(e)
      case Ok(s) =>
        match cs[n]
        case Unresolved(_) => Err(UnresolvedImportError)
        case Child(file, key) =>
          var s2 := s.(imports := Add(s.imports, file));
          if g.rank(key) < g.rank(parent) then Collect(g, key, s2) else Ok(s2)
  }

  /** Everything a node contributes directly ends up in the collected sets. */
  lemma NodeCollected(g: Graph, name: string, sets: Sets)
    requires Collect(g, name, sets).Ok?
    ensures g.node(name).Node?
    ensures forall a :: a in g.node(name).assets ==> a in Collect(g, name, sets).value.assets
    ensures forall c :: c in g.node(name).css ==> c in Collect(g, name, sets).value.css
  {
  }

  /** The last child of the loop, followed: the loop's result is that child's
      collection, run on the sets the earlier children left plus its file. */
  lemma ChildrenLast(g: Graph, parent: string, cs: seq<Child>, sets: Sets)
    requires |cs| > 0 && g.rank(cs[|cs| - 1].key) < g.rank(parent)
    requires CollectChildren(g, parent, cs, sets).Ok?
    ensures cs[|cs| - 1].Child?
    ensures CollectChildren(g, parent, cs[..|cs| - 1], sets).Ok?
    ensures var s := CollectChildren(g, parent, cs[..|cs| - 1], sets).value;
      CollectChildren(g, parent, cs, sets) == Collect(g, cs[|cs| - 1].key, s.(imports := Add(s.imports, cs[|cs| - 1].file)))
  {
  }

  lemma GrowsTrans(a: Sets, b: Sets, c: Sets)
    requires Grows(a, b) && Grows(b, c)
    ensures Grows(a, c)
  {
  }

  /** A file in some sets stays in every extension of them. */
  lemma GrowsKeeps(a: Sets, b: Sets, file: string)
    requires Grows(a, b) && file in a.imports
    ensures file in b.imports
  {
    var i :| 0 <= i < |a.imports| && a.imports[i] == file;
    assert b.imports[i] == file;
  }

  /** The loop over a prefix of the children succeeds and leaves sets that the
      whole loop extends. */
  lemma {:induction false} PrefixGrows(g: Graph, parent: string, cs: seq<Child>, sets: Sets, i: nat)
    requires forall j :: 0 <= j < |cs| ==> g.rank(cs[j].key) < g.rank(parent)
    requires CollectChildren(g, parent, cs, sets).Ok?
    requires i <= |cs|
    ensures CollectChildren(g, parent, cs[..i], sets).Ok?
    ensures Grows(CollectChildren(g, parent, cs[..i], sets).value, CollectChildren(g, parent, cs, sets).value)
    decreases |cs|
  {
    if i == |cs| {
      assert cs[..i] == cs;
    } else {
      var n := |cs| - 1;
      ChildrenLast(g, parent, cs, sets);
      var s := CollectChildren(g, parent, cs[..n], sets).value;
      var s2 := s.(imports := Add(s.imports, cs[n].file));
      PrefixGrows(g, parent, cs[..n], sets, i);
      assert cs[..n][..i] == cs[..i];
      GrowsTrans(CollectChildren(g, parent, cs[..i], sets).value, s, s2);
      GrowsTrans(CollectChildren(g, parent, cs[..i], sets).value, s2, CollectChildren(g, parent, cs, sets).value);
    }
  }

  /** Each child of a node is resolved, and its own collection ran on sets that
      already held its file and that the final result extends. */
  lemma ChildVisited(g: Graph, parent: string, cs: seq<Child>, sets: Sets, k: nat)
    returns (s': Sets)
    requires forall j :: 0 <= j < |cs| ==> g.rank(cs[j].key) < g.rank(parent)
    requires CollectChildren(g, parent, cs, sets).Ok?
    requires k < |cs|
    ensures cs[k].Child? && cs[k].file in s'.imports
    ensures Collect(g, cs[k].key, s').Ok?
    ensures Grows(Collect(g, cs[k].key, s').value, CollectChildren(g, parent, cs, sets).value)
  {
    var pre := cs[..k + 1];
    PrefixGrows(g, parent, cs, sets, k + 1);
    assert pre[..k] == cs[..k];
    ChildrenLast(g, parent, pre, sets);
    var s := CollectChildren(g, parent, cs[..k], sets).value;
    s' := s.(imports := Add(s.imports, cs[k].file));
  }

  /** `path` is a chain of resolved imports starting at a child of `name`. */
  ghost predicate Chain(g: Graph, name: string, path: seq<Child>) {
    (forall i :: 0 <= i < |path| ==> path[i].Child?) &&
    (|path| > 0 ==> path[0] in Edges(g.node(name))) &&
    (forall i :: 0 < i < |path| ==> path[i] in Edges(g.node(path[i - 1].key)))
  }

  /** On an acyclic graph `getResources` puts every transitively imported file into
      `imports`. */
  lemma {:induction false} CollectReaches(g: Graph, name: string, sets: Sets, path: seq<Child>)
    requires Acyclic(g) && Chain(g, name, path)
    requires Collect(g, name, sets).Ok?
    ensures forall i :: 0 <= i < |path| ==> path[i].file in Collect(g, name, sets).value.imports
    decreases |path|
  {
    if path != [] {
      var r := Collect(g, name, sets).value;
      var s' := FirstStep(g, name, sets, path[0]);
      var r' := Collect(g, path[0].key, s').value;
      ChainTail(g, name, path);
      CollectReaches(g, path[0].key, s', path[1..]);
      forall i | 0 <= i < |path| ensures path[i].file in r.imports {
        if i > 0 {
          assert path[i] == path[1..][i - 1];
          GrowsKeeps(r', r, path[i].file);
        }
      }
    }
  }

  /** Following one edge out of `name`: the child's collection ran on sets holding its
      file, and the collection of `name` extends its result. */
  lemma FirstStep(g: Graph, name: string, sets: Sets, c: Child) returns (s': Sets)
    requires Acyclic(g) && c in Edges(g.node(name))
    requires Collect(g, name, sets).Ok?
    ensures c.Child? && Collect(g, c.key, s').Ok?
    ensures c.file in Collect(g, name, sets).value.imports
    ensures Grows(Collect(g, c.key, s').value, Collect(g, name, sets).value)
  {
    var n := g.node(name);
    var s := Sets(AddAll(sets.assets, n.assets), AddAll(sets.css, n.css), sets.imports);
    assert Collect(g, name, sets) == CollectChildren(g, name, n.children, s);
    var k :| 0 <= k < |n.children| && n.children[k] == c;
    assert forall j :: 0 <= j < |n.children| ==> g.rank(Edges(n)[j].key) < g.rank(name);
    s' := ChildVisited(g, name, n.children, s, k);
    var r := Collect(g, name, sets).value;
    var r' := Collect(g, c.key, s').value;
    GrowsTrans(s', r', r);
    GrowsKeeps(s', r, c.file);
  }

  lemma ChainTail(g: Graph, name: string, path: seq<Child>)
    requires Chain(g, name, path) && path != []
    ensures Chain(g, path[0].key, path[1..])
  {
    forall i | 0 < i < |path[1..]| ensures path[1..][i] in Edges(g.node(path[1..][i - 1].key)) {
      assert path[1..][i] == path[i + 1];
    }
  }

  /** A chunk's imported-resource chunks, as children whose file and key coincide. */
  function ChunkChildren(cs: seq<string>): (r: seq<Child>)
    ensures |r| == |cs| && forall i :: 0 <= i < |cs| ==> r[i] == Child(cs[i], cs[i])
  {
    seq(|cs|, i requires 0 <= i < |cs| => Child(cs[i], cs[i]))
  }

  /** The crx imports of `bundle[file]` when that is a chunk, none otherwise. */
  function CrxImportsOf(b: Bundle, file: string, chunksById: map<string, string>, api: CrxApi): Split {
    match Lookup(b, file)
    case Some(Chunk(_, _, modules, _, _)) => CrxImports(modules, chunksById, api)
    case _ => Split([], [])
  }

  /** What the rollup `getResources` sees at an output name. */
  function RollupNode(b: Bundle, chunksById: map<string, string>, api: CrxApi, name: string): Node {
    if Lookup(b, name).None? then Missing
    else
      var crx := CrxImportsOf(b, name, chunksById, api);
      Node(crx.assets, [], ChunkChildren(crx.chunks))
  }

  function RollupGraph(b: Bundle, api: CrxApi, rank: string -> nat): Graph {
    Graph(name => RollupNode(b, ChunksById(b), api, name), rank)
  }

  /** Every name `getChunksById` maps to is the name of an output of the bundle. */
  lemma {:induction false} ChunksByIdNames(b: Bundle)
    ensures forall id :: id in ChunksById(b) ==> Lookup(b, ChunksById(b)[id]).Some?
    decreases |b|
  {
    if b != [] {
      var n := |b| - 1;
      ChunksByIdNames(b[..n]);
      forall id | id in ChunksById(b) ensures Lookup(b, ChunksById(b)[id]).Some? {
        if HasFacade(b[n].1, id) {
          assert b[n].0 == ChunksById(b)[id];
        } else {
          assert id in ChunksById(b[..n]) && ChunksById(b)[id] == ChunksById(b[..n])[id];
          assert Lookup(b[..n], ChunksById(b)[id]).Some?;
          var i :| 0 <= i < n && b[..n][i].0 == ChunksById(b)[id];
          assert b[i].0 == ChunksById(b)[id];
        }
      }
    }
  }

  /** The rollup closure fails only on a name the bundle lacks: it follows chunk
      names only, each the name of an output, and it adds no css. */
  lemma RollupResolved(b: Bundle, api: CrxApi, rank: string -> nat)
    ensures Resolved(RollupGraph(b, api, rank))
    ensures forall name :: RollupGraph(b, api, rank).node(name).Missing? <==> Lookup(b, name).None?
    ensures forall name :: RollupGraph(b, api, rank).node(name).Node? ==> RollupGraph(b, api, rank).node(name).css == []
  {
    var g := RollupGraph(b, api, rank);
    forall name, k | 0 <= k < |Edges(g.node(name))|
      ensures Edges(g.node(name))[k].Child? && g.node(Edges(g.node(name))[k].key).Node?
    {
      RollupChildPresent(b, api, rank, name, k);
    }
  }

  /** One child of the rollup graph names an output of the bundle. */
  lemma RollupChildPresent(b: Bundle, api: CrxApi, rank: string -> nat, name: string, k: nat)
    requires k < |Edges(RollupGraph(b, api, rank).node(name))|
    ensures Edges(RollupGraph(b, api, rank).node(name))[k].Child?
    ensures Lookup(b, Edges(RollupGraph(b, api, rank).node(name))[k].key).Some?
  {
    var modules := Lookup(b, name).value.modules;
    var ids := ResourceIds(modules, api);
    var cbi := ChunksById(b);
    var c := SplitIds(ids, cbi, api).chunks[k];
    assert Edges(RollupGraph(b, api, rank).node(name))[k] == Child(c, c);
    SplitIdsSpec(ids, cbi, api);
    var id :| id in ids && ChunkOf(cbi, id) == Some(c);
    ChunksByIdNames(b);
  }

  /** The rollup closure, on an acyclic chunk graph, puts every chunk reachable
      through imported-resource chunks into `imports`. */
  lemma RollupImportsTransitive(b: Bundle, api: CrxApi, rank: string -> nat, name: string, path: seq<string>)
    requires Acyclic(RollupGraph(b, api, rank)) && Lookup(b, name).Some?
    requires |path| > 0 ==> path[0] in CrxImportsOf(b, name, ChunksById(b), api).chunks
    requires forall i :: 0 < i < |path| ==> path[i] in CrxImportsOf(b, path[i - 1], ChunksById(b), api).chunks
    ensures Collect(RollupGraph(b, api, rank), name, EmptySets).Ok?
    ensures forall i :: 0 <= i < |path| ==> path[i] in Collect(RollupGraph(b, api, rank), name, EmptySets).value.imports
  {
    var g := RollupGraph(b, api, rank);
    RollupResolved(b, api, rank);
    var cp := ChunkChildren(path);
    if |path| > 0 {
      RollupEdge(b, api, rank, name, path[0]);
    }
    forall i | 0 < i < |path| ensures cp[i] in Edges(g.node(cp[i - 1].key)) {
      RollupEdge(b, api, rank, path[i - 1], path[i]);
    }
    CollectReaches(g, name, EmptySets, cp);
  }

  /** An imported-resource chunk of a chunk is a child of it in the rollup graph. */
  lemma RollupEdge(b: Bundle, api: CrxApi, rank: string -> nat, name: string, file: string)
    requires file in CrxImportsOf(b, name, ChunksById(b), api).chunks
    ensures Child(file, file) in Edges(RollupGraph(b, api, rank).node(name))
  {
    var cs := CrxImportsOf(b, name, ChunksById(b), api).chunks;
    var k :| 0 <= k < |cs| && cs[k] == file;
    assert Edges(RollupGraph(b, api, rank).node(name))[k] == Child(file, file);
  }

  /** An entry of vite's build manifest (`ManifestChunk`). */
  datatype ViteChunk = ViteChunk(file: string, assets: seq<string>, css: seq<string>,
                                 dynamicImports: seq<string>, imports: seq<string>)

  /** vite's build manifest, keyed by import key, in key order. */
  type ViteManifest = seq<(string, ViteChunk)>

  /** `filesData[key]`. */
  function ViteLookup(fd: ViteManifest, key: string): (r: Option<ViteChunk>)
    ensures r.Some? ==> (key, r.value) in fd
    ensures r.None? ==> forall i :: 0 <= i < |fd| ==> fd[i].0 != key
    decreases |fd|
  {
    if fd == [] then None
    else if fd[0].0 == key then Some(fd[0].1)
    else
      var r := ViteLookup(fd[1..], key);
      assert r.None? ==> forall i :: 0 <= i < |fd| ==> fd[i].0 != key by {
        if r.None? {
          forall i | 0 <= i < |fd| ensures fd[i].0 != key {
            if i > 0 { assert fd[i] == fd[1..][i - 1]; }
          }
        }
      }
      r
  }

  /** `filesByName`: each entry by its output file; a later entry wins. */
  function FilesByName(fd: ViteManifest): (r: map<string, ViteChunk>)
    ensures forall f :: f in r <==> exists i :: 0 <= i < |fd| && fd[i].1.file == f
    ensures forall f :: f in r ==> r[f].file == f && r[f] in ManifestTypes.Values(fd)
    decreases |fd|
  {
    if fd == [] then map[]
    else
      var n := |fd| - 1;
      var m := FilesByName(fd[..n]);
      var r := m[fd[n].1.file := fd[n].1];
      assert ManifestTypes.Values(fd) == ManifestTypes.Values(fd[..n]) + [fd[n].1];
      assert forall f :: f in r <==> exists i :: 0 <= i < |fd| && fd[i].1.file == f by {
        forall f ensures f in r <==> exists i :: 0 <= i < |fd| && fd[i].1.file == f {
          if exists i :: 0 <= i < |fd| && fd[i].1.file == f {
            var i :| 0 <= i < |fd| && fd[i].1.file == f;
            if i < n { assert fd[..n][i].1.file == f; }
          }
          if f in m {
            var i :| 0 <= i < n && fd[..n][i].1.file == f;
            assert fd[i].1.file == f;
          }
        }
      }
      r
  }

  /** `filesByName.get(name) ?? filesData[name]`; `None` is the `{}` fallback. */
  function ViteEntry(fd: ViteManifest, name: string): Option<ViteChunk> {
    var byName := FilesByName(fd);
    if name in byName then Some(byName[name]) else ViteLookup(fd, name)
  }

  /** `[...dynamicImports, ...imports]`: each key adds `filesData[key].file` and
      recurses on the key. */
  function KeyChildren(fd: ViteManifest, keys: seq<string>): (r: seq<Child>)
    ensures |r| == |keys|
    ensures forall i :: 0 <= i < |keys| ==>
      (r[i].key == keys[i] && (r[i].Child? <==> ViteLookup(fd, keys[i]).Some?))
  {
    seq(|keys|, i requires 0 <= i < |keys| =>
      match ViteLookup(fd, keys[i])
      case Some(c) => Child(c.file, keys[i])
      case None => Unresolved(keys[i]))
  }

  /** The `{}` fallback destructured with its defaults: `file` is `undefined`, which
      as a property key reads `bundle['undefined']`. */
  const FallbackEntry := ViteChunk("undefined", [], [], [], [])

  /** What the vite `getResources` sees at a name. */
  function ViteNode(b: Bundle, fd: ViteManifest, chunksById: map<string, string>, api: CrxApi, name: string): Node {
    var e := ViteEntry(fd, name).GetOr(FallbackEntry);
    if Lookup(b, e.file).None? then Missing
    else
      var crx := CrxImportsOf(b, e.file, chunksById, api);
      Node(e.assets + crx.assets, e.css, KeyChildren(fd, e.dynamicImports + e.imports) + ChunkChildren(crx.chunks))
  }

  function ViteGraph(b: Bundle, fd: ViteManifest, api: CrxApi, rank: string -> nat): Graph {
    Graph(name => ViteNode(b, fd, ChunksById(b), api, name), rank)
  }

  /** The assumptions under which the vite closure cannot fail below its start:
      every import key is a key of the vite manifest, every entry's `file` is an
      output of the bundle, and every chunk `getChunksById` maps to is the `file`
      of some entry. */
  ghost predicate ViteConsistent(b: Bundle, fd: ViteManifest) {
    (forall i, key :: 0 <= i < |fd| && key in fd[i].1.dynamicImports + fd[i].1.imports ==>
       exists j :: 0 <= j < |fd| && fd[j].0 == key) &&
    (forall i :: 0 <= i < |fd| ==> Lookup(b, fd[i].1.file).Some?) &&
    (forall id :: id in ChunksById(b) ==> exists i :: 0 <= i < |fd| && fd[i].1.file == ChunksById(b)[id])
  }

  /** The vite closure fails on a name neither an output file nor a key of the vite
      manifest, unless the bundle has an output named `undefined`; on a consistent
      build it fails nowhere else. */
  lemma ViteResolved(b: Bundle, fd: ViteManifest, api: CrxApi, rank: string -> nat)
    requires ViteConsistent(b, fd)
    ensures Resolved(ViteGraph(b, fd, api, rank))
    ensures forall name :: (exists i :: 0 <= i < |fd| && (fd[i].1.file == name || fd[i].0 == name)) ==>
      ViteGraph(b, fd, api, rank).node(name).Node?
  {
    var g := ViteGraph(b, fd, api, rank);
    forall name, k | 0 <= k < |Edges(g.node(name))|
      ensures Edges(g.node(name))[k].Child? && g.node(Edges(g.node(name))[k].key).Node?
    {
      ViteChildResolved(b, fd, api, rank, name, k);
    }
    forall name | exists i :: 0 <= i < |fd| && (fd[i].1.file == name || fd[i].0 == name)
      ensures g.node(name).Node?
    {
      var i :| 0 <= i < |fd| && (fd[i].1.file == name || fd[i].0 == name);
      VitePresent(b, fd, api, rank, name, i);
    }
  }

  /** A name missing from both lookups gets the fallback, which fails unless the
      bundle has an output named `undefined`. */
  lemma ViteFallbackMissing(b: Bundle, fd: ViteManifest, api: CrxApi, rank: string -> nat, name: string)
    requires forall i :: 0 <= i < |fd| ==> fd[i].1.file != name && fd[i].0 != name
    requires Lookup(b, "undefined").None?
    ensures Collect(ViteGraph(b, fd, api, rank), name, EmptySets) == Err(UndefinedChunkError)
  {
    assert ViteLookup(fd, name).None?;
  }

  /** A name that is an output file or a key of a consistent vite manifest has a node. */
  lemma VitePresent(b: Bundle, fd: ViteManifest, api: CrxApi, rank: string -> nat, name: string, i: nat)
    requires ViteConsistent(b, fd)
    requires i < |fd| && (fd[i].1.file == name || fd[i].0 == name)
    ensures ViteGraph(b, fd, api, rank).node(name).Node?
  {
    var e := ViteEntry(fd, name).GetOr(FallbackEntry);
    if name in FilesByName(fd) {
      var j :| 0 <= j < |fd| && fd[j].1.file == name;
      assert e.file == name && Lookup(b, fd[j].1.file).Some?;
    } else {
      assert fd[i].0 == name;
      var v := ViteLookup(fd, name).value;
      assert (name, v) in fd && e == v;
      var j :| 0 <= j < |fd| && fd[j] == (name, v);
      assert Lookup(b, fd[j].1.file).Some?;
    }
    assert Lookup(b, e.file).Some?;
    assert ViteGraph(b, fd, api, rank).node(name) == ViteNode(b, fd, ChunksById(b), api, name);
  }

  /** One child of one node of the vite graph is resolved and has a node. */
  lemma ViteChildResolved(b: Bundle, fd: ViteManifest, api: CrxApi, rank: string -> nat, name: string, k: nat)
    requires ViteConsistent(b, fd)
    requires k < |Edges(ViteGraph(b, fd, api, rank).node(name))|
    ensures Edges(ViteGraph(b, fd, api, rank).node(name))[k].Child?
    ensures ViteGraph(b, fd, api, rank).node(Edges(ViteGraph(b, fd, api, rank).node(name))[k].key).Node?
  {
    var g := ViteGraph(b, fd, api, rank);
    var e := ViteEntry(fd, name).GetOr(FallbackEntry);
    var keys := e.dynamicImports + e.imports;
    var kc := KeyChildren(fd, keys);
    var crx := CrxImportsOf(b, e.file, ChunksById(b), api);
    assert Edges(g.node(name)) == kc + ChunkChildren(crx.chunks);
    if k < |kc| {
      assert Edges(g.node(name))[k] == kc[k];
      ViteKeyChildPresent(b, fd, api, rank, name, k);
    } else {
      var c := crx.chunks[k - |kc|];
      assert Edges(g.node(name))[k] == Child(c, c);
      ViteChunkChildPresent(b, fd, api, rank, e.file, c);
    }
  }

  /** An import key of an entry of a consistent vite manifest resolves to a node. */
  lemma ViteKeyChildPresent(b: Bundle, fd: ViteManifest, api: CrxApi, rank: string -> nat, name: string, k: nat)
    requires ViteConsistent(b, fd)
    requires var e := ViteEntry(fd, name).GetOr(FallbackEntry); k < |e.dynamicImports + e.imports|
    ensures var e := ViteEntry(fd, name).GetOr(FallbackEntry);
      var c := KeyChildren(fd, e.dynamicImports + e.imports)[k];
      c.Child? && ViteGraph(b, fd, api, rank).node(c.key).Node?
  {
    var e := ViteEntry(fd, name).GetOr(FallbackEntry);
    var keys := e.dynamicImports + e.imports;
    var i: nat;
    if name in FilesByName(fd) {
      assert e in ManifestTypes.Values(fd);
      i :| 0 <= i < |fd| && ManifestTypes.Values(fd)[i] == e;
    } else {
      i :| 0 <= i < |fd| && fd[i] == (name, e);
    }
    assert keys[k] in fd[i].1.dynamicImports + fd[i].1.imports;
    var j :| 0 <= j < |fd| && fd[j].0 == keys[k];
    assert ViteLookup(fd, keys[k]).Some?;
    VitePresent(b, fd, api, rank, keys[k], j);
  }

  /** An imported-resource chunk of an output reached by a consistent vite
      manifest has a node. */
  lemma ViteChunkChildPresent(b: Bundle, fd: ViteManifest, api: CrxApi, rank: string -> nat, file: string, c: string)
    requires ViteConsistent(b, fd)
    requires c in CrxImportsOf(b, file, ChunksById(b), api).chunks
    ensures ViteGraph(b, fd, api, rank).node(c).Node?
  {
    var id := CrxChunkAnswers(b, file, ChunksById(b), api, c);
    var j :| 0 <= j < |fd| && fd[j].1.file == c;
    VitePresent(b, fd, api, rank, c, j);
  }

  /** An imported-resource chunk is the name some module id maps to. */
  lemma CrxChunkAnswers(b: Bundle, file: string, cbi: map<string, string>, api: CrxApi, c: string) returns (id: string)
    requires c in CrxImportsOf(b, file, cbi, api).chunks
    ensures id in cbi && cbi[id] == c
  {
    var o := Lookup(b, file);
    var ids := ResourceIds(o.value.modules, api);
    SplitIdsSpec(ids, cbi, api);
    id :| id in ids && ChunkOf(cbi, id) == Some(c);
  }
}
