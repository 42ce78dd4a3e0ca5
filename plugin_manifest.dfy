/** The manifest plugins of packages/vite-plugin/src/node/plugin-manifest.ts:
    `crx:manifest-init` (version gate and pre-bundling entries), `crx:manifest-loader`
    (the manifest chunk's ref id), `crx:stub-input` (the stub input and its removal) and
    `crx:manifest-post` (plugin reordering, the transform and render hook folds, the
    ref-id round trip of the content scripts and the service worker, and the output of
    `manifest.json`). The closure variables `manifest`, `plugins`, `refId` and `config`
    are the fields of `ManifestPlugin`. */
module PluginManifest {
  import opened Wrappers
  import opened SeqSet
  import opened Strings
  import opened ManifestTypes
  import opened Helpers

  const ManifestPostName := "crx:manifest-post"
  const ManifestJsonName := "manifest.json"

  /* -------------------- crx:manifest-init config -------------------- */

  /** `${manifest.manifest_version}`. */
  function VersionText(v: Option<int>): string {
    if v.Some? then IntToString(v.value) else "undefined"
  }

  function VersionError(m: Manifest): Error {
    Error(PlainError, "CRXJS does not support Manifest v" + VersionText(m.manifest_version) + ", please use Manifest v3")
  }

  /** vite's `env.command`. */
  datatype Command = Build | Serve

  /** What `manifestFiles(manifest)` reports for the entry kinds the hook merges. */
  datatype EntryFiles = EntryFiles(contentScripts: seq<string>, background: seq<string>, html: seq<string>)

  /** The parts of vite's user config the hook reads: `root`, `optimizeDeps.entries`
      and `build.rollupOptions.input`; `rest` stands for everything else. */
  datatype ViteConfig = ViteConfig(root: Option<string>, entries: Option<seq<string>>, input: RollupInput, rest: Dict)

  /** `path.isAbsolute` and `path.relative`, which the model does not interpret. */
  datatype ServePaths = ServePaths(isAbsolute: string -> bool, relative: (string, string) -> string)

  /** `input = []` by default; a string becomes a singleton, anything else its values. */
  function InputValues(input: RollupInput): (r: seq<string>)
    ensures input.NoInput? ==> r == []
    ensures input.InputPath? ==> r == [input.path]
    ensures input.InputList? ==> r == input.paths
    ensures input.InputRecord? ==> r == Values(input.record)
  {
    match input
    case NoInput => []
    case InputPath(p) => [p]
    case InputList(ps) => ps
    case InputRecord(rec) => Values(rec)
  }

  /** An absolute input is made relative to `root ?? process.cwd()`. */
  function ServeInput(f: string, base: string, paths: ServePaths): string {
    if paths.isAbsolute(f) then paths.relative(base, f) else f
  }

  function ServeInputs(cfg: ViteConfig, cwd: string, paths: ServePaths): (r: seq<string>)
    ensures |r| == |InputValues(cfg.input)|
    ensures forall i :: 0 <= i < |r| ==> r[i] == ServeInput(InputValues(cfg.input)[i], cfg.root.GetOr(cwd), paths)
  {
    var xs := InputValues(cfg.input);
    seq(|xs|, i requires 0 <= i < |xs| => ServeInput(xs[i], cfg.root.GetOr(cwd), paths))
  }

  /** `[...set]`: explicit entries, then build inputs, then the manifest's content
      scripts, background and html, each once, in order of first appearance. */
  function OptimizeEntries(cfg: ViteConfig, files: EntryFiles, cwd: string, paths: ServePaths): (r: seq<string>)
    ensures NoDups(r)
    ensures forall x :: x in r <==>
      x in cfg.entries.GetOr([]) || x in ServeInputs(cfg, cwd, paths) ||
      x in files.contentScripts || x in files.background || x in files.html
  {
    var all := cfg.entries.GetOr([]) + ServeInputs(cfg, cwd, paths) + files.contentScripts + files.background + files.html;
    DedupeElements(all);
    Dedupe(all)
  }

  /** The `config` hook: anything but Manifest v3 is refused; in serve mode the
      pre-bundling entries are merged, and in build mode nothing is returned. */
  function ConfigHook(m: Manifest, cfg: ViteConfig, command: Command, files: EntryFiles, cwd: string, paths: ServePaths): (r: Result<Option<ViteConfig>>)
    ensures r.Err? <==> m.manifest_version != Some(3)
    ensures r.Err? ==> r.error == VersionError(m)
    ensures r.Ok? && command == Build ==> r.value == None
    ensures r.Ok? && command == Serve ==>
      r.value == Some(cfg.(entries := Some(OptimizeEntries(cfg, files, cwd, paths))))
  {
    if m.manifest_version != Some(3) then Err(VersionError(m))
    else if command == Serve then Ok(Some(cfg.(entries := Some(OptimizeEntries(cfg, files, cwd, paths)))))
    else Ok(None)
  }

  /** The version gate's message names the refused version. */
  lemma VersionErrorMessage(m: Manifest, v: nat)
    requires m.manifest_version == Some(v) && v != 3
    ensures VersionError(m).message == "CRXJS does not support Manifest v" + NatToString(v) + ", please use Manifest v3"
  {
  }

  /* ------------------------- crx:stub-input ------------------------- */

  /** The stub `options` hook: an `index.html` string input is swapped for `stubId`;
      every other input, and every other option, is kept. */
  function StubOptions(opts: RollupOptions, stubId: string): (r: RollupOptions)
    ensures r.rest == opts.rest
    ensures opts.input.InputPath? && EndsWith(opts.input.path, "index.html") ==> r.input == InputPath(stubId)
    ensures !(opts.input.InputPath? && EndsWith(opts.input.path, "index.html")) ==> r == opts
  {
    if opts.input.InputPath? && EndsWith(opts.input.path, "index.html") then opts.(input := InputPath(stubId))
    else opts
  }

  /** Running the hook again changes nothing, since the stub id does not end in `index.html`. */
  lemma StubOptionsIdempotent(opts: RollupOptions, stubId: string)
    requires !EndsWith(stubId, "index.html")
    ensures StubOptions(StubOptions(opts, stubId), stubId) == StubOptions(opts, stubId)
  {
  }

  predicate IsStubChunk(o: Output, stubId: string) {
    o.Chunk? && o.facadeModuleId == Some(stubId)
  }

  /** The first bundle entry that is the stub's chunk. */
  function StubIndex(b: Bundle, stubId: string): (r: Option<nat>)
    ensures r.Some? ==> r.value < |b| && IsStubChunk(b[r.value].1, stubId)
    ensures forall i :: 0 <= i < |b| && (r.None? || i < r.value) ==> !IsStubChunk(b[i].1, stubId)
    decreases |b|
  {
    if b == [] then None
    else if IsStubChunk(b[0].1, stubId) then Some(0)
    else
      var r := StubIndex(b[1..], stubId);
      assert forall i :: 1 <= i < |b| ==> b[i] == b[1..][i - 1];
      if r.Some? then Some(r.value + 1) else None
  }

  /** The bundle after the stub's `generateBundle`: the first stub chunk is gone, and
      nothing else changes. */
  function WithoutStub(b: Bundle, stubId: string): (r: Bundle)
    ensures StubIndex(b, stubId).None? ==> r == b
    ensures StubIndex(b, stubId).Some? ==>
      var i := StubIndex(b, stubId).value;
      |r| == |b| - 1 && r[..i] == b[..i] && r[i..] == b[i + 1..]
  {
    match StubIndex(b, stubId)
    case None => b
    case Some(i) => b[..i] + b[i + 1..]
  }

  /** The `for ... of Object.entries(bundle)` loop of the stub's `generateBundle`,
      which deletes the first stub chunk and stops. */
  method StubGenerateBundle(b: Bundle, stubId: string) returns (r: Bundle)
    ensures r == WithoutStub(b, stubId)
  {
    var i := 0;
    while i < |b|
      invariant 0 <= i <= |b|
      invariant forall k :: 0 <= k < i ==> !IsStubChunk(b[k].1, stubId)
    {
      if b[i].1.Chunk? && b[i].1.facadeModuleId == Some(stubId) {
        StubIndexIs(b, stubId, i);
        return b[..i] + b[i + 1..];
      }
      i := i + 1;
    }
    StubIndexNone(b, stubId);
    return b;
  }

  lemma StubIndexIs(b: Bundle, stubId: string, i: nat)
    requires i < |b| && IsStubChunk(b[i].1, stubId)
    requires forall k :: 0 <= k < i ==> !IsStubChunk(b[k].1, stubId)
    ensures StubIndex(b, stubId) == Some(i)
  {
  }

  lemma StubIndexNone(b: Bundle, stubId: string)
    requires forall k :: 0 <= k < |b| ==> !IsStubChunk(b[k].1, stubId)
    ensures StubIndex(b, stubId).None?
  {
  }

  /* ------------------ crx:manifest-post plugin folds ----------------- */

  /** A manifest hook: the error it throws, or the manifest it returns, or nothing. */
  type ManifestHook = Manifest -> Result<Option<Manifest>>

  /** A CRXJS plugin as the hooks see it: its name and its optional manifest hooks. */
  datatype CrxPlugin = CrxPlugin(
    name: string,
    transformCrxManifest: Option<ManifestHook>,
    renderCrxManifest: Option<(Manifest, Bundle) -> Result<Option<Manifest>>>)

  /** The hooks one fold runs, each with its plugin's name. */
  type NamedHooks = seq<(string, Option<ManifestHook>)>

  function TransformHooks(ps: seq<CrxPlugin>): (r: NamedHooks)
    ensures |r| == |ps| && forall k :: 0 <= k < |ps| ==> r[k] == (ps[k].name, ps[k].transformCrxManifest)
  {
    seq(|ps|, k requires 0 <= k < |ps| => (ps[k].name, ps[k].transformCrxManifest))
  }

  function RenderHook(p: CrxPlugin, b: Bundle): Option<ManifestHook> {
    if p.renderCrxManifest.None? then None
    else var render := p.renderCrxManifest.value; Some(m => render(m, b))
  }

  function RenderHooks(ps: seq<CrxPlugin>, b: Bundle): (r: NamedHooks)
    ensures |r| == |ps| && forall k :: 0 <= k < |ps| ==> r[k] == (ps[k].name, RenderHook(ps[k], b))
  {
    seq(|ps|, k requires 0 <= k < |ps| => (ps[k].name, RenderHook(ps[k], b)))
  }

  /** How `transform` rethrows: the message gets the plugin's name in front. */
  function TransformError(name: string, e: Error): Error {
    Error(e.kind, "[" + name + "] " + e.message)
  }

  /** How `generateBundle` rethrows: a new `Error` naming the plugin's render hook. */
  function RenderError(name: string, e: Error): Error {
    Error(PlainError, "Error in " + name + ".renderCrxManifest")
  }

  /** One iteration: `manifest = result ?? manifest`, or the rethrown error. */
  function HookStep(hook: (string, Option<ManifestHook>), m: Manifest, wrap: (string, Error) -> Error): Result<Manifest> {
    if hook.1.None? then Ok(m)
    else match hook.1.value(m)
      case Err(e) => Err(wrap(hook.0, e))
      case Ok(None) => Ok(m)
      case Ok(Some(m')) => Ok(m')
  }

  /** The `for (const plugin of plugins)` fold of either hook. */
  function Fold(hooks: NamedHooks, m: Manifest, wrap: (string, Error) -> Error): Result<Manifest>
    decreases |hooks|
  {
    if hooks == [] then Ok(m)
    else match Fold(hooks[..|hooks| - 1], m, wrap)
      case Err(e) => Err(e)
      case Ok(m1) => HookStep(hooks[|hooks| - 1], m1, wrap)
  }

  /** A hook that threw, on the manifest the hooks before it produced. */
  ghost predicate ThrewAt(hooks: NamedHooks, m: Manifest, wrap: (string, Error) -> Error, k: nat, e: Error) {
    k < |hooks| && Fold(hooks[..k], m, wrap).Ok? && hooks[k].1.Some? &&
    hooks[k].1.value(Fold(hooks[..k], m, wrap).value).Err? &&
    e == wrap(hooks[k].0, hooks[k].1.value(Fold(hooks[..k], m, wrap).value).error)
  }

  /** A fold fails only with the wrapped error of the first hook that threw; a fold
      that succeeds ends with the input manifest or with a manifest some hook returned;
      without hooks the manifest passes through. */
  lemma {:induction false} FoldSpec(hooks: NamedHooks, m: Manifest, wrap: (string, Error) -> Error)
    ensures Fold(hooks, m, wrap).Err? ==> exists k :: ThrewAt(hooks, m, wrap, k, Fold(hooks, m, wrap).error)
    ensures Fold(hooks, m, wrap).Ok? ==>
      Fold(hooks, m, wrap).value == m ||
      exists k :: 0 <= k < |hooks| && hooks[k].1.Some? && Fold(hooks[..k], m, wrap).Ok? &&
        hooks[k].1.value(Fold(hooks[..k], m, wrap).value) == Ok(Some(Fold(hooks, m, wrap).value))
    ensures (forall k :: 0 <= k < |hooks| ==> hooks[k].1.None?) ==> Fold(hooks, m, wrap) == Ok(m)
    decreases |hooks|
  {
    if hooks != [] {
      var n := |hooks| - 1;
      var init := hooks[..n];
      FoldSpec(init, m, wrap);
      assert forall k :: 0 <= k <= n ==> hooks[..k] == init[..k];
      var r := Fold(hooks, m, wrap);
      if Fold(init, m, wrap).Err? {
        var k :| ThrewAt(init, m, wrap, k, Fold(init, m, wrap).error);
        assert ThrewAt(hooks, m, wrap, k, r.error);
      } else if r.Err? {
        assert ThrewAt(hooks, m, wrap, n, r.error);
      } else if r.value != Fold(init, m, wrap).value {
        assert hooks[n].1.value(Fold(hooks[..n], m, wrap).value) == Ok(Some(r.value));
      } else if r.value != m {
        var k :| 0 <= k < n && init[k].1.Some? && Fold(init[..k], m, wrap).Ok? &&
          init[k].1.value(Fold(init[..k], m, wrap).value) == Ok(Some(Fold(init, m, wrap).value));
        assert hooks[k] == init[k];
      }
    }
  }

  /** The fold as the hooks run it: a loop reassigning `manifest`. */
  method RunHooks(hooks: NamedHooks, m: Manifest, wrap: (string, Error) -> Error) returns (r: Result<Manifest>)
    ensures r == Fold(hooks, m, wrap)
  {
    var manifest := m;
    var i := 0;
    while i < |hooks|
      invariant 0 <= i <= |hooks|
      invariant Fold(hooks[..i], m, wrap) == Ok(manifest)
    {
      assert hooks[..i + 1][..i] == hooks[..i];
      var step := HookStep(hooks[i], manifest, wrap);
      if step.Err? {
        FoldErrStays(hooks, m, wrap, i + 1);
        return step;
      }
      manifest := step.value;
      i := i + 1;
    }
    assert hooks[..i] == hooks;
    r := Ok(manifest);
  }

  /** Once the fold has failed, later hooks do not run. */
  lemma {:induction false} FoldErrStays(hooks: NamedHooks, m: Manifest, wrap: (string, Error) -> Error, j: nat)
    requires j <= |hooks| && Fold(hooks[..j], m, wrap).Err?
    ensures Fold(hooks, m, wrap) == Fold(hooks[..j], m, wrap)
    decreases |hooks| - j
  {
    if j < |hooks| {
      assert hooks[..j + 1][..j] == hooks[..j];
      FoldErrStays(hooks, m, wrap, j + 1);
    } else {
      assert hooks[..j] == hooks;
    }
  }

  /* ------------------- the ref-id round trip (build) ------------------ */

  /** `{ js = [], ...rest }` with every js file mapped. */
  function MapScript(cs: ContentScript, f: string -> string): (r: ContentScript)
    ensures r.css == cs.css && r.matches == cs.matches && r.rest == cs.rest
    ensures r.js.Some? && |r.js.value| == |cs.js.GetOr([])|
    ensures forall i :: 0 <= i < |cs.js.GetOr([])| ==> r.js.value[i] == f(cs.js.GetOr([])[i])
  {
    var js := cs.js.GetOr([]);
    cs.(js := Some(seq(|js|, i requires 0 <= i < |js| => f(js[i]))))
  }

  /** `manifest.background?.service_worker` is set and not empty. */
  predicate HasWorker(m: Manifest) {
    m.background.Some? && m.background.value.service_worker.Some? && m.background.value.service_worker.value != ""
  }

  /** The content-script js files and the service worker go through `f`
      (`emitFile` in `transform`, `getFileName` in `generateBundle`); every other field
      of the manifest and of each content script stays. */
  function MapScriptFiles(m: Manifest, f: string -> string): (r: Manifest)
    ensures r.(content_scripts := m.content_scripts, background := m.background) == m
    ensures m.content_scripts.None? <==> r.content_scripts.None?
    ensures m.content_scripts.Some? ==>
      |r.content_scripts.value| == |m.content_scripts.value| &&
      forall k :: 0 <= k < |m.content_scripts.value| ==> r.content_scripts.value[k] == MapScript(m.content_scripts.value[k], f)
    ensures HasWorker(m) ==> r.background == Some(m.background.value.(service_worker := Some(f(m.background.value.service_worker.value))))
    ensures !HasWorker(m) ==> r.background == m.background
  {
    var scripts := if m.content_scripts.None? then None
      else
        var cs := m.content_scripts.value;
        Some(seq(|cs|, k requires 0 <= k < |cs| => MapScript(cs[k], f)));
    var background := if HasWorker(m)
      then Some(m.background.value.(service_worker := Some(f(m.background.value.service_worker.value))))
      else m.background;
    m.(content_scripts := scripts, background := background)
  }

  lemma MapScriptTwice(cs: ContentScript, f: string -> string, g: string -> string)
    ensures MapScript(MapScript(cs, f), g) == MapScript(cs, x => g(f(x)))
  {
    var a := MapScript(MapScript(cs, f), g);
    var b := MapScript(cs, x => g(f(x)));
    assert a.js.value == b.js.value;
  }

  /** Emitting in `transform` and resolving in `generateBundle` maps each content-script
      js file and the service worker to the output name of its ref id, and changes nothing
      else; rollup's ref ids are never empty. */
  lemma RefRoundTrip(m: Manifest, emit: string -> string, getFileName: string -> string)
    requires forall x :: emit(x) != ""
    ensures MapScriptFiles(MapScriptFiles(m, emit), getFileName) == MapScriptFiles(m, x => getFileName(emit(x)))
  {
    var once := MapScriptFiles(m, emit);
    var a := MapScriptFiles(once, getFileName);
    var b := MapScriptFiles(m, x => getFileName(emit(x)));
    if m.content_scripts.Some? {
      forall k | 0 <= k < |m.content_scripts.value|
        ensures a.content_scripts.value[k] == b.content_scripts.value[k]
      {
        MapScriptTwice(m.content_scripts.value[k], emit, getFileName);
      }
      assert a.content_scripts.value == b.content_scripts.value;
    }
  }

  /** The serve branch of `transform`: every js file goes through `add`, which the
      module never defines, so any content-script js throws; without js, each script
      gets an empty `js`. */
  function ServeLoaders(m: Manifest): (r: Result<Manifest>)
    ensures ScriptJs(Scripts(m)) != [] <==> r.Err?
    ensures r.Err? ==> r.error == Error(ReferenceError, "add is not defined")
    ensures r.Ok? ==> r.value == MapScriptFiles(m.(background := None), x => x).(background := m.background)
  {
    if ScriptJs(Scripts(m)) != [] then Err(Error(ReferenceError, "add is not defined"))
    else Ok(MapScriptFiles(m.(background := None), x => x).(background := m.background))
  }

  /** What `transform` hands back: the manifest to encode, and the ids of the chunks it
      emitted, in emission order. */
  datatype Transformed = Transformed(manifest: Manifest, emitted: seq<string>)

  /** The build branch of `transform`. */
  function BuildRefs(m: Manifest, emit: string -> string, htmlFiles: Manifest -> seq<string>): (r: Transformed)
    ensures r.manifest == MapScriptFiles(m, emit)
    ensures r.emitted == ScriptJs(Scripts(m)) +
      (if HasWorker(m) then [m.background.value.service_worker.value] else []) + htmlFiles(r.manifest)
  {
    var refs := MapScriptFiles(m, emit);
    Transformed(refs, ScriptJs(Scripts(m)) +
      (if HasWorker(m) then [m.background.value.service_worker.value] else []) + htmlFiles(refs))
  }

  /* ---------------------- the manifest.json output --------------------- */

  /** The output step: an existing `manifest.json` asset gets the new source in place,
      otherwise one is emitted; the manifest chunk is then deleted. */
  function WriteManifest(b: Bundle, json: string, manifestName: string): (r: Bundle)
    ensures forall p :: p in r ==> p.0 != manifestName
    ensures manifestName != ManifestJsonName && (forall i :: 0 <= i < |b| && b[i].0 == ManifestJsonName ==> b[i].1.Asset?) ==>
      exists i :: 0 <= i < |r| && r[i].0 == ManifestJsonName && r[i].1.Asset? && r[i].1.source == json
    ensures forall p :: p in b && p.0 != manifestName && p.0 != ManifestJsonName ==> p in r
    ensures forall p :: p in r && p.0 != ManifestJsonName ==> p in b
  {
    var written := if exists i :: 0 <= i < |b| && b[i].0 == ManifestJsonName
      then seq(|b|, i requires 0 <= i < |b| =>
        if b[i].0 == ManifestJsonName && b[i].1.Asset? then (b[i].0, b[i].1.(source := json)) else b[i])
      else b + [(ManifestJsonName, Asset(ManifestJsonName, json))];
    var r := Delete(written, manifestName);
    assert forall p :: p in b && p.0 != ManifestJsonName ==> p in written by {
      forall p | p in b && p.0 != ManifestJsonName ensures p in written {
        var i :| 0 <= i < |b| && b[i] == p;
        assert written[i] == p;
      }
    }
    assert manifestName != ManifestJsonName && (forall i :: 0 <= i < |b| && b[i].0 == ManifestJsonName ==> b[i].1.Asset?) ==>
      exists i :: 0 <= i < |r| && r[i].0 == ManifestJsonName && r[i].1.Asset? && r[i].1.source == json by {
      if manifestName != ManifestJsonName && (forall i :: 0 <= i < |b| && b[i].0 == ManifestJsonName ==> b[i].1.Asset?) {
        var p: (string, Output);
        if exists i :: 0 <= i < |b| && b[i].0 == ManifestJsonName {
          var i :| 0 <= i < |b| && b[i].0 == ManifestJsonName;
          p := written[i];
        } else {
          p := written[|b|];
        }
        assert p in written && p.0 == ManifestJsonName && p.1.Asset? && p.1.source == json;
        assert p in r;
        var j :| 0 <= j < |r| && r[j] == p;
      }
    }
    r
  }

  /* ------------------ the plugin's state and its hooks ----------------- */

  /** vite's resolved config, whose `plugins` array `configResolved` splices. */
  class ResolvedConfig {
    var plugins: seq<CrxPlugin>
    var command: Command

    constructor (plugins: seq<CrxPlugin>, command: Command)
      ensures this.plugins == plugins && this.command == command
    {
      this.plugins := plugins;
      this.command := command;
    }
  }

  /** `findIndex(({ name }) => name === 'crx:manifest-post')`, `-1` when absent. */
  function PostIndex(ps: seq<CrxPlugin>): (r: int)
    ensures -1 <= r < |ps|
    ensures r >= 0 ==> ps[r].name == ManifestPostName && forall k :: 0 <= k < r ==> ps[k].name != ManifestPostName
    ensures r == -1 ==> forall k :: 0 <= k < |ps| ==> ps[k].name != ManifestPostName
    decreases |ps|
  {
    if ps == [] then -1
    else if ps[0].name == ManifestPostName then 0
    else
      var r := PostIndex(ps[1..]);
      assert forall k :: 1 <= k < |ps| ==> ps[k] == ps[1..][k - 1];
      if r == -1 then -1 else r + 1
  }

  /** `splice(i, 1)` then `push`: the `i`-th plugin goes last. */
  function MoveToEnd(ps: seq<CrxPlugin>, i: nat): (r: seq<CrxPlugin>)
    requires i < |ps|
    ensures |r| == |ps| && r[|r| - 1] == ps[i] && r[..|r| - 1] == ps[..i] + ps[i + 1..]
  {
    var r := ps[..i] + ps[i + 1..] + [ps[i]];
    assert r[..|r| - 1] == ps[..i] + ps[i + 1..];
    r
  }

  lemma MoveLastToEnd(ps: seq<CrxPlugin>)
    requires |ps| > 0
    ensures MoveToEnd(ps, |ps| - 1) == ps
  {
    var n := |ps| - 1;
    assert ps[n + 1..] == [];
    assert ps[..n] + [ps[n]] == ps;
  }

  /** The plugins after `configResolved`; `splice(-1, 1)` takes the last plugin, so a
      list without `crx:manifest-post` comes back as it was. */
  function MovedPlugins(ps: seq<CrxPlugin>): (r: seq<CrxPlugin>)
    requires |ps| > 0
    ensures |r| == |ps|
  {
    MoveToEnd(ps, if PostIndex(ps) >= 0 then PostIndex(ps) else |ps| - 1)
  }

  lemma MoveToEndPermutes(ps: seq<CrxPlugin>, i: nat)
    requires i < |ps|
    ensures multiset(MoveToEnd(ps, i)) == multiset(ps)
  {
    var r := MoveToEnd(ps, i);
    calc {
      multiset(r);
      multiset(ps[..i] + ps[i + 1..] + [ps[i]]);
      multiset(ps[..i]) + multiset(ps[i + 1..]) + multiset{ps[i]};
      { assert ps == ps[..i] + [ps[i]] + ps[i + 1..]; }
      multiset(ps);
    }
  }

  /** After the move `crx:manifest-post` is last, the same plugins are there, and the
      others keep their relative order; without it nothing moves. */
  lemma MovedPluginsSpec(ps: seq<CrxPlugin>)
    requires |ps| > 0
    ensures PostIndex(ps) == -1 ==> MovedPlugins(ps) == ps
    ensures PostIndex(ps) >= 0 ==>
      var r := MovedPlugins(ps);
      r[|ps| - 1].name == ManifestPostName && r[..|ps| - 1] == ps[..PostIndex(ps)] + ps[PostIndex(ps) + 1..] &&
      multiset(r) == multiset(ps)
  {
    if PostIndex(ps) == -1 {
      MoveLastToEnd(ps);
    } else {
      MoveToEndPermutes(ps, PostIndex(ps));
    }
  }

  /** The closure state of the plugin factory. */
  class ManifestPlugin {
    var manifest: Option<Manifest>
    /** `undefined` until `buildStart` sees `options.plugins`. */
    var plugins: Option<seq<CrxPlugin>>
    var refId: Option<string>
    var config: ResolvedConfig?

    constructor ()
      ensures manifest == None && plugins == None && refId == None && config == null
    {
      manifest := None;
      plugins := None;
      refId := None;
      config := null;
    }

    /** `crx:manifest-init`'s `config`: records the manifest, then gates and merges. */
    method Config(m: Manifest, cfg: ViteConfig, command: Command, files: EntryFiles, cwd: string, paths: ServePaths)
      returns (r: Result<Option<ViteConfig>>)
      modifies this
      ensures manifest == Some(m) && plugins == old(plugins) && refId == old(refId) && config == old(config)
      ensures r == ConfigHook(m, cfg, command, files, cwd, paths)
    {
      manifest := Some(m);
      r := ConfigHook(m, cfg, command, files, cwd, paths);
    }

    /** `crx:manifest-init`'s `buildStart`. */
    method BuildStart(optionPlugins: Option<seq<CrxPlugin>>)
      modifies this
      ensures plugins == (if optionPlugins.Some? then optionPlugins else old(plugins))
      ensures manifest == old(manifest) && refId == old(refId) && config == old(config)
    {
      if optionPlugins.Some? {
        plugins := optionPlugins;
      }
    }

    /** `crx:manifest-loader`'s `buildStart`: the ref id `emitFile` gave the manifest chunk. */
    method LoaderBuildStart(emitted: string)
      modifies this
      ensures refId == Some(emitted)
      ensures manifest == old(manifest) && plugins == old(plugins) && config == old(config)
    {
      refId := Some(emitted);
    }

    /** `crx:manifest-post`'s `configResolved`. */
    method ConfigResolved(c: ResolvedConfig)
      requires |c.plugins| > 0
      modifies this, c
      ensures config == c && c.plugins == MovedPlugins(old(c.plugins)) && c.command == old(c.command)
      ensures manifest == old(manifest) && plugins == old(plugins) && refId == old(refId)
    {
      config := c;
      c.plugins := MovedPlugins(c.plugins);
    }

    /** `crx:manifest-post`'s `transform`: only the manifest module is touched; its
        decoded manifest goes through every transform hook, then its scripts become
        ref ids in a build, or loaders in serve mode. */
    method Transform(id: string, manifestId: string, decoded: Manifest, emit: string -> string,
                     htmlFiles: Manifest -> seq<string>) returns (r: Result<Option<Transformed>>)
      requires config != null
      ensures id != manifestId ==> r == Ok(None)
      ensures id == manifestId && plugins.None? ==> r == Err(Error(TypeError, "plugins is not iterable"))
      ensures id == manifestId && plugins.Some? ==>
        var folded := Fold(TransformHooks(plugins.value), decoded, TransformError);
        (folded.Err? ==> r == Err(folded.error)) &&
        (folded.Ok? && config.command == Build ==> r == Ok(Some(BuildRefs(folded.value, emit, htmlFiles)))) &&
        (folded.Ok? && config.command == Serve ==>
          r == (var s := ServeLoaders(folded.value); if s.Err? then Err(s.error) else Ok(Some(Transformed(s.value, [])))))
    {
      if id != manifestId {
        return Ok(None);
      }
      if plugins.None? {
        return Err(Error(TypeError, "plugins is not iterable"));
      }
      var folded := RunHooks(TransformHooks(plugins.value), decoded, TransformError);
      if folded.Err? {
        return Err(folded.error);
      }
      if config.command == Build {
        r := Ok(Some(BuildRefs(folded.value, emit, htmlFiles)));
      } else {
        var s := ServeLoaders(folded.value);
        r := if s.Err? then Err(s.error) else Ok(Some(Transformed(s.value, [])));
      }
    }

    /** `crx:manifest-post`'s `generateBundle`: decode the manifest chunk, resolve ref ids
        to file names in a build, run every render hook, then write `manifest.json` and
        drop the manifest chunk. `decode` stands for `decodeManifest` on the chunk's `code`
        (`undefined` for an asset), `stringify` for `JSON.stringify(manifest, null, 2)`. */
    method GenerateBundle(b: Bundle, getFileName: string -> string, decode: Option<string> -> Result<Manifest>,
                          stringify: Manifest -> string) returns (r: Result<Bundle>)
      requires config != null && refId.Some?
      ensures var name := getFileName(refId.value);
        (Lookup(b, name).None? ==> r == Err(Error(TypeError, "Cannot read properties of undefined (reading 'code')"))) &&
        (Lookup(b, name).Some? && plugins.None? && decode(CodeOf(Lookup(b, name).value)).Ok? ==>
          r == Err(Error(TypeError, "plugins is not iterable"))) &&
        (Lookup(b, name).Some? ==> r == GenerateBundleSpec(b, name, plugins, config.command, getFileName, decode, stringify))
    {
      var name := getFileName(refId.value);
      var chunk := Lookup(b, name);
      if chunk.None? {
        return Err(Error(TypeError, "Cannot read properties of undefined (reading 'code')"));
      }
      var decoded := decode(CodeOf(chunk.value));
      if decoded.Err? {
        return Err(decoded.error);
      }
      var m := decoded.value;
      if config.command == Build {
        m := MapScriptFiles(m, getFileName);
      }
      if plugins.None? {
        return Err(Error(TypeError, "plugins is not iterable"));
      }
      var rendered := RunHooks(RenderHooks(plugins.value, b), m, RenderError);
      if rendered.Err? {
        return Err(rendered.error);
      }
      r := Ok(WriteManifest(b, stringify(rendered.value), name));
    }
  }

  /** `manifestJs.code`: the code of a chunk, `undefined` for an asset. */
  function CodeOf(o: Output): Option<string> {
    if o.Chunk? then Some(o.code) else None
  }

  /** What `generateBundle` yields once the manifest chunk is found. */
  function GenerateBundleSpec(b: Bundle, name: string, plugins: Option<seq<CrxPlugin>>, command: Command,
                              getFileName: string -> string, decode: Option<string> -> Result<Manifest>,
                              stringify: Manifest -> string): (r: Result<Bundle>)
    requires Lookup(b, name).Some?
    ensures decode(CodeOf(Lookup(b, name).value)).Err? ==> r == Err(decode(CodeOf(Lookup(b, name).value)).error)
    ensures r.Ok? ==> forall p :: p in r.value ==> p.0 != name
    ensures r.Ok? ==> forall p :: p in b && p.0 != name && p.0 != ManifestJsonName ==> p in r.value
    ensures r.Ok? ==> plugins.Some? && decode(CodeOf(Lookup(b, name).value)).Ok?
  {
    match decode(CodeOf(Lookup(b, name).value))
    case Err(e) => Err(e)
    case Ok(decoded) =>
      var m := if command == Build then MapScriptFiles(decoded, getFileName) else decoded;
      if plugins.None? then Err(Error(TypeError, "plugins is not iterable"))
      else match Fold(RenderHooks(plugins.value, b), m, RenderError)
        case Err(e) => Err(e)
        case Ok(rendered) => Ok(WriteManifest(b, stringify(rendered), name))
  }

  /** A render hook that throws fails the whole hook with an error naming that plugin. */
  lemma RenderFailureNamesPlugin(ps: seq<CrxPlugin>, b: Bundle, m: Manifest)
    requires Fold(RenderHooks(ps, b), m, RenderError).Err?
    ensures exists k :: (0 <= k < |ps| &&
      Fold(RenderHooks(ps, b), m, RenderError).error == Error(PlainError, "Error in " + ps[k].name + ".renderCrxManifest"))
  {
    FoldSpec(RenderHooks(ps, b), m, RenderError);
    var k: nat :| ThrewAt(RenderHooks(ps, b), m, RenderError, k, Fold(RenderHooks(ps, b), m, RenderError).error);
  }

  /** A transform hook that throws fails the whole hook with its own error, prefixed by
      the plugin's name. */
  lemma TransformFailureNamesPlugin(ps: seq<CrxPlugin>, m: Manifest)
    requires Fold(TransformHooks(ps), m, TransformError).Err?
    ensures exists k, e: Error :: (0 <= k < |ps| && ps[k].transformCrxManifest.Some? &&
      Fold(TransformHooks(ps), m, TransformError).error == Error(e.kind, "[" + ps[k].name + "] " + e.message))
  {
    FoldSpec(TransformHooks(ps), m, TransformError);
    var hooks := TransformHooks(ps);
    var k: nat :| ThrewAt(hooks, m, TransformError, k, Fold(hooks, m, TransformError).error);
    var e := hooks[k].1.value(Fold(hooks[..k], m, TransformError).value).error;
    assert Fold(hooks, m, TransformError).error == Error(e.kind, "[" + ps[k].name + "] " + e.message);
  }
}
