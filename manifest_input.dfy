/** The manifest-input plugin (src/manifest-input/index.ts): the `options`,
    `watchChange` and `generateBundle` hooks over the plugin's cache. */
module ManifestInput {
  import opened Wrappers
  import opened SeqSet
  import opened Strings
  import opened ManifestTypes
  import opened WarSet
  import opened Helpers
  import opened ManifestParser

  const ManifestName := "manifest.json"
  const InputTypeErrorMessage := "RollupOptions.input must be a single Chrome extension manifest."
  const NoInputMessage := "The manifest must have at least one script or HTML file."
  const NoManifestMessage := "cache.manifest is undefined"

  /** What `options` throws when the loaded manifest file is empty. */
  function EmptyFileError(path: string): Error
  {
    Error(PlainError, path + " is an empty file.")
  }

  /** `cache.permsHash`: the empty string, or the JSON text of a permission list
      (`JSON.stringify` keeps string arrays apart, so the list stands for its text). */
  datatype PermsHash = NoHash | Hash(perms: seq<string>)

  /** What cosmiconfig's `explorer.load` reports. */
  datatype LoadResult = LoadResult(filepath: string, config: Manifest, isEmpty: bool)

  /** The collaborators of `options`: the config loader, `path.dirname`, those of
      `deriveFiles`, and the reducer `reduceToRecord(srcDir)` builds. */
  datatype InputEnv = InputEnv(
    load: string -> LoadResult,
    dirname: string -> string,
    files: FileEnv,
    reducer: (Option<string>, seq<(string, string)>, string) -> seq<(string, string)>)

  /** `cache.input.reduce(reduceToRecord(srcDir), {})`. */
  function InputRecordOf(srcDir: Option<string>, input: seq<string>,
                         reducer: (Option<string>, seq<(string, string)>, string) -> seq<(string, string)>): seq<(string, string)>
    decreases |input|
  {
    if input == [] then []
    else reducer(srcDir, InputRecordOf(srcDir, input[..|input| - 1], reducer), input[|input| - 1])
  }

  /** `cache.assets` after a load: `[...new Set([...css, ...img, ...others])]`. */
  function CachedAssets(f: Files): (r: seq<string>)
    ensures NoDups(r)
    ensures forall x :: x in r <==> x in f.css || x in f.img || x in f.others
  {
    DedupeElements(f.css + f.img + f.others);
    Dedupe(f.css + f.img + f.others)
  }

  /** The cached state a fresh load produces: `srcDir`, `cache.input` and `cache.assets`. */
  datatype Loaded = Loaded(srcDir: string, input: seq<string>, assets: seq<string>)

  function LoadedState(loaded: LoadResult, env: InputEnv): Loaded
    requires WarShapeFits(loaded.config)
  {
    var dir := env.dirname(loaded.filepath);
    var files := DeriveFiles(loaded.config, dir, env.files);
    Loaded(dir, files.js + files.html, CachedAssets(files))
  }

  /** `${permissions}`: the names joined by commas. */
  function JoinComma(xs: seq<string>): string
    decreases |xs|
  {
    if xs == [] then "" else if |xs| == 1 then xs[0] else xs[0] + "," + JoinComma(xs[1..])
  }

  /** The outcome of the permission block of `generateBundle`. */
  datatype PermsStep = PermsStep(permissions: seq<string>, warnings: seq<string>, permsHash: PermsHash, assetChanged: bool)

  /** Reuses the stored list after an asset-only change, otherwise derives the
      permissions from the chunks, warns when they are new, and stores them. */
  function DetectPermissions(assetChanged: bool, permsHash: PermsHash, bundle: Bundle,
                             table: seq<Detector>, verbose: bool): (r: PermsStep)
    ensures assetChanged && permsHash.Hash? ==>
      r.permissions == permsHash.perms && r.permsHash == permsHash && !r.assetChanged && r.warnings == []
    ensures !(assetChanged && permsHash.Hash?) ==>
      r.permissions == DerivePermissionsAll(Chunks(bundle), table) && r.permsHash == Hash(r.permissions) &&
      r.assetChanged == assetChanged && NoDups(r.permissions)
    ensures r.warnings != [] <==>
      !(assetChanged && permsHash.Hash?) && verbose && (permsHash.NoHash? || permsHash.perms != r.permissions)
    ensures |r.warnings| <= 1
    ensures r.permsHash.Hash?
  {
    if assetChanged && permsHash.Hash? then
      PermsStep(permsHash.perms, [], permsHash, false)
    else
      var chunks := Chunks(bundle);
      DerivePermissionsAllUnion(chunks, table);
      var permissions := DerivePermissionsAll(chunks, table);
      var warnings :=
        if !verbose then []
        else if permsHash.NoHash? then ["Detected permissions: " + JoinComma(permissions)]
        else if permsHash.perms != permissions then ["Detected new permissions: " + JoinComma(permissions)]
        else [];
      PermsStep(permissions, warnings, Hash(permissions), assetChanged)
  }

  /** The stored list is reused at most once: the reuse clears `assetChanged`, so the
      next build derives the permissions again. */
  lemma PermsReusedOnce(assetChanged: bool, permsHash: PermsHash, b1: Bundle, b2: Bundle, table: seq<Detector>, verbose: bool)
    requires assetChanged && permsHash.Hash?
    ensures var s1 := DetectPermissions(assetChanged, permsHash, b1, table, verbose);
      var s2 := DetectPermissions(s1.assetChanged, s1.permsHash, b2, table, verbose);
      s1.permissions == permsHash.perms &&
      s2.permissions == DerivePermissionsAll(Chunks(b2), table) &&
      (s2.warnings != [] <==> verbose && permsHash.perms != s2.permissions)
  {
  }

  /** `pkg`: the package details used as manifest defaults. */
  datatype Pkg = Pkg(name: string, version: string, description: string)

  /** The outcome of `validateManifest`: it returns its argument, or throws a
      `ValidationError` carrying a list of errors and a message. */
  datatype Validation = Valid | Invalid(errors: seq<string>, message: string)

  /** The options of `manifestInput` that `generateBundle` reads. */
  datatype PluginOptions = PluginOptions(pkg: Pkg, publicKey: Option<string>, verbose: bool, wakeEvents: seq<string>)

  /** The collaborators of `generateBundle`: the detector table, `validateManifest`,
      `combinePerms`, and `emitDynamicImportWrapper` (emit a loader for a script, give
      its output name; memoised, so a function of the script path). */
  datatype BundleEnv = BundleEnv(
    table: seq<Detector>,
    validate: Manifest -> Validation,
    combinePerms: (seq<string>, seq<string>) -> seq<string>,
    wrap: string -> string)

  /** The object handed to `validateManifest`: package defaults under the manifest's
      own fields, and the combined permissions. */
  function WithDefaults(m: Manifest, pkg: Pkg, permissions: seq<string>,
                        combinePerms: (seq<string>, seq<string>) -> seq<string>): (r: Manifest)
    ensures m.manifest_version.Some? ==> r.manifest_version == m.manifest_version
    ensures m.manifest_version.None? ==> r.manifest_version == Some(2)
    ensures r.name == (if m.name.Some? then m.name else Some(pkg.name))
    ensures r.version == (if m.version.Some? then m.version else Some(pkg.version))
    ensures r.description == (if m.description.Some? then m.description else Some(pkg.description))
    ensures r.permissions == Some(combinePerms(permissions, m.permissions.GetOr([])))
    ensures r.(manifest_version := m.manifest_version, name := m.name, version := m.version,
               description := m.description, permissions := m.permissions) == m
  {
    m.(manifest_version := if m.manifest_version.Some? then m.manifest_version else Some(2),
       name := if m.name.Some? then m.name else Some(pkg.name),
       version := if m.version.Some? then m.version else Some(pkg.version),
       description := if m.description.Some? then m.description else Some(pkg.description),
       permissions := Some(combinePerms(permissions, m.permissions.GetOr([]))))
  }

  /** The file names of the non-entry chunks, in bundle order. */
  function ImportedChunkNames(b: Bundle): (r: seq<string>)
    ensures forall x :: x in r <==>
      exists i :: 0 <= i < |b| && b[i].1.Chunk? && !b[i].1.isEntry && b[i].1.fileName == x
    decreases |b|
  {
    if b == [] then []
    else
      var o := b[|b| - 1].1;
      var init := b[..|b| - 1];
      var r := ImportedChunkNames(init) + (if o.Chunk? && !o.isEntry then [o.fileName] else []);
      assert forall i :: 0 <= i < |init| ==> init[i] == b[i];
      r
  }

  /** The `web_accessible_resources` step: when some content script lists js, the list
      becomes `dedupe([...war, ...imports, ...contentScripts])`. */
  function WithImports(body: Manifest, b: Bundle): (r: Manifest)
    ensures ScriptJs(Scripts(body)) == [] ==> r == body
    ensures ScriptJs(Scripts(body)) != [] ==>
      r == body.(web_accessible_resources :=
        Some(DedupeWar(body.web_accessible_resources.GetOr([]) + Paths(ImportedChunkNames(b)) + Paths(ScriptJs(Scripts(body))))))
  {
    var contentScripts := ScriptJs(Scripts(body));
    if |contentScripts| > 0 then
      var war := body.web_accessible_resources.GetOr([]);
      body.(web_accessible_resources := Some(DedupeWar(war + Paths(ImportedChunkNames(b)) + Paths(contentScripts))))
    else body
  }

  /** With content-script js the new list holds the old items, every non-entry chunk
      and every content script; each path occurs once, every old entry is kept (equal
      entries included) in its order, and the old list comes first when no path in it
      repeats. */
  lemma WithImportsSpec(body: Manifest, b: Bundle)
    requires ScriptJs(Scripts(body)) != []
    ensures var war := WithImports(body, b).web_accessible_resources;
      war.Some? && PathsUnique(war.value) &&
      (forall w :: w in war.value <==>
        w in body.web_accessible_resources.GetOr([]) ||
        (w.Path? && (w.path in ImportedChunkNames(b) || w.path in ScriptJs(Scripts(body))))) &&
      EntryItems(war.value) == EntryItems(body.web_accessible_resources.GetOr([])) &&
      (PathsUnique(body.web_accessible_resources.GetOr([])) ==> body.web_accessible_resources.GetOr([]) <= war.value)
  {
    var old_war := body.web_accessible_resources.GetOr([]);
    var imports := ImportedChunkNames(b);
    var scripts := ScriptJs(Scripts(body));
    assert Paths(imports) + Paths(scripts) == Paths(imports + scripts);
    assert old_war + Paths(imports) + Paths(scripts) == old_war + Paths(imports + scripts);
    DedupeWarAppendPaths(old_war, imports + scripts);
  }

  function Wrapped(xs: seq<string>, wrap: string -> string): (r: seq<string>)
    ensures |r| == |xs| && forall i :: 0 <= i < |xs| ==> r[i] == wrap(xs[i])
  {
    seq(|xs|, i requires 0 <= i < |xs| => wrap(xs[i]))
  }

  /** The dynamic-import wrapper step: with wake events, the background scripts and
      every content script's js are replaced by their wrappers; a manifest without
      content scripts loses the (empty) `content_scripts` field. */
  function WithWrappers(body: Manifest, wakeEvents: seq<string>, wrap: string -> string): (r: Manifest)
    ensures wakeEvents == [] ==> r == body
    ensures wakeEvents != [] ==>
      r.(background := body.background, content_scripts := body.content_scripts) == body &&
      (BackgroundScripts(body) == [] ==> r.background == body.background) &&
      (BackgroundScripts(body) != [] ==>
        r.background.Some? && r.background.value.(scripts := body.background.value.scripts) == body.background.value &&
        r.background.value.scripts == Some(Wrapped(BackgroundScripts(body), wrap))) &&
      (Scripts(body) == [] ==> r.content_scripts.None?) &&
      (Scripts(body) != [] ==>
        r.content_scripts.Some? && |r.content_scripts.value| == |Scripts(body)| &&
        forall i :: 0 <= i < |Scripts(body)| ==>
          r.content_scripts.value[i].(js := Scripts(body)[i].js) == Scripts(body)[i] &&
          r.content_scripts.value[i].js == Some(Wrapped(Scripts(body)[i].js.GetOr([]), wrap)))
  {
    if |wakeEvents| > 0 then
      var bgs := BackgroundScripts(body);
      var cts := Scripts(body);
      var b1 :=
        if |bgs| > 0 then body.(background := Some(body.background.value.(scripts := Some(Wrapped(bgs, wrap)))))
        else body;
      if |cts| > 0 then
        b1.(content_scripts := Some(seq(|cts|, i requires 0 <= i < |cts| =>
          cts[i].(js := Some(Wrapped(cts[i].js.GetOr([]), wrap))))))
      else b1.(content_scripts := None)
    else body
  }

  /** `if (publicKey) manifestBody.key = publicKey`: an empty key is ignored. */
  function WithKey(body: Manifest, publicKey: Option<string>): (r: Manifest)
    ensures publicKey.Some? && publicKey.value != "" ==> r == body.(key := publicKey)
    ensures publicKey.None? || publicKey.value == "" ==> r == body
  {
    if publicKey.Some? && publicKey.value != "" then body.(key := publicKey) else body
  }

  /** The `manifest.json` body that `generateBundle` emits (before serialisation), or
      the validation error it reports. */
  function EmittedManifest(m: Manifest, permissions: seq<string>, b: Bundle,
                           opts: PluginOptions, env: BundleEnv): (r: (seq<string>, Result<Manifest>))
  {
    var body := WithDefaults(m, opts.pkg, permissions, env.combinePerms);
    match env.validate(body)
    case Invalid(errors, message) => (errors, Err(Error(ValidationError, message)))
    case Valid => ([], Ok(WithKey(WithWrappers(WithImports(body, b), opts.wakeEvents, env.wrap), opts.publicKey)))
  }

  /** A valid manifest is emitted with the manifest's own fields over the package
      defaults, the combined permissions, and any public key; an invalid one yields
      its errors as warnings and a `ValidationError`. */
  lemma EmittedManifestSpec(m: Manifest, permissions: seq<string>, b: Bundle, opts: PluginOptions, env: BundleEnv)
    ensures var body := WithDefaults(m, opts.pkg, permissions, env.combinePerms);
      var (warnings, r) := EmittedManifest(m, permissions, b, opts, env);
      (env.validate(body).Invalid? ==>
        warnings == env.validate(body).errors && r == Err(Error(ValidationError, env.validate(body).message))) &&
      (env.validate(body).Valid? ==>
        warnings == [] && r.Ok? &&
        r.value.name == (if m.name.Some? then m.name else Some(opts.pkg.name)) &&
        r.value.manifest_version == (if m.manifest_version.Some? then m.manifest_version else Some(2)) &&
        r.value.permissions == Some(env.combinePerms(permissions, m.permissions.GetOr([]))) &&
        (opts.publicKey.Some? && opts.publicKey.value != "" ==> r.value.key == opts.publicKey) &&
        (opts.publicKey.None? || opts.publicKey.value == "" ==> r.value.key == m.key))
  {
  }

  /** The plugin's state: the fields of `ManifestInputPluginCache`, plus the
      closure variable `manifestPath`. `readFile` is the memoised file cache,
      of which only the keys matter here. */
  /** rollup's `chunkFileNames` option: a pattern string, or a naming function,
      which only its identity tells apart from another. */
  datatype ChunkFileNames = Pattern(pattern: string) | NamingFunction(id: nat)

  class Cache {
    var assets: seq<string>
    var input: seq<string>
    var permsHash: PermsHash
    var srcDir: Option<string>
    var readFile: set<string>
    var manifest: Option<Manifest>
    var assetChanged: bool
    var manifestPath: Option<string>
    /** Set by the MV3 rewrite (src/manifest-input/updateManifest.ts). */
    var chunkFileNames: Option<ChunkFileNames>

    /** The default cache of `manifestInput`. */
    constructor ()
      ensures assets == [] && input == [] && permsHash == NoHash && srcDir == None
      ensures readFile == {} && manifest == None && !assetChanged && manifestPath == None
      ensures chunkFileNames == None
    {
      assets := [];
      input := [];
      permsHash := NoHash;
      srcDir := None;
      readFile := {};
      manifest := None;
      assetChanged := false;
      manifestPath := None;
      chunkFileNames := None;
    }

    /** The `options` hook: loads and derives the manifest unless one is cached,
        then turns `cache.input` into rollup's input record. */
    method Options(opts: RollupOptions, env: InputEnv) returns (r: Result<RollupOptions>)
      requires manifest.None? && opts.input.InputPath? && !env.load(opts.input.path).isEmpty ==>
        WarShapeFits(env.load(opts.input.path).config)
      modifies this
      ensures permsHash == old(permsHash) && readFile == old(readFile) && assetChanged == old(assetChanged)
      ensures chunkFileNames == old(chunkFileNames)
      ensures old(manifest).Some? ==>
        manifest == old(manifest) && input == old(input) && assets == old(assets) &&
        srcDir == old(srcDir) && manifestPath == old(manifestPath)
      ensures old(manifest).None? && !opts.input.InputPath? ==>
        r == Err(Error(TypeError, InputTypeErrorMessage)) && unchanged(this)
      ensures old(manifest).None? && opts.input.InputPath? && env.load(opts.input.path).isEmpty ==>
        r == Err(EmptyFileError(opts.input.path)) && unchanged(this)
      ensures old(manifest).None? && opts.input.InputPath? && !env.load(opts.input.path).isEmpty ==>
        var loaded := env.load(opts.input.path);
        manifest == Some(loaded.config) && manifestPath == Some(loaded.filepath) &&
        srcDir.Some? && Loaded(srcDir.value, input, assets) == LoadedState(loaded, env)
      ensures manifest.Some? && input == [] ==> r == Err(Error(PlainError, NoInputMessage))
      ensures r.Ok? <==> manifest.Some? && input != []
      ensures r.Ok? ==> r.value == opts.(input := InputRecord(InputRecordOf(srcDir, input, env.reducer)))
    {
      if manifest.None? {
        if !opts.input.InputPath? {
          return Err(Error(TypeError, InputTypeErrorMessage));
        }
        var loaded := env.load(opts.input.path);
        if loaded.isEmpty {
          return Err(EmptyFileError(opts.input.path));
        }
        var state := LoadedState(loaded, env);
        Store(loaded, state);
      }
      if |input| == 0 {
        return Err(Error(PlainError, NoInputMessage));
      }
      r := Ok(opts.(input := InputRecord(InputRecordOf(srcDir, input, env.reducer))));
    }

    /** Records a freshly loaded manifest and what was derived from it. */
    method Store(loaded: LoadResult, state: Loaded)
      modifies this
      ensures manifest == Some(loaded.config) && manifestPath == Some(loaded.filepath)
      ensures srcDir == Some(state.srcDir) && input == state.input && assets == state.assets
      ensures permsHash == old(permsHash) && readFile == old(readFile) && assetChanged == old(assetChanged)
      ensures chunkFileNames == old(chunkFileNames)
    {
      manifestPath := Some(loaded.filepath);
      manifest := Some(loaded.config);
      srcDir := Some(state.srcDir);
      input := state.input;
      assets := state.assets;
    }

    /** The `watchChange` hook: a change to the manifest drops the cached manifest;
        a change to anything else forgets that file's cached contents and records
        whether there were any. */
    method WatchChange(id: string)
      modifies this
      ensures EndsWith(id, ManifestName) ==>
        manifest == None && !assetChanged && readFile == old(readFile)
      ensures !EndsWith(id, ManifestName) ==>
        manifest == old(manifest) && assetChanged == (id in old(readFile)) && readFile == old(readFile) - {id}
      ensures assets == old(assets) && input == old(input) && permsHash == old(permsHash)
      ensures srcDir == old(srcDir) && manifestPath == old(manifestPath) && chunkFileNames == old(chunkFileNames)
    {
      if EndsWith(id, ManifestName) {
        manifest := None;
        assetChanged := false;
      } else {
        assetChanged := id in readFile;
        readFile := readFile - {id};
      }
    }

    /** The `generateBundle` hook: the permission block updates the cache, then the
        manifest body is built step by step; the result is the emitted body, or the
        error the hook throws, with the warnings it issues. */
    method GenerateBundle(bundle: Bundle, opts: PluginOptions, env: BundleEnv)
      returns (warnings: seq<string>, r: Result<Manifest>)
      modifies this
      ensures var step := DetectPermissions(old(assetChanged), old(permsHash), bundle, env.table, opts.verbose);
        permsHash == step.permsHash && assetChanged == step.assetChanged &&
        (old(manifest).None? ==> warnings == step.warnings && r == Err(Error(TypeError, NoManifestMessage))) &&
        (old(manifest).Some? ==>
          var (errors, emitted) := EmittedManifest(old(manifest).value, step.permissions, bundle, opts, env);
          warnings == step.warnings + errors && r == emitted)
      ensures manifest == old(manifest) && assets == old(assets) && input == old(input)
      ensures srcDir == old(srcDir) && readFile == old(readFile) && manifestPath == old(manifestPath)
      ensures chunkFileNames == old(chunkFileNames)
    {
      var step := DetectPermissions(assetChanged, permsHash, bundle, env.table, opts.verbose);
      var permissions := step.permissions;
      warnings := step.warnings;
      permsHash := step.permsHash;
      assetChanged := step.assetChanged;

      if manifest.None? {
        return warnings, Err(Error(TypeError, NoManifestMessage));
      }
      var body := WithDefaults(manifest.value, opts.pkg, permissions, env.combinePerms);
      var validation := env.validate(body);
      if validation.Invalid? {
        return warnings + validation.errors, Err(Error(ValidationError, validation.message));
      }
      body := WithImports(body, bundle);
      body := WithWrappers(body, opts.wakeEvents, env.wrap);
      body := WithKey(body, opts.publicKey);
      r := Ok(body);
    }
  }
}
