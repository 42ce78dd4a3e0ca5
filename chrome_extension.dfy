/** The `chromeExtension` plugin of src/index.ts: its `options` hook threads rollup's
    options through the manifest and html plugins and rewords their "no script"
    errors; `watchChange` and `generateBundle` delegate to the sub-plugins in order. */
module ChromeExtension {
  import opened Wrappers
  import opened Strings
  import opened ManifestTypes
  import opened Helpers
  import opened ManifestParser
  import opened ManifestInput

  const PluginName := "chrome-extension"
  const HtmlNoScriptMessage := "At least one HTML file must have at least one script."
  const NoScriptMessage := "A Chrome extension must have at least one script or HTML file."

  /** A sub-plugin's `options` hook: it throws, or returns new options or a falsy value. */
  type OptionsHook = RollupOptions -> Result<Option<RollupOptions>>

  /** The `catch` block: either "no script" message becomes the extension-wide one,
      anything else is rethrown as it is. */
  function Translate(e: Error): (r: Error)
    ensures e.message == NoInputMessage || e.message == HtmlNoScriptMessage ==> r == Error(PlainError, NoScriptMessage)
    ensures e.message != NoInputMessage && e.message != HtmlNoScriptMessage ==> r == e
  {
    if e.message == NoInputMessage || e.message == HtmlNoScriptMessage then Error(PlainError, NoScriptMessage) else e
  }

  /** Rewording twice is rewording once. */
  lemma TranslateIdempotent(e: Error)
    ensures Translate(Translate(e)) == Translate(e)
  {
  }

  /** The manifest plugin's "empty file" error is no "no script" message, so the
      `catch` rethrows it as it is. */
  lemma {:induction false} EmptyFileErrorKept(path: string)
    ensures Translate(EmptyFileError(path)) == EmptyFileError(path)
  {
    var m := path + " is an empty file.";
    assert m[|m| - 7] == 'y';
    assert NoInputMessage[|NoInputMessage| - 7] == 'L';
    assert HtmlNoScriptMessage[|HtmlNoScriptMessage| - 7] == 's';
  }

  /** `hooks.reduce((opts, plugin) => plugin.options(opts) || options, acc)`. */
  function OptionsFold(hooks: seq<OptionsHook>, acc: RollupOptions, original: RollupOptions): Result<RollupOptions>
  {
    if |hooks| == 0 then Ok(acc)
    else match hooks[0](acc)
      case Err(e) => Err(e)
      case Ok(res) => OptionsFold(hooks[1..], res.GetOr(original), original)
  }

  /** One step of the reduce: a falsy result falls back to the ORIGINAL options. */
  function Step(acc: Result<RollupOptions>, hook: OptionsHook, original: RollupOptions): Result<RollupOptions>
  {
    match acc
      case Err(e) => Err(e)
      case Ok(a) =>
        match hook(a)
          case Err(e) => Err(e)
          case Ok(res) => Ok(res.GetOr(original))
  }

  /** The last hook acts on what the earlier ones produced. */
  lemma {:induction false} OptionsFoldSnoc(hooks: seq<OptionsHook>, hook: OptionsHook, acc: RollupOptions, original: RollupOptions)
    ensures OptionsFold(hooks + [hook], acc, original) == Step(OptionsFold(hooks, acc, original), hook, original)
  {
    if |hooks| > 0 {
      assert (hooks + [hook])[1..] == hooks[1..] + [hook];
      match hooks[0](acc)
        case Err(e) =>
        case Ok(res) => OptionsFoldSnoc(hooks[1..], hook, res.GetOr(original), original);
    }
  }

  /** What the reduce can yield: an error some hook threw, or the original options, or
      options some hook returned; and when the last hook returns a falsy value the
      result is the original options, whatever the earlier hooks returned. */
  lemma {:induction false} OptionsFoldSpec(hooks: seq<OptionsHook>, original: RollupOptions)
    ensures var r := OptionsFold(hooks, original, original);
      (r.Err? ==> exists k, x :: 0 <= k < |hooks| && hooks[k](x) == Err(r.error)) &&
      (r.Ok? ==> r.value == original || exists k, x :: 0 <= k < |hooks| && hooks[k](x) == Ok(Some(r.value)))
    ensures |hooks| > 0 ==>
      var before := OptionsFold(hooks[..|hooks| - 1], original, original);
      before.Ok? && hooks[|hooks| - 1](before.value) == Ok(None) ==> OptionsFold(hooks, original, original) == Ok(original)
  {
    if |hooks| > 0 {
      var init := hooks[..|hooks| - 1];
      var last := hooks[|hooks| - 1];
      assert hooks == init + [last];
      OptionsFoldSnoc(init, last, original, original);
      OptionsFoldSpec(init, original);
      var before := OptionsFold(init, original, original);
      var r := OptionsFold(hooks, original, original);
      if before.Err? {
        var k, x :| 0 <= k < |init| && init[k](x) == Err(before.error);
        assert hooks[k] == init[k];
      } else if r.Err? {
        assert last(before.value) == Err(r.error);
      } else if last(before.value) != Ok(None) {
        assert last(before.value) == Ok(Some(r.value));
      }
    }
  }

  /** The `options` hook: the reduce over the sub-plugins, its error reworded. */
  function ChromeOptions(hooks: seq<OptionsHook>, options: RollupOptions): (r: Result<RollupOptions>)
    ensures r.Ok? <==> OptionsFold(hooks, options, options).Ok?
    ensures r.Ok? ==> r.value == OptionsFold(hooks, options, options).value
  {
    match OptionsFold(hooks, options, options)
      case Err(e) => Err(Translate(e))
      case Ok(o) => Ok(o)
  }

  /** The error `options` throws: the rewording of one a sub-plugin threw, so the manifest
      plugin's "no script or HTML file" and the html plugin's "no script" both surface as
      the extension-wide message. */
  lemma ChromeOptionsErrors(hooks: seq<OptionsHook>, options: RollupOptions)
    requires ChromeOptions(hooks, options).Err?
    ensures exists k, x, e :: 0 <= k < |hooks| && hooks[k](x) == Err(e) && ChromeOptions(hooks, options).error == Translate(e)
    ensures ChromeOptions(hooks, options).error.message != NoInputMessage
    ensures ChromeOptions(hooks, options).error.message != HtmlNoScriptMessage
  {
    OptionsFoldSpec(hooks, options);
    var e := OptionsFold(hooks, options, options).error;
    var k, x :| 0 <= k < |hooks| && hooks[k](x) == Err(e);
  }

  /** A hook that returns `x` whatever it is given. */
  function Returning(x: RollupOptions): OptionsHook {
    _ => Ok(Some(x))
  }

  /** The plugin object: the manifest plugin's cache it shares with its sub-plugins. */
  class ChromeExtensionPlugin {
    const manifest: Cache

    constructor ()
      ensures fresh(manifest)
      ensures manifest.manifest == None && manifest.input == [] && manifest.assets == []
    {
      manifest := new Cache();
    }

    /** `options(options)`: the manifest plugin first, then the html plugin `html`. */
    method Options(opts: RollupOptions, env: InputEnv, html: OptionsHook) returns (r: Result<RollupOptions>)
      requires manifest.manifest.None? && opts.input.InputPath? && !env.load(opts.input.path).isEmpty ==>
        WarShapeFits(env.load(opts.input.path).config)
      modifies manifest
      ensures manifest.permsHash == old(manifest.permsHash) && manifest.readFile == old(manifest.readFile)
      ensures manifest.assetChanged == old(manifest.assetChanged) && manifest.chunkFileNames == old(manifest.chunkFileNames)
      ensures old(manifest.manifest).Some? ==>
        manifest.manifest == old(manifest.manifest) && manifest.input == old(manifest.input) &&
        manifest.assets == old(manifest.assets) && manifest.srcDir == old(manifest.srcDir) &&
        manifest.manifestPath == old(manifest.manifestPath)
      ensures old(manifest.manifest).None? && !opts.input.InputPath? ==>
        r == Err(Error(TypeError, InputTypeErrorMessage)) && unchanged(manifest)
      ensures old(manifest.manifest).None? && opts.input.InputPath? && env.load(opts.input.path).isEmpty ==>
        r == Err(EmptyFileError(opts.input.path)) && unchanged(manifest)
      ensures old(manifest.manifest).None? && opts.input.InputPath? && !env.load(opts.input.path).isEmpty ==>
        var loaded := env.load(opts.input.path);
        manifest.manifest == Some(loaded.config) && manifest.manifestPath == Some(loaded.filepath) &&
        manifest.srcDir.Some? && Loaded(manifest.srcDir.value, manifest.input, manifest.assets) == LoadedState(loaded, env)
      ensures manifest.manifest.Some? && manifest.input == [] ==> r == Err(Error(PlainError, NoScriptMessage))
      ensures manifest.manifest.Some? && manifest.input != [] ==>
        r == ChromeOptions([Returning(opts.(input := InputRecord(InputRecordOf(manifest.srcDir, manifest.input, env.reducer)))), html], opts)
      ensures r.Ok? ==> manifest.manifest.Some? && manifest.input != []
    {
      var mr := manifest.Options(opts, env);
      if mr.Err? {
        if opts.input.InputPath? { EmptyFileErrorKept(opts.input.path); }
        return Err(Translate(mr.error));
      }
      var hr := html(mr.value);
      var hooks := [Returning(mr.value), html];
      assert hooks[1..] == [html];
      assert OptionsFold(hooks, opts, opts) == OptionsFold([html], mr.value, opts);
      if hr.Err? {
        assert OptionsFold([html], mr.value, opts) == Err(hr.error);
        r := Err(Translate(hr.error));
      } else {
        assert [html][1..] == [];
        assert OptionsFold([html], mr.value, opts) == Ok(hr.value.GetOr(opts));
        r := Ok(hr.value.GetOr(opts));
      }
      assert r == ChromeOptions(hooks, opts);
    }

    /** `watchChange(id)`: the manifest plugin's cache invalidation (the html plugin's
        own cache is not part of this model). */
    method WatchChange(id: string)
      modifies manifest
      ensures EndsWith(id, ManifestName) ==>
        manifest.manifest == None && !manifest.assetChanged && manifest.readFile == old(manifest.readFile)
      ensures !EndsWith(id, ManifestName) ==>
        manifest.manifest == old(manifest.manifest) && manifest.assetChanged == (id in old(manifest.readFile)) &&
        manifest.readFile == old(manifest.readFile) - {id}
      ensures manifest.assets == old(manifest.assets) && manifest.input == old(manifest.input)
      ensures manifest.permsHash == old(manifest.permsHash) && manifest.srcDir == old(manifest.srcDir)
      ensures manifest.manifestPath == old(manifest.manifestPath) && manifest.chunkFileNames == old(manifest.chunkFileNames)
    {
      manifest.WatchChange(id);
    }

    /** `generateBundle(...)`: the manifest plugin, then the name validation `validate`,
        which runs only when the manifest plugin did not throw. */
    method GenerateBundle(bundle: Bundle, opts: PluginOptions, env: BundleEnv, validate: Bundle -> Result<()>)
      returns (warnings: seq<string>, r: Result<Manifest>)
      modifies manifest
      ensures var step := DetectPermissions(old(manifest.assetChanged), old(manifest.permsHash), bundle, env.table, opts.verbose);
        manifest.permsHash == step.permsHash && manifest.assetChanged == step.assetChanged
      ensures var step := DetectPermissions(old(manifest.assetChanged), old(manifest.permsHash), bundle, env.table, opts.verbose);
        old(manifest.manifest).None? ==> warnings == step.warnings && r == Err(Error(TypeError, NoManifestMessage))
      ensures old(manifest.manifest).Some? ==>
        var step := DetectPermissions(old(manifest.assetChanged), old(manifest.permsHash), bundle, env.table, opts.verbose);
        var (errors, emitted) := EmittedManifest(old(manifest.manifest).value, step.permissions, bundle, opts, env);
        warnings == step.warnings + errors &&
        (emitted.Err? ==> r == emitted) &&
        (emitted.Ok? && validate(bundle).Err? ==> r == Err(validate(bundle).error)) &&
        (emitted.Ok? && validate(bundle).Ok? ==> r == emitted)
      ensures manifest.manifest == old(manifest.manifest) && manifest.assets == old(manifest.assets) &&
        manifest.input == old(manifest.input)
      ensures manifest.srcDir == old(manifest.srcDir) && manifest.readFile == old(manifest.readFile) &&
        manifest.manifestPath == old(manifest.manifestPath) && manifest.chunkFileNames == old(manifest.chunkFileNames)
    {
      var mr;
      warnings, mr := manifest.GenerateBundle(bundle, opts, env);
      if mr.Err? {
        return warnings, mr;
      }
      var vr := validate(bundle);
      if vr.Err? {
        return warnings, Err(vr.error);
      }
      r := mr;
    }
  }
}
