/** The simple reloader of src/plugin-reloader-simple/index.ts: in watch mode its
    `generateBundle` emits a timestamp file and two reloader scripts, prepends them to
    the manifest's background scripts and to every content script, and drops the
    timestamp asset from the bundle. The `SimpleReloaderCache` is the class `ReloaderCache`. */
module SimpleReloader {
  import opened Wrappers
  import opened Strings
  import opened ManifestTypes
  import opened Helpers

  const PluginName := "chrome-extension-simple-reloader"
  const NoBackgroundReloader := "Unable to emit background page reloader"
  const NoContentReloader := "Unable to emit content script reloader"

  /** `!process.env.ROLLUP_WATCH`: unset or empty means no plugin. */
  predicate Enabled(rollupWatch: Option<string>) {
    rollupWatch.Some? && rollupWatch.value != ""
  }

  /** The names and client code from ./CONSTANTS and the bundled client files, and the
      file name `getFileName(emitFile(...))` gives an asset (`isFileName` says whether
      `name` is a fixed file name). */
  datatype ReloaderEnv = ReloaderEnv(
    timestampFilename: string,
    backgroundPageReloader: string,
    contentScriptReloader: string,
    timestampPathPlaceholder: string,
    loadMessagePlaceholder: string,
    bgClientCode: string,
    ctClientCode: string,
    emit: (string, string, bool) -> string)

  /** `['DEVELOPMENT build with simple auto-reloader.', `Loaded on ${time}.`].join('\n')`. */
  function LoadMessage(time: string): string {
    "DEVELOPMENT build with simple auto-reloader.\nLoaded on " + time + "."
  }

  /** `{ js = [], ...rest }` with the content reloader in front. */
  function WithContentReloader(cs: ContentScript, ctPath: string): (r: ContentScript)
    ensures r.js == Some([ctPath] + cs.js.GetOr([]))
    ensures r.(js := cs.js) == cs
  {
    cs.(js := Some([ctPath] + cs.js.GetOr([])))
  }

  /** The updater handed to `updateManifest`. */
  function ReloadManifest(m: Manifest, bgPath: string, ctPath: string, loadMessage: string): (r: Result<Manifest>)
    ensures bgPath == "" ==> r == Err(Error(PlainError, NoBackgroundReloader))
    ensures bgPath != "" && ctPath == "" ==> r == Err(Error(PlainError, NoContentReloader))
    ensures r.Ok? <==> bgPath != "" && ctPath != ""
  {
    var bg := m.background.GetOr(EmptyBackground).(persistent := Some(true));
    if bgPath == "" then Err(Error(PlainError, NoBackgroundReloader))
    else
      var bg' := bg.(scripts := Some([bgPath] + bg.scripts.GetOr([])));
      if ctPath == "" then Err(Error(PlainError, NoContentReloader))
      else
        var cts := Scripts(m);
        Ok(m.(description := Some(loadMessage), background := Some(bg'),
              content_scripts := Some(seq(|cts|, k requires 0 <= k < |cts| => WithContentReloader(cts[k], ctPath)))))
  }

  /** The reloaded manifest: the load message as `description`, a persistent background
      (created if absent) whose scripts start with the background reloader followed by
      the old ones, the content reloader first in every content script's `js`, the same
      number of content scripts, and nothing else changed. */
  lemma ReloadManifestSpec(m: Manifest, bgPath: string, ctPath: string, loadMessage: string)
    requires bgPath != "" && ctPath != ""
    ensures var r := ReloadManifest(m, bgPath, ctPath, loadMessage).value;
      r.description == Some(loadMessage) &&
      r.background.Some? && r.background.value.persistent == Some(true) &&
      r.background.value.scripts == Some([bgPath] + (if m.background.Some? then m.background.value.scripts.GetOr([]) else [])) &&
      r.background.value.(scripts := None, persistent := None) == m.background.GetOr(EmptyBackground).(scripts := None, persistent := None) &&
      r.content_scripts.Some? && |r.content_scripts.value| == |Scripts(m)| &&
      (forall k :: 0 <= k < |Scripts(m)| ==>
        r.content_scripts.value[k].js == Some([ctPath] + Scripts(m)[k].js.GetOr([])) &&
        r.content_scripts.value[k].(js := Scripts(m)[k].js) == Scripts(m)[k]) &&
      r.(description := m.description, background := m.background, content_scripts := m.content_scripts) == m
  {
  }

  /** What `generateBundle` emits and hands on: the emitted file names, and the bundle
      after `updateManifest` and the removal of the timestamp asset. */
  datatype Emitted = Emitted(timestampPath: string, bgScriptPath: string, ctScriptPath: string)

  /** The background reloader's source: the timestamp path, then the load message, put
      in for their placeholders. */
  function BgCode(env: ReloaderEnv, timestampPath: string, loadMessage: string): string {
    ReplaceFirst(ReplaceFirst(env.bgClientCode, env.timestampPathPlaceholder, timestampPath), env.loadMessagePlaceholder, loadMessage)
  }

  /** The content reloader's source: the load message put in for its placeholder. */
  function CtCode(env: ReloaderEnv, loadMessage: string): string {
    ReplaceFirst(env.ctClientCode, env.loadMessagePlaceholder, loadMessage)
  }

  /** The three emissions, in order: the timestamp file, then the two reloaders with
      their placeholders filled in. */
  function EmitClients(env: ReloaderEnv, timestamp: string, loadMessage: string): Emitted
  {
    var ts := env.emit(env.timestampFilename, timestamp, true);
    var bg := env.emit(env.backgroundPageReloader, BgCode(env, ts, loadMessage), false);
    var ct := env.emit(env.contentScriptReloader, CtCode(env, loadMessage), false);
    Emitted(ts, bg, ct)
  }

  /** The bundle after the three `this.emitFile` calls: rollup puts each emitted asset
      into the bundle under its file name as it is emitted. */
  function WithClients(b: Bundle, env: ReloaderEnv, timestamp: string, loadMessage: string, e: Emitted): Bundle
  {
    var withTs := Put(b, e.timestampPath, Asset(e.timestampPath, timestamp));
    var withBg := Put(withTs, e.bgScriptPath, Asset(e.bgScriptPath, BgCode(env, e.timestampPath, loadMessage)));
    Put(withBg, e.ctScriptPath, Asset(e.ctScriptPath, CtCode(env, loadMessage)))
  }

  /** With three distinct file names the emitted bundle holds the timestamp file and
      both reloaders, and every other entry looks up as before. */
  lemma ClientsInBundle(b: Bundle, env: ReloaderEnv, timestamp: string, loadMessage: string, e: Emitted)
    requires e.timestampPath != e.bgScriptPath && e.timestampPath != e.ctScriptPath && e.bgScriptPath != e.ctScriptPath
    ensures var w := WithClients(b, env, timestamp, loadMessage, e);
      Lookup(w, e.timestampPath) == Some(Asset(e.timestampPath, timestamp)) &&
      Lookup(w, e.bgScriptPath) == Some(Asset(e.bgScriptPath, BgCode(env, e.timestampPath, loadMessage))) &&
      Lookup(w, e.ctScriptPath) == Some(Asset(e.ctScriptPath, CtCode(env, loadMessage))) &&
      forall k :: k != e.timestampPath && k != e.bgScriptPath && k != e.ctScriptPath ==> Lookup(w, k) == Lookup(b, k)
  {
  }

  class ReloaderCache {
    var bgScriptPath: Option<string>
    var ctScriptPath: Option<string>
    var timestampPath: Option<string>
    var outputDir: Option<string>
    var loadMessage: Option<string>

    /** `cache = {}`. */
    constructor ()
      ensures bgScriptPath == None && ctScriptPath == None && timestampPath == None
      ensures outputDir == None && loadMessage == None
    {
      bgScriptPath := None;
      ctScriptPath := None;
      timestampPath := None;
      outputDir := None;
      loadMessage := None;
    }

    /** `generateBundle({ dir }, bundle)`. `time` and `timestamp` stand for
        `new Date().toTimeString()` and `JSON.stringify(Date.now())`; `updateManifest`
        applies the updater to the bundle's manifest. The emitted assets are in the
        bundle `updateManifest` gets; the timestamp file is then deleted from it, and
        when the updater keeps the two reloader entries they are in the result. */
    method GenerateBundle(dir: Option<string>, bundle: Bundle, env: ReloaderEnv, time: string, timestamp: string,
                          updateManifest: (Manifest -> Result<Manifest>, Bundle) -> Result<Bundle>)
      returns (r: Result<Bundle>)
      modifies this
      ensures var e := EmitClients(env, timestamp, LoadMessage(time));
        outputDir == dir && loadMessage == Some(LoadMessage(time)) &&
        timestampPath == Some(e.timestampPath) && bgScriptPath == Some(e.bgScriptPath) &&
        ctScriptPath == Some(e.ctScriptPath) &&
        var withClients := WithClients(bundle, env, timestamp, LoadMessage(time), e);
        var updated := updateManifest(m => ReloadManifest(m, e.bgScriptPath, e.ctScriptPath, LoadMessage(time)), withClients);
        (updated.Err? ==> r == updated) &&
        (updated.Ok? ==> r == Ok(Delete(updated.value, e.timestampPath)))
      ensures var e := EmitClients(env, timestamp, LoadMessage(time));
        r.Ok? ==> Lookup(r.value, e.timestampPath) == None
      ensures var e := EmitClients(env, timestamp, LoadMessage(time));
        var withClients := WithClients(bundle, env, timestamp, LoadMessage(time), e);
        var updated := updateManifest(m => ReloadManifest(m, e.bgScriptPath, e.ctScriptPath, LoadMessage(time)), withClients);
        e.timestampPath != e.bgScriptPath && e.timestampPath != e.ctScriptPath && e.bgScriptPath != e.ctScriptPath &&
        updated.Ok? && Lookup(updated.value, e.bgScriptPath) == Lookup(withClients, e.bgScriptPath) &&
        Lookup(updated.value, e.ctScriptPath) == Lookup(withClients, e.ctScriptPath) ==>
          r.Ok? &&
          Lookup(r.value, e.bgScriptPath) == Some(Asset(e.bgScriptPath, BgCode(env, e.timestampPath, LoadMessage(time)))) &&
          Lookup(r.value, e.ctScriptPath) == Some(Asset(e.ctScriptPath, CtCode(env, LoadMessage(time))))
    {
      outputDir := dir;
      var message := LoadMessage(time);
      loadMessage := Some(message);
      var e := EmitClients(env, timestamp, message);
      timestampPath := Some(e.timestampPath);
      bgScriptPath := Some(e.bgScriptPath);
      ctScriptPath := Some(e.ctScriptPath);
      var withClients := WithClients(bundle, env, timestamp, message, e);
      var updated := updateManifest(m => ReloadManifest(m, e.bgScriptPath, e.ctScriptPath, message), withClients);
      if updated.Err? {
        return updated;
      }
      r := Ok(Delete(updated.value, e.timestampPath));
      LookupDelete(updated.value, e.timestampPath);
      if e.timestampPath != e.bgScriptPath && e.timestampPath != e.ctScriptPath && e.bgScriptPath != e.ctScriptPath {
        ClientsInBundle(bundle, env, timestamp, message, e);
      }
    }
  }

  /** After `generateBundle` the timestamp asset is gone and every other entry is
      kept, in its order: with the timestamp entry between `before` and `after`, the
      bundle is what remains of the two. */
  lemma TimestampDropped(updated: Bundle, timestampPath: string)
    ensures forall p :: p in Delete(updated, timestampPath) ==> p.0 != timestampPath
    ensures forall p :: p in updated && p.0 != timestampPath ==> p in Delete(updated, timestampPath)
    ensures forall i :: 0 <= i < |updated| && updated[i].0 == timestampPath ==>
      Delete(updated, timestampPath) == Delete(updated[..i], timestampPath) + Delete(updated[i + 1..], timestampPath)
  {
    forall i | 0 <= i < |updated| && updated[i].0 == timestampPath
      ensures Delete(updated, timestampPath) == Delete(updated[..i], timestampPath) + Delete(updated[i + 1..], timestampPath)
    {
      assert updated == updated[..i] + updated[i..];
      DeleteConcat(updated[..i], updated[i..], timestampPath);
    }
  }
}
