/** The background plugins of src/node/plugin-background.ts: `crx:background-client`
    resolves the worker's HMR client id, and `crx:background-loader-file` replaces the
    manifest's background with a root-level module loader for the service worker. */
module PluginBackground {
  import opened Wrappers
  import opened Strings
  import opened ManifestTypes

  const LoaderFileName := "service-worker-loader.js"
  const NoPortMessage := "server port is undefined in watch mode"

  /** `resolveId(source)` of `crx:background-client`. */
  function ResolveId(source: string, workerClientId: string): (r: Option<string>)
    ensures r.Some? <==> source == "/" + workerClientId
    ensures r.Some? ==> r.value == workerClientId
  {
    if source == "/" + workerClientId then Some(workerClientId) else None
  }

  /** `manifest.background?.service_worker`, when it is set and not empty. */
  function Worker(m: Manifest): Option<string> {
    if m.background.Some? && m.background.value.service_worker.Some? && m.background.value.service_worker.value != ""
    then m.background.value.service_worker
    else None
  }

  /** `import 'http://localhost:${port}${workerClientId}';\n`. */
  function HmrImport(port: string, workerClientId: string): string {
    "import 'http://localhost:" + port + workerClientId + "';\n"
  }

  /** The loader's text: `Ok(None)` is the production build without a worker, where the
      hook returns `null`. */
  function Loader(watchMode: bool, port: Option<string>, worker: Option<string>, workerClientId: string): (r: Result<Option<string>>)
    ensures watchMode && port.None? <==> r.Err?
    ensures r.Err? ==> r.error == Error(PlainError, NoPortMessage)
    ensures !watchMode && worker.None? <==> r == Ok(None)
    ensures watchMode && port.Some? ==>
      (r.Ok? && r.value.Some? &&
       r.value.value == HmrImport(port.value, workerClientId) +
         (if worker.Some? then "import 'http://localhost:" + port.value + "/" + worker.value + "';\n" else ""))
    ensures !watchMode && worker.Some? ==> r == Ok(Some("import './" + worker.value + "';\n"))
  {
    if watchMode then
      if port.None? then Err(Error(PlainError, NoPortMessage))
      else
        var loader := HmrImport(port.value, workerClientId);
        Ok(Some(if worker.Some? then loader + "import 'http://localhost:" + port.value + "/" + worker.value + "';\n" else loader))
    else if worker.Some? then Ok(Some("import './" + worker.value + "';\n"))
    else Ok(None)
  }

  /** In watch mode the loader always begins with the HMR client import and imports the
      worker iff one is declared; in production it imports exactly the declared worker. */
  lemma LoaderImports(watchMode: bool, port: Option<string>, worker: Option<string>, workerClientId: string)
    requires Loader(watchMode, port, worker, workerClientId).Ok? && Loader(watchMode, port, worker, workerClientId).value.Some?
    ensures var loader := Loader(watchMode, port, worker, workerClientId).value.value;
      (watchMode ==>
        (StartsWith(loader, HmrImport(port.value, workerClientId)) &&
         (worker.Some? <==> loader != HmrImport(port.value, workerClientId)))) &&
      (!watchMode ==> worker.Some? && loader == "import './" + worker.value + "';\n")
  {
    var loader := Loader(watchMode, port, worker, workerClientId).value.value;
    if watchMode && worker.Some? {
      assert |loader| > |HmrImport(port.value, workerClientId)|;
    }
  }

  /** The background the hook writes: the loader file as a module service worker. */
  const LoaderBackground := Background(None, None, Some(LoaderFileName), Some("module"), None)

  /** What the hook yields: the new manifest and the text of the emitted loader asset. */
  datatype LoaderOutput = LoaderOutput(manifest: Manifest, loader: string)

  /** The closure state of the plugin factory. */
  class BackgroundPlugin {
    var port: Option<string>

    constructor ()
      ensures port == None
    {
      port := None;
    }

    /** `fileWriterStart(server)`: the dev server's port as text; a missing port makes
        `toString` throw. */
    method FileWriterStart(serverPort: Option<nat>) returns (r: Result<()>)
      modifies this
      ensures serverPort.Some? ==> r.Ok? && port == Some(NatToString(serverPort.value))
      ensures serverPort.None? ==>
        r == Err(Error(TypeError, "Cannot read properties of undefined (reading 'toString')")) && port == old(port)
    {
      if serverPort.None? {
        return Err(Error(TypeError, "Cannot read properties of undefined (reading 'toString')"));
      }
      port := Some(NatToString(serverPort.value));
      r := Ok(());
    }

    /** `renderCrxManifest(manifest)`: the emitted asset has the fixed file name
        `service-worker-loader.js`, which is the name `getFileName` gives back. */
    method RenderCrxManifest(m: Manifest, watchMode: bool, workerClientId: string) returns (r: Result<Option<LoaderOutput>>)
      ensures var loader := Loader(watchMode, port, Worker(m), workerClientId);
        (loader.Err? ==> r == Err(loader.error)) &&
        (loader == Ok(None) ==> r == Ok(None)) &&
        (loader.Ok? && loader.value.Some? ==>
          r == Ok(Some(LoaderOutput(m.(background := Some(LoaderBackground)), loader.value.value))))
    {
      var loader := Loader(watchMode, port, Worker(m), workerClientId);
      if loader.Err? {
        return Err(loader.error);
      }
      if loader.value.None? {
        return Ok(None);
      }
      r := Ok(Some(LoaderOutput(m.(background := Some(LoaderBackground)), loader.value.value)));
    }
  }
}
