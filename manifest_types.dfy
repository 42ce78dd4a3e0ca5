/** The extension manifest as the plugins see it after `JSON.parse`: every
    field the core reads or writes, each optional field an `Option`. A JSON
    object with string values whose key order matters (`Object.values`) is a
    `Dict`, a sequence of key/value pairs. */
module ManifestTypes {
  import opened Wrappers

  type Dict = seq<(string, string)>

  /** `Object.values(d)` of an object given as its key/value pairs in key order. */
  function Values<V>(d: seq<(string, V)>): (r: seq<V>)
    ensures |r| == |d| && forall i :: 0 <= i < |d| ==> r[i] == d[i].1
  {
    seq(|d|, i requires 0 <= i < |d| => d[i].1)
  }

  /** `default_icon` is either one path or a record of paths by size. */
  datatype Icon = IconPath(path: string) | IconSet(sizes: Dict)

  /** `action`, `browser_action` and `page_action`. */
  datatype Action = Action(default_popup: Option<string>, default_icon: Option<Icon>)

  /** `background`: `scripts`/`page`/`persistent` in MV2, `service_worker`/`type` in MV3. */
  datatype Background = Background(
    scripts: Option<seq<string>>,
    page: Option<string>,
    service_worker: Option<string>,
    workerType: Option<string>,
    persistent: Option<bool>)

  const EmptyBackground := Background(None, None, None, None, None)

  /** A declared content script; `rest` stands for every field the core does not read
      (`run_at`, `all_frames`, ...), which the plugins carry along unchanged. */
  datatype ContentScript = ContentScript(
    js: Option<seq<string>>,
    css: Option<seq<string>>,
    matches: Option<seq<string>>,
    rest: Dict)

  /** One element of `web_accessible_resources`: a path (MV2) or an entry scoped by
      match patterns (MV3). The JSON array is not typed, so both kinds share one list. */
  datatype WarItem = Path(path: string) | Entry(matches: seq<string>, resources: seq<string>)

  predicate AllPaths(war: seq<WarItem>) {
    forall i :: 0 <= i < |war| ==> war[i].Path?
  }

  predicate AllEntries(war: seq<WarItem>) {
    forall i :: 0 <= i < |war| ==> war[i].Entry?
  }

  function Paths(xs: seq<string>): (r: seq<WarItem>)
    ensures |r| == |xs| && AllPaths(r)
    ensures forall i :: 0 <= i < |xs| ==> r[i] == Path(xs[i])
  {
    seq(|xs|, i requires 0 <= i < |xs| => Path(xs[i]))
  }

  datatype Manifest = Manifest(
    manifest_version: Option<int>,
    name: Option<string>,
    version: Option<string>,
    description: Option<string>,
    background: Option<Background>,
    content_scripts: Option<seq<ContentScript>>,
    web_accessible_resources: Option<seq<WarItem>>,
    options_page: Option<string>,
    options_ui_page: Option<string>,
    devtools_page: Option<string>,
    action: Option<Action>,
    browser_action: Option<Action>,
    page_action: Option<Action>,
    icons: Option<Dict>,
    chrome_url_overrides: Option<Dict>,
    host_permissions: Option<seq<string>>,
    permissions: Option<seq<string>>,
    key: Option<string>)

  /** `isMV2(manifest)`: the schema-version test of the content-script plugins. */
  predicate IsMV2(m: Manifest) {
    m.manifest_version == Some(2)
  }

  /** `content_scripts ?? []`. */
  function Scripts(m: Manifest): seq<ContentScript> {
    m.content_scripts.GetOr([])
  }

  /** `content_scripts.reduce((r, { js = [] }) => [...r, ...js], [])`. */
  function ScriptJs(scripts: seq<ContentScript>): (r: seq<string>)
    ensures forall x :: x in r <==> exists k :: 0 <= k < |scripts| && x in scripts[k].js.GetOr([])
    decreases |scripts|
  {
    if scripts == [] then []
    else
      var p := scripts[..|scripts| - 1];
      var r := ScriptJs(p) + scripts[|scripts| - 1].js.GetOr([]);
      assert forall x :: x in r <==> exists k :: 0 <= k < |scripts| && x in scripts[k].js.GetOr([]) by {
        forall x ensures x in r <==> exists k :: 0 <= k < |scripts| && x in scripts[k].js.GetOr([]) {
          if x in scripts[|scripts| - 1].js.GetOr([]) {
            assert exists k :: 0 <= k < |scripts| && x in scripts[k].js.GetOr([]) by {
              assert x in scripts[|scripts| - 1].js.GetOr([]);
            }
          }
          if exists k :: 0 <= k < |scripts| && x in scripts[k].js.GetOr([]) {
            var k :| 0 <= k < |scripts| && x in scripts[k].js.GetOr([]);
            if k < |scripts| - 1 { assert scripts[k] == p[k]; }
          }
        }
      }
      r
  }

  /** `content_scripts.reduce((r, { css = [] }) => [...r, ...css], [])`. */
  function ScriptCss(scripts: seq<ContentScript>): seq<string>
    decreases |scripts|
  {
    if scripts == [] then []
    else ScriptCss(scripts[..|scripts| - 1]) + scripts[|scripts| - 1].css.GetOr([])
  }
}
