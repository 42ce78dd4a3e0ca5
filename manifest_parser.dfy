/** Reference extraction from the manifest and permission derivation
    (src/manifest-input/manifest-parser/index.ts). */
module ManifestParser {
  import opened Wrappers
  import opened SeqSet
  import opened Strings
  import opened ManifestTypes
  import opened Helpers

  /* ------------------------------ permissions ------------------------------ */

  /** One row of the permission table exported by `./permissions`: a permission
      name and the detector that recognises its use in compiled code. */
  datatype Detector = Detector(name: string, accepts: string -> bool)

  /** The names whose detector accepts `code`, in table order
      (`Object.entries(permissions).filter(([, fn]) => fn(code)).map(([key]) => key)`). */
  function Accepted(table: seq<Detector>, code: string): (r: seq<string>)
    ensures forall p :: p in r <==> exists d :: d in table && d.name == p && d.accepts(code)
    decreases |table|
  {
    if table == [] then []
    else
      var last := table[|table| - 1];
      var r := Accepted(table[..|table| - 1], code) + (if last.accepts(code) then [last.name] else []);
      assert table == table[..|table| - 1] + [last];
      r
  }

  /** `derivePermissions(set, chunk)`: adds the accepted names to the set, in table order. */
  function DerivePermissions(s: seq<string>, chunk: Output, table: seq<Detector>): (r: seq<string>)
    requires chunk.Chunk?
    ensures s <= r
    ensures forall p :: p in r <==> p in s || exists d :: d in table && d.name == p && d.accepts(chunk.code)
    ensures NoDups(s) ==> NoDups(r)
  {
    AddAll(s, Accepted(table, chunk.code))
  }

  /** `chunks.reduce(derivePermissions, new Set())`. */
  function DerivePermissionsAll(chunks: seq<Output>, table: seq<Detector>): (r: seq<string>)
    requires forall k :: 0 <= k < |chunks| ==> chunks[k].Chunk?
    decreases |chunks|
  {
    if chunks == [] then []
    else DerivePermissions(DerivePermissionsAll(chunks[..|chunks| - 1], table), chunks[|chunks| - 1], table)
  }

  /** Folding `derivePermissions` over the chunks gives the names some chunk's code
      triggers, each exactly once. */
  lemma {:induction false} DerivePermissionsAllUnion(chunks: seq<Output>, table: seq<Detector>)
    requires forall k :: 0 <= k < |chunks| ==> chunks[k].Chunk?
    ensures NoDups(DerivePermissionsAll(chunks, table))
    ensures forall p :: p in DerivePermissionsAll(chunks, table) <==>
      exists k, d :: 0 <= k < |chunks| && d in table && d.name == p && d.accepts(chunks[k].code)
    decreases |chunks|
  {
    if chunks != [] {
      var init := chunks[..|chunks| - 1];
      DerivePermissionsAllUnion(init, table);
      forall p ensures p in DerivePermissionsAll(chunks, table) <==>
        exists k, d :: 0 <= k < |chunks| && d in table && d.name == p && d.accepts(chunks[k].code)
      {
        UnionStep(chunks, init, table, p);
      }
    }
  }

  /** One more chunk: a name is derived iff the earlier chunks or the last one trigger it. */
  lemma UnionStep(chunks: seq<Output>, init: seq<Output>, table: seq<Detector>, p: string)
    requires chunks != [] && init == chunks[..|chunks| - 1]
    requires forall k :: 0 <= k < |chunks| ==> chunks[k].Chunk?
    requires p in DerivePermissionsAll(init, table) <==>
      exists k, d :: 0 <= k < |init| && d in table && d.name == p && d.accepts(init[k].code)
    ensures p in DerivePermissionsAll(chunks, table) <==>
      exists k, d :: 0 <= k < |chunks| && d in table && d.name == p && d.accepts(chunks[k].code)
  {
    forall k, d | 0 <= k < |chunks| && d in table && d.name == p && d.accepts(chunks[k].code)
      ensures p in DerivePermissionsAll(chunks, table)
    {
      UnionFrom(chunks, init, table, p, k, d);
    }
    if p in DerivePermissionsAll(chunks, table) {
      UnionTo(chunks, init, table, p);
    }
  }

  /** A name some chunk triggers is derived. */
  lemma UnionFrom(chunks: seq<Output>, init: seq<Output>, table: seq<Detector>, p: string, k: int, d: Detector)
    requires chunks != [] && init == chunks[..|chunks| - 1]
    requires forall k :: 0 <= k < |chunks| ==> chunks[k].Chunk?
    requires (exists k, d :: 0 <= k < |init| && d in table && d.name == p && d.accepts(init[k].code)) ==>
      p in DerivePermissionsAll(init, table)
    requires 0 <= k < |chunks| && d in table && d.name == p && d.accepts(chunks[k].code)
    ensures p in DerivePermissionsAll(chunks, table)
  {
    var before := DerivePermissionsAll(init, table);
    if k < |chunks| - 1 {
      assert init[k] == chunks[k];
      assert p in before;
    }
  }

  /** A derived name is triggered by some chunk. */
  lemma UnionTo(chunks: seq<Output>, init: seq<Output>, table: seq<Detector>, p: string)
    requires chunks != [] && init == chunks[..|chunks| - 1]
    requires forall k :: 0 <= k < |chunks| ==> chunks[k].Chunk?
    requires p in DerivePermissionsAll(init, table) ==>
      exists k, d :: 0 <= k < |init| && d in table && d.name == p && d.accepts(init[k].code)
    requires p in DerivePermissionsAll(chunks, table)
    ensures exists k, d :: 0 <= k < |chunks| && d in table && d.name == p && d.accepts(chunks[k].code)
  {
    var n := |chunks|;
    if p in DerivePermissionsAll(init, table) {
      var k, d :| 0 <= k < n - 1 && d in table && d.name == p && d.accepts(init[k].code);
      assert chunks[k] == init[k];
    } else {
      var d :| d in table && d.name == p && d.accepts(chunks[n - 1].code);
      assert 0 <= n - 1 < n;
    }
  }


  /* --------------------------------- files --------------------------------- */

  /** The collaborators `deriveFiles` calls: glob's `hasMagic` and `sync`, and path `join`. */
  datatype FileEnv = FileEnv(
    hasMagic: string -> bool,
    globSync: (string, string) -> seq<string>,
    join: (string, string) -> string)

  /** The five buckets `deriveFiles` returns. */
  datatype Files = Files(css: seq<string>, js: seq<string>, html: seq<string>, img: seq<string>, others: seq<string>)

  /** One `web_accessible_resources` entry after glob expansion: a glob is replaced by
      its matches with the first occurrence of `srcDir` removed, anything else is kept. */
  function ExpandOne(x: string, srcDir: string, env: FileEnv): (r: seq<string>)
    ensures !env.hasMagic(x) ==> r == [x]
    ensures env.hasMagic(x) ==> (|r| == |env.globSync(x, srcDir)| &&
      forall i :: 0 <= i < |r| ==> r[i] == ReplaceFirst(env.globSync(x, srcDir)[i], srcDir, ""))
  {
    if env.hasMagic(x) then
      var fs := env.globSync(x, srcDir);
      seq(|fs|, i requires 0 <= i < |fs| => ReplaceFirst(fs[i], srcDir, ""))
    else [x]
  }

  /** The `reduce` over `web_accessible_resources` that expands globs, in order. */
  function ExpandWar(xs: seq<string>, srcDir: string, env: FileEnv): (r: seq<string>)
    decreases |xs|
  {
    if xs == [] then [] else ExpandWar(xs[..|xs| - 1], srcDir, env) + ExpandOne(xs[|xs| - 1], srcDir, env)
  }

  /** Without glob magic the list is kept verbatim. */
  lemma {:induction false} ExpandWarVerbatim(xs: seq<string>, srcDir: string, env: FileEnv)
    requires forall x :: x in xs ==> !env.hasMagic(x)
    ensures ExpandWar(xs, srcDir, env) == xs
    decreases |xs|
  {
    if xs != [] {
      ExpandWarVerbatim(xs[..|xs| - 1], srcDir, env);
      assert xs == xs[..|xs| - 1] + [xs[|xs| - 1]];
    }
  }

  /** Every expanded file comes from an entry: itself when it has no magic, a glob match otherwise. */
  lemma {:induction false} ExpandWarSources(xs: seq<string>, srcDir: string, env: FileEnv, f: string)
    requires f in ExpandWar(xs, srcDir, env)
    ensures (f in xs && !env.hasMagic(f)) ||
      exists x, g :: x in xs && env.hasMagic(x) && g in env.globSync(x, srcDir) && f == ReplaceFirst(g, srcDir, "")
    decreases |xs|
  {
    var n := |xs|;
    var last := xs[n - 1];
    if f in ExpandWar(xs[..n - 1], srcDir, env) {
      ExpandWarSources(xs[..n - 1], srcDir, env, f);
    } else {
      var r := ExpandOne(last, srcDir, env);
      assert f in r;
      if env.hasMagic(last) {
        var i :| 0 <= i < |r| && r[i] == f;
        assert env.globSync(last, srcDir)[i] in env.globSync(last, srcDir);
      }
    }
  }

  /** `/\.[jt]sx?$/` */
  predicate IsScriptFile(f: string) {
    EndsWith(f, ".js") || EndsWith(f, ".ts") || EndsWith(f, ".jsx") || EndsWith(f, ".tsx")
  }

  /** `/\.html?$/` */
  predicate IsHtmlFile(f: string) {
    EndsWith(f, ".htm") || EndsWith(f, ".html")
  }

  /** `f.endsWith('.css')` */
  predicate IsCssFile(f: string) {
    EndsWith(f, ".css")
  }

  const ImageExtensions: seq<string> :=
    [".jpg", ".jpeg", ".png", ".svg", ".tif", ".tiff", ".gif", ".webp", ".bmp", ".ico"]

  /** `/\.(jpe?g|png|svg|tiff?|gif|webp|bmp|ico)$/i` */
  predicate IsImageFile(f: string) {
    exists e :: e in ImageExtensions && EndsWith(Lower(f), e)
  }

  function Present(xs: seq<Option<string>>): (r: seq<string>)
    ensures forall x :: x in r <==> Some(x) in xs
    ensures |r| <= |xs|
    decreases |xs|
  {
    if xs == [] then []
    else
      var last := xs[|xs| - 1];
      assert xs == xs[..|xs| - 1] + [last];
      Present(xs[..|xs| - 1]) + (if last.Some? then [last.value] else [])
  }

  function Somes(xs: seq<string>): (r: seq<Option<string>>)
    ensures |r| == |xs| && forall i :: 0 <= i < |xs| ==> r[i] == Some(xs[i])
    ensures forall x :: Some(x) in r <==> x in xs
  {
    var r := seq(|xs|, i requires 0 <= i < |xs| => Some(xs[i]));
    assert forall x :: Some(x) in r ==> x in xs by {
      forall x | Some(x) in r ensures x in xs {
        var i :| 0 <= i < |r| && r[i] == Some(x);
        assert xs[i] == x;
      }
    }
    r
  }

  function JoinAll(srcDir: string, xs: seq<string>, join: (string, string) -> string): (r: seq<string>)
    ensures |r| == |xs| && forall i :: 0 <= i < |xs| ==> r[i] == join(srcDir, xs[i])
  {
    seq(|xs|, i requires 0 <= i < |xs| => join(srcDir, xs[i]))
  }

  /** `join` does not identify two different names under one directory. */
  ghost predicate JoinInjective(join: (string, string) -> string, srcDir: string) {
    forall a, b :: join(srcDir, a) == join(srcDir, b) ==> a == b
  }

  /** The local `validate`: drop what is not a string, dedupe, prefix with `srcDir`. */
  function Validate(ary: seq<Option<string>>, srcDir: string, join: (string, string) -> string): (r: seq<string>)
  {
    JoinAll(srcDir, Dedupe(Present(ary)), join)
  }

  /** A bucket holds `join(srcDir, x)` for each present `x`, in first-occurrence order;
      it is duplicate-free whenever `join` keeps names apart. */
  lemma ValidateSpec(ary: seq<Option<string>>, srcDir: string, join: (string, string) -> string)
    ensures forall y :: y in Validate(ary, srcDir, join) <==> exists x :: Some(x) in ary && y == join(srcDir, x)
    ensures |Validate(ary, srcDir, join)| <= |ary|
    ensures JoinInjective(join, srcDir) ==> NoDups(Validate(ary, srcDir, join))
    ensures forall i, j :: 0 <= i < j < |Validate(ary, srcDir, join)| ==>
      Validate(ary, srcDir, join)[i] == join(srcDir, Dedupe(Present(ary))[i]) &&
      IndexOf(Present(ary), Dedupe(Present(ary))[i]) < IndexOf(Present(ary), Dedupe(Present(ary))[j])
  {
    var d := Dedupe(Present(ary));
    var r := Validate(ary, srcDir, join);
    DedupeElements(Present(ary));
    forall y ensures y in r <==> exists x :: Some(x) in ary && y == join(srcDir, x) {
      if exists x :: Some(x) in ary && y == join(srcDir, x) {
        var x :| Some(x) in ary && y == join(srcDir, x);
        var i :| 0 <= i < |d| && d[i] == x;
        assert r[i] == y;
      }
    }
    forall i, j | 0 <= i < j < |r|
      ensures r[i] == join(srcDir, d[i]) && IndexOf(Present(ary), d[i]) < IndexOf(Present(ary), d[j])
    {
      DedupeFirstOccurrenceOrder(Present(ary), i, j);
    }
  }

  /** The `web_accessible_resources` files: in MV3 the `resources` of every entry. */
  function WarFilesMV3(m: Manifest, srcDir: string, env: FileEnv): seq<string>
    requires m.web_accessible_resources.Some? ==> AllEntries(m.web_accessible_resources.value)
  {
    var war := m.web_accessible_resources.GetOr([]);
    ExpandWar(Flatten(seq(|war|, i requires 0 <= i < |war| => war[i].resources)), srcDir, env)
  }

  /** In MV2 the list itself. */
  function WarFilesMV2(m: Manifest, srcDir: string, env: FileEnv): seq<string>
    requires m.web_accessible_resources.Some? ==> AllPaths(m.web_accessible_resources.value)
  {
    var war := m.web_accessible_resources.GetOr([]);
    ExpandWar(seq(|war|, i requires 0 <= i < |war| => war[i].path), srcDir, env)
  }

  function ServiceWorker(m: Manifest): Option<string> {
    if m.background.Some? then m.background.value.service_worker else None
  }

  function BackgroundScripts(m: Manifest): seq<string> {
    if m.background.Some? then m.background.value.scripts.GetOr([]) else []
  }

  function BackgroundPage(m: Manifest): Option<string> {
    if m.background.Some? then m.background.value.page else None
  }

  function Popup(a: Option<Action>): Option<string> {
    if a.Some? then a.value.default_popup else None
  }

  /** The `js` bucket before `validate`: war scripts, the background script(s), content-script js. */
  function JsSources(m: Manifest, files: seq<string>, mv3: bool): seq<Option<string>>
  {
    Somes(Filter(files, IsScriptFile))
      + (if mv3 then [ServiceWorker(m)] else Somes(BackgroundScripts(m)))
      + Somes(ScriptJs(Scripts(m)))
  }

  lemma JsSourcesSpec(m: Manifest, files: seq<string>, mv3: bool)
    ensures forall x :: Some(x) in JsSources(m, files, mv3) <==>
      (x in files && IsScriptFile(x)) ||
      (mv3 && ServiceWorker(m) == Some(x)) ||
      (!mv3 && x in BackgroundScripts(m)) ||
      x in ScriptJs(Scripts(m))
  {
  }

  /** The `html` bucket before `validate`. */
  function HtmlSources(m: Manifest, files: seq<string>, mv3: bool): seq<Option<string>>
  {
    var pages :=
      if mv3 then [m.options_page, m.options_ui_page, m.devtools_page, Popup(m.action)]
      else [BackgroundPage(m), m.options_page, m.options_ui_page, m.devtools_page,
            Popup(m.browser_action), Popup(m.page_action)];
    Somes(Filter(files, IsHtmlFile)) + pages + Somes(Values(m.chrome_url_overrides.GetOr([])))
  }

  lemma HtmlSourcesSpec(m: Manifest, files: seq<string>, mv3: bool)
    ensures forall x :: Some(x) in HtmlSources(m, files, mv3) <==>
      (x in files && IsHtmlFile(x)) ||
      (!mv3 && BackgroundPage(m) == Some(x)) ||
      m.options_page == Some(x) || m.options_ui_page == Some(x) || m.devtools_page == Some(x) ||
      (mv3 && Popup(m.action) == Some(x)) ||
      (!mv3 && (Popup(m.browser_action) == Some(x) || Popup(m.page_action) == Some(x))) ||
      x in Values(m.chrome_url_overrides.GetOr([]))
  {
  }

  /** The `css` bucket before `validate`. */
  function CssSources(m: Manifest, files: seq<string>): seq<Option<string>>
  {
    Somes(Filter(files, IsCssFile)) + Somes(ScriptCss(Scripts(m)))
  }

  lemma CssSourcesSpec(m: Manifest, files: seq<string>)
    ensures forall x :: Some(x) in CssSources(m, files) <==> (x in files && IsCssFile(x)) || x in ScriptCss(Scripts(m))
  {
  }

  /** The paths an MV2 action icon contributes: a string itself, a record all its values. */
  function IconValues(icon: Option<Icon>): (r: seq<string>)
    ensures icon.Some? && icon.value.IconPath? ==> r == [icon.value.path]
    ensures icon.Some? && icon.value.IconSet? ==> r == Values(icon.value.sizes)
    ensures icon.None? ==> r == []
  {
    match icon
    case None => []
    case Some(IconPath(p)) => [p]
    case Some(IconSet(d)) => Values(d)
  }

  function ActionIcon(a: Option<Action>): Option<Icon> {
    if a.Some? then a.value.default_icon else None
  }

  /** MV2 `actionIconSet`: the browser- and page-action icons, in a `Set`. */
  function ActionIconSetMV2(m: Manifest): (r: seq<string>)
    ensures NoDups(r)
    ensures forall x :: x in r <==> x in IconValues(ActionIcon(m.browser_action)) || x in IconValues(ActionIcon(m.page_action))
  {
    AddAll(AddAll([], IconValues(ActionIcon(m.browser_action))), IconValues(ActionIcon(m.page_action)))
  }

  /** What `Object.values(action.default_icon ?? {})` gives in the MV3 path AS WRITTEN:
      on a string, `Object.values` yields its characters, one string each. */
  function IconValuesAsWritten(icon: Option<Icon>): (r: seq<string>)
    ensures icon.Some? && icon.value.IconPath? ==>
      |r| == |icon.value.path| && forall i :: 0 <= i < |r| ==> r[i] == [icon.value.path[i]]
  {
    match icon
    case None => []
    case Some(IconPath(p)) => seq(|p|, i requires 0 <= i < |p| => [p[i]])
    case Some(IconSet(d)) => Values(d)
  }

  /** A string `action.default_icon` of two or more characters is lost AS WRITTEN:
      only one-character names reach the `img` bucket. */
  lemma StringIconLostAsWritten(p: string)
    requires |p| >= 2
    ensures p !in IconValuesAsWritten(Some(IconPath(p)))
    ensures p in IconValues(Some(IconPath(p)))
  {
    var r := IconValuesAsWritten(Some(IconPath(p)));
    forall i | 0 <= i < |r| ensures r[i] != p {
      assert |r[i]| == 1;
    }
  }

  /** The `img` bucket before `validate`. In MV3 the action icon goes through the
      corrected `IconValues` (see `StringIconLostAsWritten`). */
  function ImgSources(m: Manifest, files: seq<string>, mv3: bool): seq<Option<string>>
  {
    if mv3 then
      Somes(Filter(files, IsImageFile)) + Somes(Values(m.icons.GetOr([]))) + Somes(IconValues(ActionIcon(m.action)))
    else
      Somes(ActionIconSetMV2(m)) + Somes(Filter(files, IsImageFile)) + Somes(Values(m.icons.GetOr([])))
  }

  lemma ImgSourcesSpec(m: Manifest, files: seq<string>, mv3: bool)
    ensures forall x :: Some(x) in ImgSources(m, files, mv3) <==>
      (x in files && IsImageFile(x)) ||
      x in Values(m.icons.GetOr([])) ||
      (mv3 && x in IconValues(ActionIcon(m.action))) ||
      (!mv3 && (x in IconValues(ActionIcon(m.browser_action)) || x in IconValues(ActionIcon(m.page_action))))
  {
  }

  /** The MV3 `img` bucket AS WRITTEN, with `Object.values` of the action icon. */
  function ImgSourcesAsWritten(m: Manifest, files: seq<string>): seq<Option<string>>
  {
    Somes(Filter(files, IsImageFile)) + Somes(Values(m.icons.GetOr([]))) + Somes(IconValuesAsWritten(ActionIcon(m.action)))
  }

  /** As written, a string action icon puts each of its characters in the bucket;
      with an icon set or none the bucket is the corrected one. */
  lemma ImgSourcesAsWrittenSpec(m: Manifest, files: seq<string>)
    ensures forall x :: Some(x) in ImgSourcesAsWritten(m, files) <==>
      (x in files && IsImageFile(x)) || x in Values(m.icons.GetOr([])) || x in IconValuesAsWritten(ActionIcon(m.action))
    ensures ActionIcon(m.action).Some? && ActionIcon(m.action).value.IconPath? ==>
      var p := ActionIcon(m.action).value.path;
      forall i :: 0 <= i < |p| ==> Some([p[i]]) in ImgSourcesAsWritten(m, files)
    ensures ActionIcon(m.action).None? || ActionIcon(m.action).value.IconSet? ==>
      ImgSourcesAsWritten(m, files) == ImgSources(m, files, true)
  {
    var icon := ActionIcon(m.action);
    if icon.Some? && icon.value.IconPath? {
      var p := icon.value.path;
      var vs := IconValuesAsWritten(icon);
      forall i | 0 <= i < |p| ensures Some([p[i]]) in ImgSourcesAsWritten(m, files) {
        assert vs[i] == [p[i]];
        assert Some([p[i]]) in Somes(vs);
      }
    }
  }

  /** `diff(files, css, js, html, img)`: the war files no other bucket mentions. */
  function OthersSources(files: seq<string>, css: seq<Option<string>>, js: seq<Option<string>>,
                         html: seq<Option<string>>, img: seq<Option<string>>): seq<string>
  {
    Filter(files, x => Some(x) !in css && Some(x) !in js && Some(x) !in html && Some(x) !in img)
  }

  lemma OthersSourcesSpec(files: seq<string>, css: seq<Option<string>>, js: seq<Option<string>>,
                         html: seq<Option<string>>, img: seq<Option<string>>)
    ensures forall x :: x in OthersSources(files, css, js, html, img) <==>
      x in files && Some(x) !in css && Some(x) !in js && Some(x) !in html && Some(x) !in img
  {
  }

  function DeriveFor(m: Manifest, srcDir: string, env: FileEnv, files: seq<string>, mv3: bool): Files {
    var css := CssSources(m, files);
    var js := JsSources(m, files, mv3);
    var html := HtmlSources(m, files, mv3);
    var img := ImgSources(m, files, mv3);
    var others := OthersSources(files, css, js, html, img);
    Files(
      Validate(css, srcDir, env.join),
      Validate(js, srcDir, env.join),
      Validate(html, srcDir, env.join),
      Validate(img, srcDir, env.join),
      Validate(Somes(others), srcDir, env.join))
  }

  /** `deriveFilesMV3`. */
  function DeriveFilesMV3(m: Manifest, srcDir: string, env: FileEnv): Files
    requires m.web_accessible_resources.Some? ==> AllEntries(m.web_accessible_resources.value)
  {
    DeriveFor(m, srcDir, env, WarFilesMV3(m, srcDir, env), true)
  }

  /** `deriveFilesMV2`. */
  function DeriveFilesMV2(m: Manifest, srcDir: string, env: FileEnv): Files
    requires m.web_accessible_resources.Some? ==> AllPaths(m.web_accessible_resources.value)
  {
    DeriveFor(m, srcDir, env, WarFilesMV2(m, srcDir, env), false)
  }

  /** The shape of `web_accessible_resources` that the schema version demands. */
  predicate WarShapeFits(m: Manifest) {
    m.web_accessible_resources.Some? ==>
      if m.manifest_version == Some(3) then AllEntries(m.web_accessible_resources.value)
      else AllPaths(m.web_accessible_resources.value)
  }

  /** `deriveFiles`: the MV3 path exactly when `manifest_version === 3`, MV2 for any other value. */
  function DeriveFiles(m: Manifest, srcDir: string, env: FileEnv): (r: Files)
    requires WarShapeFits(m)
    ensures m.manifest_version == Some(3) ==> r == DeriveFor(m, srcDir, env, WarFilesMV3(m, srcDir, env), true)
    ensures m.manifest_version != Some(3) ==> r == DeriveFor(m, srcDir, env, WarFilesMV2(m, srcDir, env), false)
  {
    if m.manifest_version == Some(3) then DeriveFilesMV3(m, srcDir, env) else DeriveFilesMV2(m, srcDir, env)
  }

  /** Each bucket is duplicate-free (given an injective `join`), and `others` shares no
      file with the other four buckets. */
  lemma {:induction false} DeriveFilesBuckets(m: Manifest, srcDir: string, env: FileEnv, files: seq<string>, mv3: bool)
    requires JoinInjective(env.join, srcDir)
    ensures var r := DeriveFor(m, srcDir, env, files, mv3);
      NoDups(r.css) && NoDups(r.js) && NoDups(r.html) && NoDups(r.img) && NoDups(r.others) &&
      forall y :: y in r.others ==> y !in r.css && y !in r.js && y !in r.html && y !in r.img
  {
    var css := CssSources(m, files);
    var js := JsSources(m, files, mv3);
    var html := HtmlSources(m, files, mv3);
    var img := ImgSources(m, files, mv3);
    var others := Somes(OthersSources(files, css, js, html, img));
    OthersSourcesSpec(files, css, js, html, img);
    ValidateDistinct(css, srcDir, env.join);
    ValidateDistinct(js, srcDir, env.join);
    ValidateDistinct(html, srcDir, env.join);
    ValidateDistinct(img, srcDir, env.join);
    ValidateDistinct(others, srcDir, env.join);
    ValidateDisjoint(others, css, srcDir, env.join);
    ValidateDisjoint(others, js, srcDir, env.join);
    ValidateDisjoint(others, html, srcDir, env.join);
    ValidateDisjoint(others, img, srcDir, env.join);
  }

  lemma ValidateDistinct(ary: seq<Option<string>>, srcDir: string, join: (string, string) -> string)
    requires JoinInjective(join, srcDir)
    ensures NoDups(Validate(ary, srcDir, join))
  {
    ValidateSpec(ary, srcDir, join);
  }

  /** Buckets built from disjoint source lists stay disjoint once joined to `srcDir`. */
  lemma ValidateDisjoint(a: seq<Option<string>>, b: seq<Option<string>>, srcDir: string, join: (string, string) -> string)
    requires JoinInjective(join, srcDir)
    requires forall x :: Some(x) in a ==> Some(x) !in b
    ensures forall y :: y in Validate(a, srcDir, join) ==> y !in Validate(b, srcDir, join)
  {
    ValidateSpec(a, srcDir, join);
    ValidateSpec(b, srcDir, join);
    forall y | y in Validate(a, srcDir, join) ensures y !in Validate(b, srcDir, join) {
      var x :| Some(x) in a && y == join(srcDir, x);
      forall x' | Some(x') in b ensures y != join(srcDir, x') {
        assert x' != x;
      }
    }
  }

}
