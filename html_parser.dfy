/** The HTML reference selection of src/files_htmlParser.ts over an abstract element
    list: which `<script>`, `<link>` and `<img>` references count as local files, and
    how `htmlParser` resolves them into the files of a `PARSE_RESULT` event. */
module HtmlParser {
  import opened Wrappers
  import opened SeqSet
  import opened Strings
  import opened FileEvents

  /** One element of the parsed document, in document order: its tag and attributes. */
  datatype Element = Element(tag: string, attrs: seq<(string, string)>)

  type Document = seq<Element>

  /** `$(elem).attr(name)`: the value of the first attribute of that name, if any. */
  function Attr(e: Element, name: string): (r: Option<string>)
    ensures r.Some? <==> exists k :: 0 <= k < |e.attrs| && e.attrs[k].0 == name
    ensures r.Some? ==> (name, r.value) in e.attrs
    decreases |e.attrs|
  {
    if e.attrs == [] then None
    else if e.attrs[0].0 == name then Some(e.attrs[0].1)
    else
      var r := Attr(Element(e.tag, e.attrs[1..]), name);
      assert forall k :: 1 <= k < |e.attrs| ==> e.attrs[k] == e.attrs[1..][k - 1];
      r
  }

  /** The attribute selector `[name^="prefix"]`. */
  predicate AttrStartsWith(e: Element, name: string, prefix: string) {
    Attr(e, name).Some? && StartsWith(Attr(e, name).value, prefix)
  }

  /** The four `.not('[attr^=...]')` exclusions shared by scripts and stylesheets. */
  predicate LocalRef(e: Element, name: string) {
    !AttrStartsWith(e, name, "http:") && !AttrStartsWith(e, name, "https:") &&
    !AttrStartsWith(e, name, "data:") && !AttrStartsWith(e, name, "/")
  }

  /** The element filter of `getScripts`. */
  predicate IsPageScript(e: Element) {
    e.tag == "script" && Attr(e, "data-rollup-asset").None? && LocalRef(e, "src")
  }

  /** The element filter of `getAssets`. */
  predicate IsAssetScript(e: Element) {
    e.tag == "script" && Attr(e, "data-rollup-asset") == Some("true") && LocalRef(e, "src")
  }

  /** The element filter of `getCss`. */
  predicate IsStylesheet(e: Element) {
    e.tag == "link" && Attr(e, "rel") == Some("stylesheet") && LocalRef(e, "href")
  }

  /** The element filter of `getImgs`: a root-relative `/` source is kept. */
  predicate IsLocalImg(e: Element) {
    e.tag == "img" && !AttrStartsWith(e, "src", "http://") &&
    !AttrStartsWith(e, "src", "https://") && !AttrStartsWith(e, "src", "data:")
  }

  /** The element filter of `getFavicons`. */
  predicate IsLocalFavicon(e: Element) {
    e.tag == "link" && Attr(e, "rel") == Some("icon") && !AttrStartsWith(e, "href", "http:") &&
    !AttrStartsWith(e, "href", "https:") && !AttrStartsWith(e, "href", "data:")
  }

  /** `elems.map((elem) => $(elem).attr(name)).filter(isString)`. */
  function Values(elems: seq<Element>, name: string): (r: seq<string>)
    ensures |r| <= |elems|
    ensures forall x :: x in r <==> exists i :: 0 <= i < |elems| && Attr(elems[i], name) == Some(x)
    decreases |elems|
  {
    if elems == [] then []
    else
      var n := |elems| - 1;
      var init := Values(elems[..n], name);
      assert forall i :: 0 <= i < n ==> elems[..n][i] == elems[i];
      init + (if Attr(elems[n], name).Some? then [Attr(elems[n], name).value] else [])
  }

  /** The `name` values of the elements a filter keeps are those of the document's
      elements that pass it. */
  lemma FilteredValues(doc: Document, p: Element -> bool, name: string)
    ensures forall x :: x in Values(Filter(doc, p), name) <==>
      exists i :: 0 <= i < |doc| && p(doc[i]) && Attr(doc[i], name) == Some(x)
  {
    forall x ensures x in Values(Filter(doc, p), name) <==> exists i :: 0 <= i < |doc| && p(doc[i]) && Attr(doc[i], name) == Some(x) {
      if x in Values(Filter(doc, p), name) {
        var i := FilteredValueFrom(doc, p, name, x);
      }
      if exists i :: 0 <= i < |doc| && p(doc[i]) && Attr(doc[i], name) == Some(x) {
        var i :| 0 <= i < |doc| && p(doc[i]) && Attr(doc[i], name) == Some(x);
        FilteredValueOf(doc, p, name, i);
      }
    }
  }

  lemma FilteredValueFrom(doc: Document, p: Element -> bool, name: string, x: string) returns (i: nat)
    requires x in Values(Filter(doc, p), name)
    ensures i < |doc| && p(doc[i]) && Attr(doc[i], name) == Some(x)
  {
    var kept := Filter(doc, p);
    var k :| 0 <= k < |kept| && Attr(kept[k], name) == Some(x);
    assert kept[k] in kept;
    i :| 0 <= i < |doc| && doc[i] == kept[k];
  }

  lemma FilteredValueOf(doc: Document, p: Element -> bool, name: string, i: nat)
    requires i < |doc| && p(doc[i]) && Attr(doc[i], name).Some?
    ensures Attr(doc[i], name).value in Values(Filter(doc, p), name)
  {
    var kept := Filter(doc, p);
    assert doc[i] in kept;
    var k :| 0 <= k < |kept| && kept[k] == doc[i];
  }

  /** `getScripts($)`. */
  function GetScripts(doc: Document): (r: seq<Element>)
    ensures forall e :: e in r <==> e in doc && IsPageScript(e)
  {
    Filter(doc, IsPageScript)
  }

  /** `getAssets($)`. */
  function GetAssets(doc: Document): (r: seq<Element>)
    ensures forall e :: e in r <==> e in doc && IsAssetScript(e)
  {
    Filter(doc, IsAssetScript)
  }

  /** `getScriptSrc($)`: the `src` of every page script; a script without one adds nothing. */
  function GetScriptSrc(doc: Document): (r: seq<string>)
    ensures forall x :: x in r <==>
      exists i :: 0 <= i < |doc| && IsPageScript(doc[i]) && Attr(doc[i], "src") == Some(x)
  {
    FilteredValues(doc, IsPageScript, "src");
    Values(GetScripts(doc), "src")
  }

  /** `getJsAssets($)`: the `src` of every `data-rollup-asset="true"` script. */
  function GetJsAssets(doc: Document): (r: seq<string>)
    ensures forall x :: x in r <==>
      exists i :: 0 <= i < |doc| && IsAssetScript(doc[i]) && Attr(doc[i], "src") == Some(x)
  {
    FilteredValues(doc, IsAssetScript, "src");
    Values(GetAssets(doc), "src")
  }

  /** No script element is both a page script and an asset script, and both lists
      exclude the remote, inline and root-relative sources. */
  lemma ScriptsDisjoint(doc: Document)
    ensures forall e :: !(e in GetScripts(doc) && e in GetAssets(doc))
    ensures forall e :: e in GetScripts(doc) + GetAssets(doc) ==>
      e.tag == "script" && Attr(e, "src").Some? ==>
        !StartsWith(Attr(e, "src").value, "http:") && !StartsWith(Attr(e, "src").value, "https:") &&
        !StartsWith(Attr(e, "src").value, "data:") && !StartsWith(Attr(e, "src").value, "/")
  {
  }

  /** `getCssHrefs($)`: the `href` of every local `<link rel="stylesheet">`. */
  function GetCssHrefs(doc: Document): (r: seq<string>)
    ensures forall x :: x in r <==>
      exists i :: 0 <= i < |doc| && IsStylesheet(doc[i]) && Attr(doc[i], "href") == Some(x)
  {
    FilteredValues(doc, IsStylesheet, "href");
    Values(Filter(doc, IsStylesheet), "href")
  }

  function ImgPart(doc: Document): seq<string> {
    Values(Filter(doc, IsLocalImg), "src")
  }

  function FaviconPart(doc: Document): seq<string> {
    Values(Filter(doc, IsLocalFavicon), "href")
  }

  /** `getImgSrcs($)`: image sources, then favicon hrefs. */
  function GetImgSrcs(doc: Document): (r: seq<string>)
    ensures |r| == |ImgPart(doc)| + |FaviconPart(doc)|
  {
    Values(Filter(doc, IsLocalImg), "src") + Values(Filter(doc, IsLocalFavicon), "href")
  }

  /** `x` is the `src` of a local `<img>`. */
  ghost predicate ImgRef(doc: Document, x: string) {
    exists j :: 0 <= j < |doc| && IsLocalImg(doc[j]) && Attr(doc[j], "src") == Some(x)
  }

  /** `x` is the `href` of a local `<link rel="icon">`. */
  ghost predicate FaviconRef(doc: Document, x: string) {
    exists j :: 0 <= j < |doc| && IsLocalFavicon(doc[j]) && Attr(doc[j], "href") == Some(x)
  }

  lemma ImgPartSpec(doc: Document)
    ensures forall x :: x in ImgPart(doc) <==> ImgRef(doc, x)
  {
    FilteredValues(doc, IsLocalImg, "src");
  }

  lemma FaviconPartSpec(doc: Document)
    ensures forall x :: x in FaviconPart(doc) <==> FaviconRef(doc, x)
  {
    FilteredValues(doc, IsLocalFavicon, "href");
  }

  /** Every image source comes before every favicon href, and together they are exactly
      the references of local images and favicons. */
  lemma ImgSrcsSpec(doc: Document)
    ensures forall i :: 0 <= i < |ImgPart(doc)| ==> ImgRef(doc, GetImgSrcs(doc)[i])
    ensures forall i :: |ImgPart(doc)| <= i < |GetImgSrcs(doc)| ==> FaviconRef(doc, GetImgSrcs(doc)[i])
    ensures forall x :: x in GetImgSrcs(doc) <==> ImgRef(doc, x) || FaviconRef(doc, x)
  {
    var r := GetImgSrcs(doc);
    assert r == ImgPart(doc) + FaviconPart(doc);
    ImgPartSpec(doc);
    FaviconPartSpec(doc);
    ConcatParts(ImgPart(doc), FaviconPart(doc), x => ImgRef(doc, x), x => FaviconRef(doc, x));
  }

  /** A concatenation of two lists whose members satisfy `p` and `q` respectively. */
  lemma ConcatParts(a: seq<string>, b: seq<string>, p: string -> bool, q: string -> bool)
    requires forall x :: x in a <==> p(x)
    requires forall x :: x in b <==> q(x)
    ensures forall i :: 0 <= i < |a| ==> p((a + b)[i])
    ensures forall i :: |a| <= i < |a + b| ==> q((a + b)[i])
    ensures forall x :: x in a + b <==> p(x) || q(x)
  {
    forall i | 0 <= i < |a| ensures p((a + b)[i]) {
      assert (a + b)[i] == a[i];
    }
    forall i | |a| <= i < |a + b| ensures q((a + b)[i]) {
      assert (a + b)[i] == b[i - |a|];
    }
  }

  /** `parseHtml(source)`: the references of each kind, in `Object.entries` order. */
  function ParseHtml(doc: Document): (r: seq<(string, seq<string>)>)
    ensures |r| == 4
    ensures r[0] == ("SCRIPT_HTML", GetScriptSrc(doc)) && r[1] == ("CSS", GetCssHrefs(doc))
    ensures r[2] == ("IMAGE", GetImgSrcs(doc)) && r[3] == ("RAW", GetJsAssets(doc))
  {
    [("SCRIPT_HTML", GetScriptSrc(doc)), ("CSS", GetCssHrefs(doc)),
     ("IMAGE", GetImgSrcs(doc)), ("RAW", GetJsAssets(doc))]
  }

  /** The path helpers of src/path, which the model does not interpret. */
  datatype PathOps = PathOps(
    dirname: string -> string,
    isAbsolute: string -> bool,
    join: (string, string) -> string,
    relative: (string, string) -> string,
    resolve: (string, string) -> string)

  /** The HTML asset handed to the parser. */
  datatype HtmlAsset = HtmlAsset(id: string, source: Option<string>, fileName: string)

  /** The id of one reference: absolute names hang off `root`, others off the HTML file's folder. */
  function ResolveId(ops: PathOps, root: string, htmlDir: string, name: string): (r: string)
    ensures ops.isAbsolute(name) ==> r == ops.join(root, name)
    ensures !ops.isAbsolute(name) ==> r == ops.resolve(htmlDir, name)
  {
    if ops.isAbsolute(name) then ops.join(root, name) else ops.resolve(htmlDir, name)
  }

  /** The file record of one reference of one kind. */
  function RefFile(ops: PathOps, root: string, htmlDir: string, fileType: string, name: string): (r: FileRecord)
    ensures r.fileType == fileType && r.id == ResolveId(ops, root, htmlDir, name)
    ensures r.fileName == ops.relative(root, r.id) && r.rest == []
  {
    var id := ResolveId(ops, root, htmlDir, name);
    FileRecord(fileType, ops.relative(root, id), id, [])
  }

  function KindFiles(ops: PathOps, root: string, htmlDir: string, fileType: string, names: seq<string>): (r: seq<FileRecord>)
    ensures |r| == |names|
    ensures forall k :: 0 <= k < |names| ==> r[k] == RefFile(ops, root, htmlDir, fileType, names[k])
  {
    seq(|names|, k requires 0 <= k < |names| => RefFile(ops, root, htmlDir, fileType, names[k]))
  }

  /** `result.flatMap(...)`: the files of every kind, kind after kind. */
  function AllFiles(ops: PathOps, root: string, htmlDir: string, kinds: seq<(string, seq<string>)>): (r: seq<FileRecord>)
    ensures forall f :: f in r <==>
      exists i, k :: 0 <= i < |kinds| && 0 <= k < |kinds[i].1| &&
        f == RefFile(ops, root, htmlDir, kinds[i].0, kinds[i].1[k])
    decreases |kinds|
  {
    if kinds == [] then []
    else
      var n := |kinds| - 1;
      var init := AllFiles(ops, root, htmlDir, kinds[..n]);
      var last := KindFiles(ops, root, htmlDir, kinds[n].0, kinds[n].1);
      assert forall i :: 0 <= i < n ==> kinds[..n][i] == kinds[i];
      forall f | f in last
        ensures exists i, k :: (0 <= i < |kinds| && 0 <= k < |kinds[i].1| &&
          f == RefFile(ops, root, htmlDir, kinds[i].0, kinds[i].1[k]))
      {
        var k :| 0 <= k < |last| && last[k] == f;
        assert f == RefFile(ops, root, htmlDir, kinds[n].0, kinds[n].1[k]);
      }
      forall f | (exists i, k :: (0 <= i < |kinds| && 0 <= k < |kinds[i].1| &&
          f == RefFile(ops, root, htmlDir, kinds[i].0, kinds[i].1[k])))
        ensures f in init + last
      {
        var i, k :| 0 <= i < |kinds| && 0 <= k < |kinds[i].1| &&
          f == RefFile(ops, root, htmlDir, kinds[i].0, kinds[i].1[k]);
        if i == n {
          assert last[k] == f;
        } else {
          assert kinds[..n][i] == kinds[i];
        }
      }
      init + last
  }

  /** `htmlParser(root)(asset)`: a `PARSE_RESULT` for the asset's references, or an
      `ERROR` when loading the source throws. `load` stands for `cheerio.load`. */
  function ParseAsset(root: string, ops: PathOps, load: Option<string> -> Result<Document>, asset: HtmlAsset): (r: Event)
    ensures load(asset.source).Err? <==> r.ErrorEvent?
    ensures load(asset.source).Err? ==> r == ErrorEvent(load(asset.source).error)
    ensures load(asset.source).Ok? ==> r.ParseResult? && r.fileName == asset.fileName
  {
    match load(asset.source)
    case Err(e) => ErrorEvent(e)
    case Ok(doc) =>
      var htmlDir := ops.dirname(asset.id);
      ParseResultOf(asset.fileName, AllFiles(ops, root, htmlDir, ParseHtml(doc)))
  }

  /** A parsed asset's children have distinct ids; every reference of every kind gives a
      child with its resolved id, and every child is the last record given for its id. */
  lemma ParseAssetChildren(root: string, ops: PathOps, load: Option<string> -> Result<Document>, asset: HtmlAsset)
    requires load(asset.source).Ok?
    ensures NoDups(Ids(ParseAsset(root, ops, load, asset).children))
    ensures forall i, k :: 0 <= i < 4 && 0 <= k < |ParseHtml(load(asset.source).value)[i].1| ==>
      ResolveId(ops, root, ops.dirname(asset.id), ParseHtml(load(asset.source).value)[i].1[k])
        in Ids(ParseAsset(root, ops, load, asset).children)
    ensures forall c :: c in ParseAsset(root, ops, load, asset).children ==>
      exists i, k :: 0 <= i < 4 && 0 <= k < |ParseHtml(load(asset.source).value)[i].1| &&
        c == RefFile(ops, root, ops.dirname(asset.id), ParseHtml(load(asset.source).value)[i].0,
                     ParseHtml(load(asset.source).value)[i].1[k])
  {
    var doc := load(asset.source).value;
    var kinds := ParseHtml(doc);
    assert ParseAsset(root, ops, load, asset).children == ById(AllFiles(ops, root, ops.dirname(asset.id), kinds));
    KindsChildren(ops, root, ops.dirname(asset.id), kinds);
  }

  /** The deduplicated files of any list of kinds: distinct ids, one for every
      reference, and each one the record of some reference. */
  lemma KindsChildren(ops: PathOps, root: string, htmlDir: string, kinds: seq<(string, seq<string>)>)
    ensures NoDups(Ids(ById(AllFiles(ops, root, htmlDir, kinds))))
    ensures forall i, k :: 0 <= i < |kinds| && 0 <= k < |kinds[i].1| ==>
      ResolveId(ops, root, htmlDir, kinds[i].1[k]) in Ids(ById(AllFiles(ops, root, htmlDir, kinds)))
    ensures forall c :: c in ById(AllFiles(ops, root, htmlDir, kinds)) ==>
      exists i, k :: 0 <= i < |kinds| && 0 <= k < |kinds[i].1| &&
        c == RefFile(ops, root, htmlDir, kinds[i].0, kinds[i].1[k])
  {
    var files := AllFiles(ops, root, htmlDir, kinds);
    ByIdSpec(files);
    forall i, k | 0 <= i < |kinds| && 0 <= k < |kinds[i].1|
      ensures ResolveId(ops, root, htmlDir, kinds[i].1[k]) in Ids(ById(files))
    {
      RefIdKept(files, RefFile(ops, root, htmlDir, kinds[i].0, kinds[i].1[k]));
    }
    forall c | c in ById(files)
      ensures exists i, k :: (0 <= i < |kinds| && 0 <= k < |kinds[i].1| &&
        c == RefFile(ops, root, htmlDir, kinds[i].0, kinds[i].1[k]))
    {
      ChildIsFile(files, c);
    }
  }

  /** The id of every file survives the deduplication. */
  lemma RefIdKept(files: seq<FileRecord>, f: FileRecord)
    requires f in files
    ensures f.id in Ids(ById(files))
  {
    ByIdSpec(files);
    var j :| 0 <= j < |files| && files[j] == f;
    assert Ids(files)[j] == f.id;
  }

  /** The deduplication only keeps given records. */
  lemma ChildIsFile(files: seq<FileRecord>, c: FileRecord)
    requires c in ById(files)
    ensures c in files
  {
    ByIdSpec(files);
    var children := ById(files);
    var m :| 0 <= m < |children| && children[m] == c;
    assert LastWithId(files, children[m]);
  }
}
