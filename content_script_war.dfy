/** How src/plugin-contentScriptResources.ts writes collected resources into
    `web_accessible_resources`: the declared content scripts, the dynamic ones,
    the cleanup that dedupes an MV2 list or merges MV3 entries by sorted match
    list, and the rollup and vite `generateBundle` drivers around them. */
module ContentScriptWar {
  import opened Wrappers
  import opened SeqSet
  import opened Strings
  import opened ManifestTypes
  import opened Helpers
  import opened ContentScriptResources
  import opened ContentScriptCleanup

  const DynamicScriptPlaceholder := "<dynamic_scripts>"
  const DefaultDynamicMatches: seq<string> := ["http://*/*", "https://*/*"]
  const DefaultMatchWarning := "Using default match pattern for dynamic script resources"

  /** `contentScriptFormat === 'esm'`, `helperScripts`, and
      `generateFileNames(name).outputFileName`. */
  datatype ScriptEnv = ScriptEnv(isESM: bool, helperScripts: seq<string>, outputFileName: string -> string)

  /** A `getResources` closure, called with fresh sets. */
  type Get = string -> Result<Sets>

  /** A value together with the messages passed to `this.warn` on the way. */
  datatype Warned<T> = Warned(warnings: seq<string>, value: T)

  /** In ESM format a script's own output file joins its imports. */
  function WithOwnFile(env: ScriptEnv, name: string, imports: seq<string>): (r: seq<string>)
    ensures forall x :: x in r <==> x in imports || (env.isESM && x == env.outputFileName(name))
  {
    if env.isESM then Add(imports, env.outputFileName(name)) else imports
  }

  // ---------------------------------------------------------------------------
  // Declared content scripts

  /** The items appended for one script: flat paths in MV2, entries scoped by the
      script's `matches` in MV3. */
  ghost predicate AppendedFor(mv2: bool, script: ContentScript, items: seq<WarItem>) {
    (mv2 ==> AllPaths(items)) &&
    (!mv2 ==> forall k :: 0 <= k < |items| ==> items[k].Entry? && items[k].matches == script.matches.GetOr([]))
  }

  /** `script` differs from `before` at most in a longer `css` list. */
  ghost predicate CssExtended(before: ContentScript, script: ContentScript) {
    script == before.(css := script.css) && before.css.GetOr([]) <= script.css.GetOr([])
  }

  datatype Declared = Declared(script: ContentScript, war: seq<WarItem>)

  /** One iteration of the inner loop of `updateResourcesFromDeclaredScripts`. */
  function DeclaredName(mv2: bool, env: ScriptEnv, get: Get, d: Declared, name: string): (r: Result<Declared>)
    ensures r.Ok? ==> d.war <= r.value.war && CssExtended(d.script, r.value.script)
    ensures r.Ok? ==> AppendedFor(mv2, d.script, r.value.war[|d.war|..])
  {
    if name in env.helperScripts then Ok(d)
    else
      match get(name)
      case Err(e) => Err(e)
      case Ok(s) =>
        var imports := WithOwnFile(env, name, s.imports);
        var script := if |s.css| > 0 then d.script.(css := Some(d.script.css.GetOr([]) + s.css)) else d.script;
        if |s.assets| == 0 && |imports| == 0 then Ok(Declared(script, d.war))
        else if mv2 then Ok(Declared(script, d.war + Paths(s.assets + imports)))
        else Ok(Declared(script, d.war + [Entry(d.script.matches.GetOr([]), s.assets + imports)]))
  }

  /** The inner loop over a script's `js` names. */
  function DeclaredNames(mv2: bool, env: ScriptEnv, get: Get, d: Declared, names: seq<string>): (r: Result<Declared>)
    ensures r.Ok? ==> d.war <= r.value.war && CssExtended(d.script, r.value.script)
    ensures r.Ok? ==> AppendedFor(mv2, d.script, r.value.war[|d.war|..])
    decreases |names|
  {
    if names == [] then Ok(d)
    else
      var n := |names| - 1;
      match DeclaredNames(mv2, env, get, d, names[..n])
      case Err(e) => Err(e)
      case Ok(d1) =>
        var r := DeclaredName(mv2, env, get, d1, names[n]);
        if r.Ok? then
          assert r.value.war[|d.war|..] == d1.war[|d.war|..] + r.value.war[|d1.war|..];
          AppendedConcat(mv2, d.script, d1.script, d1.war[|d.war|..], r.value.war[|d1.war|..]);
          CssExtendedTrans(d.script, d1.script, r.value.script);
          r
        else r
  }

  lemma AppendedConcat(mv2: bool, s0: ContentScript, s1: ContentScript, a: seq<WarItem>, b: seq<WarItem>)
    requires CssExtended(s0, s1) && AppendedFor(mv2, s0, a) && AppendedFor(mv2, s1, b)
    ensures AppendedFor(mv2, s0, a + b)
  {
    assert s1.matches == s0.matches;
  }

  lemma CssExtendedTrans(s0: ContentScript, s1: ContentScript, s2: ContentScript)
    requires CssExtended(s0, s1) && CssExtended(s1, s2)
    ensures CssExtended(s0, s2)
  {
  }

  datatype DeclaredAll = DeclaredAll(scripts: seq<ContentScript>, war: seq<WarItem>)

  /** The outer loop over the content scripts. */
  function DeclaredScripts(mv2: bool, env: ScriptEnv, get: Get, scripts: seq<ContentScript>, war: seq<WarItem>): (r: Result<DeclaredAll>)
    ensures r.Ok? ==> |r.value.scripts| == |scripts| && war <= r.value.war
    decreases |scripts|
  {
    if scripts == [] then Ok(DeclaredAll([], war))
    else
      var n := |scripts| - 1;
      match DeclaredScripts(mv2, env, get, scripts[..n], war)
      case Err(e) => Err(e)
      case Ok(a) =>
        match DeclaredNames(mv2, env, get, Declared(scripts[n], a.war), scripts[n].js.GetOr([]))
        case Err(e) => Err(e)
        case Ok(d) => Ok(DeclaredAll(a.scripts + [d.script], d.war))
  }

  /** The loop only extends `css` of each script and only appends to the resource
      list; an appended item is a path in MV2 and, in MV3, an entry scoped by the
      `matches` of the script it was collected for. */
  lemma {:induction false} DeclaredScriptsSpec(mv2: bool, env: ScriptEnv, get: Get, scripts: seq<ContentScript>, war: seq<WarItem>)
    requires DeclaredScripts(mv2, env, get, scripts, war).Ok?
    ensures var a := DeclaredScripts(mv2, env, get, scripts, war).value;
      forall i :: 0 <= i < |scripts| ==> CssExtended(scripts[i], a.scripts[i])
    ensures var a := DeclaredScripts(mv2, env, get, scripts, war).value;
      mv2 ==> AllPaths(a.war[|war|..])
    ensures var a := DeclaredScripts(mv2, env, get, scripts, war).value;
      !mv2 ==> forall k :: |war| <= k < |a.war| ==>
        (a.war[k].Entry? && exists i :: 0 <= i < |scripts| && a.war[k].matches == scripts[i].matches.GetOr([]))
    decreases |scripts|
  {
    if scripts != [] {
      var n := |scripts| - 1;
      DeclaredScriptsSpec(mv2, env, get, scripts[..n], war);
      var a := DeclaredScripts(mv2, env, get, scripts[..n], war).value;
      var d := DeclaredNames(mv2, env, get, Declared(scripts[n], a.war), scripts[n].js.GetOr([])).value;
      var r := DeclaredScripts(mv2, env, get, scripts, war).value;
      assert r.war[|war|..] == a.war[|war|..] + d.war[|a.war|..];
      forall i | 0 <= i < |scripts| ensures CssExtended(scripts[i], r.scripts[i]) {
        if i < n { assert scripts[..n][i] == scripts[i]; }
      }
      if !mv2 {
        forall k | |war| <= k < |r.war|
          ensures r.war[k].Entry? && exists i :: 0 <= i < |scripts| && r.war[k].matches == scripts[i].matches.GetOr([])
        {
          ScopedEntry(scripts, scripts[..n], war, a.war, d, r.war, k);
        }
      }
    }
  }

  /** An MV3 item appended by the outer loop is scoped by some script's `matches`. */
  lemma ScopedEntry(scripts: seq<ContentScript>, init: seq<ContentScript>, war: seq<WarItem>, mid: seq<WarItem>,
                    d: Declared, all: seq<WarItem>, k: nat)
    requires |scripts| > 0 && init == scripts[..|scripts| - 1]
    requires |war| <= |mid| <= |d.war| && all == d.war && |war| <= k < |all|
    requires forall k :: |war| <= k < |mid| ==>
      (mid[k].Entry? && exists i :: 0 <= i < |init| && mid[k].matches == init[i].matches.GetOr([]))
    requires mid <= d.war && AppendedFor(false, scripts[|scripts| - 1], d.war[|mid|..])
    ensures all[k].Entry? && exists i :: 0 <= i < |scripts| && all[k].matches == scripts[i].matches.GetOr([])
  {
    var n := |scripts| - 1;
    if k < |mid| {
      assert all[k] == mid[k];
      var i :| 0 <= i < n && mid[k].matches == init[i].matches.GetOr([]);
      assert init[i] == scripts[i];
    } else {
      assert all[k] == d.war[|mid|..][k - |mid|];
    }
  }

  /** Helper scripts are skipped: when every declared name is one, nothing changes. */
  lemma {:induction false} DeclaredHelpersOnly(mv2: bool, env: ScriptEnv, get: Get, scripts: seq<ContentScript>, war: seq<WarItem>)
    requires forall i, name :: 0 <= i < |scripts| && name in scripts[i].js.GetOr([]) ==> name in env.helperScripts
    ensures DeclaredScripts(mv2, env, get, scripts, war) == Ok(DeclaredAll(scripts, war))
    decreases |scripts|
  {
    if scripts != [] {
      var n := |scripts| - 1;
      forall i, name | 0 <= i < n && name in scripts[..n][i].js.GetOr([]) ensures name in env.helperScripts {
        assert scripts[..n][i] == scripts[i];
      }
      DeclaredHelpersOnly(mv2, env, get, scripts[..n], war);
      HelperNames(mv2, env, get, Declared(scripts[n], war), scripts[n].js.GetOr([]));
      assert scripts[..n] + [scripts[n]] == scripts;
    }
  }

  lemma {:induction false} HelperNames(mv2: bool, env: ScriptEnv, get: Get, d: Declared, names: seq<string>)
    requires forall name :: name in names ==> name in env.helperScripts
    ensures DeclaredNames(mv2, env, get, d, names) == Ok(d)
    decreases |names|
  {
    if names != [] {
      var n := |names| - 1;
      assert names[n] in names;
      HelperNames(mv2, env, get, d, names[..n]);
    }
  }

  /** A name with neither assets nor imports adds nothing; with some, in ESM format the
      script's own output file is among what it adds. */
  lemma DeclaredNameResources(mv2: bool, env: ScriptEnv, get: Get, d: Declared, name: string, s: Sets)
    requires name !in env.helperScripts && get(name) == Ok(s)
    ensures |s.assets| == 0 && |WithOwnFile(env, name, s.imports)| == 0 ==>
      DeclaredName(mv2, env, get, d, name).value.war == d.war
    ensures env.isESM && mv2 ==>
      Path(env.outputFileName(name)) in DeclaredName(mv2, env, get, d, name).value.war[|d.war|..]
    ensures env.isESM && !mv2 ==>
      |DeclaredName(mv2, env, get, d, name).value.war| == |d.war| + 1 &&
      env.outputFileName(name) in DeclaredName(mv2, env, get, d, name).value.war[|d.war|].resources
  {
    var imports := WithOwnFile(env, name, s.imports);
    if env.isESM && mv2 {
      var items := Paths(s.assets + imports);
      assert env.outputFileName(name) in imports;
      assert env.outputFileName(name) in s.assets + imports;
      var k :| 0 <= k < |s.assets + imports| && (s.assets + imports)[k] == env.outputFileName(name);
      assert items[k] == Path(env.outputFileName(name));
      assert DeclaredName(mv2, env, get, d, name).value.war[|d.war|..] == items;
    }
  }

  /** The declared-script loop applied to a whole manifest. */
  function DeclaredManifest(m: Manifest, env: ScriptEnv, get: Get): Result<Manifest>
    requires m.web_accessible_resources.Some?
  {
    match m.content_scripts
    case None => Ok(m)
    case Some(scripts) =>
      match DeclaredScripts(IsMV2(m), env, get, scripts, m.web_accessible_resources.value)
      case Err(e) => Err(e)
      case Ok(a) => Ok(m.(content_scripts := Some(a.scripts), web_accessible_resources := Some(a.war)))
  }

  lemma {:induction false} DeclaredNamesErr(mv2: bool, env: ScriptEnv, get: Get, d: Declared, names: seq<string>, j: nat, e: Error)
    requires j <= |names| && DeclaredNames(mv2, env, get, d, names[..j]) == Err(e)
    ensures DeclaredNames(mv2, env, get, d, names) == Err(e)
    decreases |names|
  {
    if j < |names| {
      var n := |names| - 1;
      assert names[..n][..j] == names[..j];
      DeclaredNamesErr(mv2, env, get, d, names[..n], j, e);
    } else {
      assert names[..j] == names;
    }
  }

  /** The outer loop over one more script. */
  lemma DeclaredScriptsSnoc(mv2: bool, env: ScriptEnv, get: Get, scripts: seq<ContentScript>, war0: seq<WarItem>, i: nat,
                            done: seq<ContentScript>, war: seq<WarItem>, d: Declared)
    requires i < |scripts| && DeclaredScripts(mv2, env, get, scripts[..i], war0) == Ok(DeclaredAll(done, war))
    requires DeclaredNames(mv2, env, get, Declared(scripts[i], war), scripts[i].js.GetOr([])) == Ok(d)
    ensures DeclaredScripts(mv2, env, get, scripts[..i + 1], war0) == Ok(DeclaredAll(done + [d.script], d.war))
  {
    assert scripts[..i + 1][..i] == scripts[..i];
  }

  /** The outer loop stops at the first script whose inner loop fails. */
  lemma DeclaredScriptsStepErr(mv2: bool, env: ScriptEnv, get: Get, scripts: seq<ContentScript>, war0: seq<WarItem>, i: nat,
                               done: seq<ContentScript>, war: seq<WarItem>, e: Error)
    requires i < |scripts| && DeclaredScripts(mv2, env, get, scripts[..i], war0) == Ok(DeclaredAll(done, war))
    requires DeclaredNames(mv2, env, get, Declared(scripts[i], war), scripts[i].js.GetOr([])) == Err(e)
    ensures DeclaredScripts(mv2, env, get, scripts, war0) == Err(e)
  {
    assert scripts[..i + 1][..i] == scripts[..i];
    DeclaredScriptsErr(mv2, env, get, scripts, war0, i + 1, e);
  }

  lemma {:induction false} DeclaredScriptsErr(mv2: bool, env: ScriptEnv, get: Get, scripts: seq<ContentScript>, war: seq<WarItem>, i: nat, e: Error)
    requires i <= |scripts| && DeclaredScripts(mv2, env, get, scripts[..i], war) == Err(e)
    ensures DeclaredScripts(mv2, env, get, scripts, war) == Err(e)
    decreases |scripts|
  {
    if i < |scripts| {
      var n := |scripts| - 1;
      assert scripts[..n][..i] == scripts[..i];
      DeclaredScriptsErr(mv2, env, get, scripts[..n], war, i, e);
    } else {
      assert scripts[..i] == scripts;
    }
  }

  /** The body of the inner loop for one `js` name. */
  method DeclaredNameStep(mv2: bool, env: ScriptEnv, get: Get, d: Declared, name: string) returns (r: Result<Declared>)
    ensures r == DeclaredName(mv2, env, get, d, name)
  {
    if name in env.helperScripts {
      return Ok(d);
    }
    var res := get(name);
    if res.Err? {
      return Err(res.error);
    }
    var s := res.value;
    var imports := s.imports;
    if env.isESM {
      imports := Add(imports, env.outputFileName(name));
    }
    var script := d.script;
    if |s.css| > 0 {
      script := script.(css := Some(script.css.GetOr([]) + s.css));
    }
    var war := d.war;
    if |s.assets| == 0 && |imports| == 0 {
    } else if mv2 {
      war := war + Paths(s.assets + imports);
    } else {
      war := war + [Entry(script.matches.GetOr([]), s.assets + imports)];
    }
    return Ok(Declared(script, war));
  }

  /** The inner loop, over the `js` names of one script. */
  method DeclaredScriptStep(mv2: bool, env: ScriptEnv, get: Get, script: ContentScript, war: seq<WarItem>)
    returns (r: Result<Declared>)
    ensures r == DeclaredNames(mv2, env, get, Declared(script, war), script.js.GetOr([]))
  {
    var names := script.js.GetOr([]);
    var d := Declared(script, war);
    var j := 0;
    while j < |names|
      invariant 0 <= j <= |names|
      invariant DeclaredNames(mv2, env, get, Declared(script, war), names[..j]) == Ok(d)
    {
      assert names[..j + 1][..j] == names[..j];
      var step := DeclaredNameStep(mv2, env, get, d, names[j]);
      if step.Err? {
        DeclaredNamesErr(mv2, env, get, Declared(script, war), names, j + 1, step.error);
        return Err(step.error);
      }
      d := step.value;
      j := j + 1;
    }
    assert names[..j] == names;
    return Ok(d);
  }

  /** `updateResourcesFromDeclaredScripts`: for each script, for each of its `js`
      names that is not a helper, collect its resources, extend `script.css` with the
      css, and push the assets and imports. */
  method UpdateResourcesFromDeclaredScripts(m: Manifest, env: ScriptEnv, get: Get) returns (r: Result<Manifest>)
    requires m.web_accessible_resources.Some?
    ensures r == DeclaredManifest(m, env, get)
  {
    if m.content_scripts.None? {
      return Ok(m);
    }
    var scripts := m.content_scripts.value;
    var mv2 := IsMV2(m);
    var war0 := m.web_accessible_resources.value;
    var war := war0;
    var done: seq<ContentScript> := [];
    var i := 0;
    while i < |scripts|
      invariant 0 <= i <= |scripts|
      invariant DeclaredScripts(mv2, env, get, scripts[..i], war0) == Ok(DeclaredAll(done, war))
    {
      var step := DeclaredScriptStep(mv2, env, get, scripts[i], war);
      if step.Err? {
        DeclaredScriptsStepErr(mv2, env, get, scripts, war0, i, done, war, step.error);
        return Err(step.error);
      }
      DeclaredScriptsSnoc(mv2, env, get, scripts, war0, i, done, war, step.value);
      done := done + [step.value.script];
      war := step.value.war;
      i := i + 1;
    }
    assert scripts[..i] == scripts;
    return Ok(m.(content_scripts := Some(done), web_accessible_resources := Some(war)));
  }

  // ---------------------------------------------------------------------------
  // Dynamic content scripts

  /** What one dynamic script contributes to the shared `resources` set. */
  ghost predicate Contributes(env: ScriptEnv, s: Sets, name: string, x: string) {
    x in s.assets || x in s.css || x in s.imports || (env.isESM && x == env.outputFileName(name))
  }

  /** The `resources` set the loop of `updateResourcesFromDynamicScripts` fills. The
      `dynamicScriptResources` map it consults is never written, so no name is skipped. */
  function DynamicResources(env: ScriptEnv, get: Get, names: seq<string>): (r: Result<seq<string>>)
    ensures r.Ok? ==> NoDups(r.value)
    decreases |names|
  {
    if names == [] then Ok([])
    else
      var n := |names| - 1;
      match DynamicResources(env, get, names[..n])
      case Err(e) => Err(e)
      case Ok(acc) =>
        match get(names[n])
        case Err(e) => Err(e)
        case Ok(s) => Ok(WithOwnFile(env, names[n], AddAll(AddAll(AddAll(acc, s.assets), s.css), s.imports)))
  }

  /** Some script of `names` contributes `x`. */
  ghost predicate Contributed(env: ScriptEnv, get: Get, names: seq<string>, x: string)
    requires forall i :: 0 <= i < |names| ==> get(names[i]).Ok?
  {
    exists i :: 0 <= i < |names| && Contributes(env, get(names[i]).value, names[i], x)
  }

  lemma ContributedSnoc(env: ScriptEnv, get: Get, names: seq<string>, x: string)
    requires names != [] && forall i :: 0 <= i < |names| ==> get(names[i]).Ok?
    ensures var n := |names| - 1;
      Contributed(env, get, names, x) <==>
      Contributed(env, get, names[..n], x) || Contributes(env, get(names[n]).value, names[n], x)
  {
    var n := |names| - 1;
    if Contributed(env, get, names, x) {
      var i :| 0 <= i < |names| && Contributes(env, get(names[i]).value, names[i], x);
      if i < n { assert names[..n][i] == names[i]; }
    }
    if Contributed(env, get, names[..n], x) {
      var i :| 0 <= i < n && Contributes(env, get(names[..n][i]).value, names[..n][i], x);
      assert names[..n][i] == names[i];
    }
  }

  /** When every collection succeeds, the set holds exactly what the scripts contribute. */
  lemma {:induction false} DynamicResourcesSpec(env: ScriptEnv, get: Get, names: seq<string>)
    requires forall i :: 0 <= i < |names| ==> get(names[i]).Ok?
    ensures DynamicResources(env, get, names).Ok?
    ensures forall x :: x in DynamicResources(env, get, names).value <==> Contributed(env, get, names, x)
    decreases |names|
  {
    if names != [] {
      var n := |names| - 1;
      DynamicResourcesSpec(env, get, names[..n]);
      var acc := DynamicResources(env, get, names[..n]).value;
      var s := get(names[n]).value;
      var r := DynamicResources(env, get, names).value;
      assert r == WithOwnFile(env, names[n], AddAll(AddAll(AddAll(acc, s.assets), s.css), s.imports));
      forall x ensures x in r <==> Contributed(env, get, names, x) {
        ContributedSnoc(env, get, names, x);
      }
    }
  }

  lemma {:induction false} DynamicResourcesErr(env: ScriptEnv, get: Get, names: seq<string>, j: nat, e: Error)
    requires j <= |names| && DynamicResources(env, get, names[..j]) == Err(e)
    ensures DynamicResources(env, get, names) == Err(e)
    decreases |names|
  {
    if j < |names| {
      var n := |names| - 1;
      assert names[..n][..j] == names[..j];
      DynamicResourcesErr(env, get, names[..n], j, e);
    } else {
      assert names[..j] == names;
    }
  }

  /** An entry whose first resource is the placeholder. */
  predicate IsPlaceholderEntry(w: WarItem) {
    w.Entry? && |w.resources| > 0 && w.resources[0] == DynamicScriptPlaceholder
  }

  /** Destructuring `{ resources: [r] }` from a plain path string. */
  const NotIterableError := Error(TypeError, "undefined is not iterable (cannot read property Symbol(Symbol.iterator))")

  /** `web_accessible_resources.find(({ resources: [r] }) => r === placeholder)`, from
      position `from`. */
  function FindPlaceholder(war: seq<WarItem>, from: nat): (r: Result<Option<nat>>)
    requires from <= |war|
    ensures r.Ok? && r.value.Some? ==> from <= r.value.value < |war| && IsPlaceholderEntry(war[r.value.value])
    ensures r.Ok? ==> forall j :: from <= j < |war| && (r.value.None? || j < r.value.value) ==>
      (war[j].Entry? && !IsPlaceholderEntry(war[j]))
    ensures r.Err? ==>
      exists j :: (from <= j < |war| && war[j].Path? && forall k :: from <= k < j ==> !IsPlaceholderEntry(war[k]))
    ensures (forall j :: from <= j < |war| ==> war[j].Entry?) ==> r.Ok?
    decreases |war| - from
  {
    if from == |war| then Ok(None)
    else if war[from].Path? then Err(NotIterableError)
    else if IsPlaceholderEntry(war[from]) then Ok(Some(from))
    else FindPlaceholder(war, from + 1)
  }

  /** What `updateResourcesFromDynamicScripts` does to the resource list once the
      set is collected. */
  function DynamicWar(mv2: bool, war: seq<WarItem>, resources: seq<string>): Result<Warned<seq<WarItem>>> {
    if |resources| == 0 then Ok(Warned([], war))
    else if mv2 then Ok(Warned([], war + Paths(resources)))
    else
      match FindPlaceholder(war, 0)
      case Err(e) => Err(e)
      case Ok(Some(i)) => Ok(Warned([], war[i := Entry(war[i].matches, resources)]))
      case Ok(None) => Ok(Warned([DefaultMatchWarning], war + [Entry(DefaultDynamicMatches, resources)]))
  }

  /** MV3 with a placeholder entry: the first one gets the collected resources and
      keeps its `matches`; nothing else changes and nothing is reported. */
  lemma DynamicWarPlaceholder(war: seq<WarItem>, resources: seq<string>, i: nat)
    requires |resources| > 0
    requires i < |war| && IsPlaceholderEntry(war[i])
    requires forall j :: 0 <= j < i ==> war[j].Entry? && !IsPlaceholderEntry(war[j])
    ensures DynamicWar(false, war, resources) == Ok(Warned([], war[i := Entry(war[i].matches, resources)]))
  {
  }

  /** MV3 without a placeholder entry: one warning, and one entry with the default
      match patterns appended. */
  lemma DynamicWarDefault(war: seq<WarItem>, resources: seq<string>)
    requires |resources| > 0 && AllEntries(war)
    requires forall j :: 0 <= j < |war| ==> !IsPlaceholderEntry(war[j])
    ensures DynamicWar(false, war, resources) ==
      Ok(Warned([DefaultMatchWarning], war + [Entry(DefaultDynamicMatches, resources)]))
  {
  }

  /** `updateResourcesFromDynamicScripts` applied to a whole manifest. */
  function DynamicManifest(names: seq<string>, m: Manifest, env: ScriptEnv, get: Get): (r: Result<Warned<Manifest>>)
    requires m.web_accessible_resources.Some?
    ensures r.Ok? ==> r.value.value.web_accessible_resources.Some?
  {
    match DynamicResources(env, get, names)
    case Err(e) => Err(e)
    case Ok(res) =>
      match DynamicWar(IsMV2(m), m.web_accessible_resources.value, res)
      case Err(e) => Err(e)
      case Ok(w) => Ok(Warned(w.warnings, m.(web_accessible_resources := Some(w.value))))
  }

  /** Only `web_accessible_resources` changes, and not at all when nothing was collected. */
  lemma DynamicManifestSpec(names: seq<string>, m: Manifest, env: ScriptEnv, get: Get)
    requires m.web_accessible_resources.Some?
    ensures var r := DynamicManifest(names, m, env, get);
      r.Ok? ==> r.value.value == m.(web_accessible_resources := r.value.value.web_accessible_resources) &&
                r.value.value.web_accessible_resources.Some? && |r.value.warnings| <= 1
    ensures DynamicResources(env, get, names) == Ok([]) ==> DynamicManifest(names, m, env, get) == Ok(Warned([], m))
  {
  }

  /** The loop of `updateResourcesFromDynamicScripts` filling `resources`. */
  method CollectDynamicResources(names: seq<string>, env: ScriptEnv, get: Get) returns (r: Result<seq<string>>)
    ensures r == DynamicResources(env, get, names)
  {
    var resources: seq<string> := [];
    var i := 0;
    while i < |names|
      invariant 0 <= i <= |names|
      invariant DynamicResources(env, get, names[..i]) == Ok(resources)
    {
      assert names[..i + 1][..i] == names[..i];
      var res := get(names[i]);
      if res.Err? {
        DynamicResourcesErr(env, get, names, i + 1, res.error);
        return Err(res.error);
      }
      var s := res.value;
      resources := AddAll(resources, s.assets);
      resources := AddAll(resources, s.css);
      resources := AddAll(resources, s.imports);
      if env.isESM {
        resources := Add(resources, env.outputFileName(names[i]));
      }
      i := i + 1;
    }
    assert names[..i] == names;
    return Ok(resources);
  }

  /** The update of the resource list once the set is collected: in MV3, find the
      placeholder entry or push a default one, then set its resources. */
  method PlaceDynamicResources(mv2: bool, war: seq<WarItem>, resources: seq<string>)
    returns (r: Result<Warned<seq<WarItem>>>)
    ensures r == DynamicWar(mv2, war, resources)
  {
    if |resources| == 0 {
      return Ok(Warned([], war));
    }
    if mv2 {
      return Ok(Warned([], war + Paths(resources)));
    }
    var found := FindPlaceholder(war, 0);
    if found.Err? {
      return Err(found.error);
    }
    var items := war;
    var warnings: seq<string> := [];
    var k: nat;
    if found.value.Some? {
      k := found.value.value;
    } else {
      warnings := [DefaultMatchWarning];
      items := items + [Entry(DefaultDynamicMatches, [DynamicScriptPlaceholder])];
      k := |items| - 1;
    }
    items := items[k := items[k].(resources := resources)];
    if found.value.None? {
      assert items == war + [Entry(DefaultDynamicMatches, resources)];
    }
    return Ok(Warned(warnings, items));
  }

  /** `updateResourcesFromDynamicScripts`. */
  method UpdateResourcesFromDynamicScripts(names: seq<string>, m: Manifest, env: ScriptEnv, get: Get)
    returns (r: Result<Warned<Manifest>>)
    requires m.web_accessible_resources.Some?
    ensures r == DynamicManifest(names, m, env, get)
  {
    var resources := CollectDynamicResources(names, env, get);
    if resources.Err? {
      return Err(resources.error);
    }
    var placed := PlaceDynamicResources(IsMV2(m), m.web_accessible_resources.value, resources.value);
    if placed.Err? {
      return Err(placed.error);
    }
    return Ok(Warned(placed.value.warnings, m.(web_accessible_resources := Some(placed.value.value))));
  }

  // ---------------------------------------------------------------------------
  // The generateBundle drivers

  /** `bundle[fileName]` is missing, so `{ modules }` cannot be destructured. */
  const MissingOutputError := Error(TypeError, "Cannot destructure property 'modules' of undefined")
  /** `bundle[fileName]` is an asset, so `Object.keys(modules)` gets `undefined`. */
  const NoModulesError := Error(TypeError, "Cannot convert undefined or null to object")

  /** `dynamicScripts`: the imported-resource chunks of the outputs of the
      BACKGROUND and MODULE files, given those outputs' names. */
  function DynamicScripts(b: Bundle, fileNames: seq<string>, api: CrxApi): (r: Result<seq<string>>)
    ensures r.Ok? ==> forall i :: 0 <= i < |fileNames| ==> Lookup(b, fileNames[i]).Some? && Lookup(b, fileNames[i]).value.Chunk?
    decreases |fileNames|
  {
    if fileNames == [] then Ok([])
    else
      var n := |fileNames| - 1;
      match DynamicScripts(b, fileNames[..n], api)
      case Err(e) => Err(e)
      case Ok(acc) =>
        match Lookup(b, fileNames[n])
        case None => Err(MissingOutputError)
        case Some(Asset(_, _)) => Err(NoModulesError)
        case Some(Chunk(_, _, modules, _, _)) =>
          assert forall i :: 0 <= i < n ==> fileNames[..n][i] == fileNames[i];
          Ok(acc + CrxImports(modules, ChunksById(b), api).chunks)
  }

  /** `manifest.web_accessible_resources ?? []`. */
  function WithWar(m: Manifest): (r: Manifest)
    ensures r.web_accessible_resources.Some?
    ensures m.web_accessible_resources.Some? ==> r == m
    ensures m.web_accessible_resources.None? ==> r.web_accessible_resources == Some([])
    ensures r.(web_accessible_resources := m.web_accessible_resources) == m
  {
    m.(web_accessible_resources := Some(m.web_accessible_resources.GetOr([])))
  }

  /** The declared pass pushes an MV3 entry for `name`: it is no helper and has
      assets or imports. */
  predicate PushesEntry(env: ScriptEnv, get: Get, name: string) {
    name !in env.helperScripts && get(name).Ok? &&
    (|get(name).value.assets| > 0 || |WithOwnFile(env, name, get(name).value.imports)| > 0)
  }

  /** Some `js` name of `script` pushes an MV3 entry. That entry's `matches` is the
      script's own array (`matches: script.matches!`), not a copy. */
  predicate SharesMatches(env: ScriptEnv, get: Get, script: ContentScript) {
    var names := script.js.GetOr([]);
    exists i :: 0 <= i < |names| && PushesEntry(env, get, names[i])
  }

  /** The scripts as the cleanup leaves them: its `matches.sort()` sorts in place the
      array an MV3 entry shares with its script. */
  function SortSharedMatches(env: ScriptEnv, get: Get, scripts: seq<ContentScript>): (r: seq<ContentScript>)
    ensures |r| == |scripts|
  {
    seq(|scripts|, k requires 0 <= k < |scripts| =>
      if SharesMatches(env, get, scripts[k]) && scripts[k].matches.Some?
      then scripts[k].(matches := Some(Sort(scripts[k].matches.value)))
      else scripts[k])
  }

  /** A successful inner loop over names one of which pushes an MV3 entry appends
      at least one entry, scoped by the script's `matches`. */
  lemma {:induction false} SharedEntryPushed(env: ScriptEnv, get: Get, d: Declared, names: seq<string>)
    requires DeclaredNames(false, env, get, d, names).Ok?
    requires exists i :: 0 <= i < |names| && PushesEntry(env, get, names[i])
    ensures var r := DeclaredNames(false, env, get, d, names).value;
      |d.war| < |r.war| && r.war[|d.war|] == Entry(d.script.matches.GetOr([]), r.war[|d.war|].resources)
    decreases |names|
  {
    var n := |names| - 1;
    var d1 := DeclaredNames(false, env, get, d, names[..n]).value;
    var r := DeclaredNames(false, env, get, d, names).value;
    assert r == DeclaredName(false, env, get, d1, names[n]).value;
    var i :| 0 <= i < |names| && PushesEntry(env, get, names[i]);
    if i < n {
      assert names[..n][i] == names[i];
      SharedEntryPushed(env, get, d, names[..n]);
    } else {
      assert |r.war| == |d1.war| + 1;
    }
    assert r.war[|d.war|..][0] == r.war[|d.war|];
  }

  /** Dynamic scripts, then declared scripts, then the cleanup; in MV3 the cleanup's
      in-place sort reaches the scripts whose `matches` an entry shares. */
  function Passes(dynamicScripts: seq<string>, m: Manifest, env: ScriptEnv, get: Get): Result<Warned<Manifest>>
    requires m.web_accessible_resources.Some?
  {
    match DynamicManifest(dynamicScripts, m, env, get)
    case Err(e) => Err(e)
    case Ok(w) =>
      match DeclaredManifest(w.value, env, get)
      case Err(e) => Err(e)
      case Ok(m2) =>
        match CleanUp(m2)
        case Err(e) => Err(e)
        case Ok(m3) =>
          if IsMV2(m3) || m3.content_scripts.None? then Ok(Warned(w.warnings, m3))
          else Ok(Warned(w.warnings, m3.(content_scripts := Some(SortSharedMatches(env, get, m3.content_scripts.value)))))
  }

  /** The rollup `getResources`, called with fresh sets. */
  function RollupGet(b: Bundle, api: CrxApi, rank: string -> nat): Get {
    name => Collect(RollupGraph(b, api, rank), name, EmptySets)
  }

  /** The vite `getResources`, called with fresh sets. */
  function ViteGet(b: Bundle, fd: ViteManifest, api: CrxApi, rank: string -> nat): Get {
    name => Collect(ViteGraph(b, fd, api, rank), name, EmptySets)
  }

  /** The manifest the rollup `generateBundle` writes back (lines 392-487). */
  function RollupBundleManifest(b: Bundle, m: Manifest, dynamicFiles: seq<string>, api: CrxApi, env: ScriptEnv,
                                rank: string -> nat): Result<Warned<Manifest>> {
    match DynamicScripts(b, dynamicFiles, api)
    case Err(e) => Err(e)
    case Ok(ds) => Passes(ds, WithWar(m), env, RollupGet(b, api, rank))
  }

  /** The manifest the wrapped `vite:manifest` hook writes back (lines 270-385); with
      an empty vite manifest it returns before writing anything. */
  function ViteBundleManifest(b: Bundle, fd: ViteManifest, m: Manifest, dynamicFiles: seq<string>, api: CrxApi,
                              env: ScriptEnv, rank: string -> nat): Result<Warned<Manifest>> {
    if |fd| == 0 then Ok(Warned([], m))
    else
      match DynamicScripts(b, dynamicFiles, api)
      case Err(e) => Err(e)
      case Ok(ds) => Passes(ds, WithWar(m), env, ViteGet(b, fd, api, rank))
  }

  /** The cleanup keeps the content scripts; the sort replaces them in MV3. */
  lemma PassesResult(dynamicScripts: seq<string>, m: Manifest, env: ScriptEnv, get: Get)
    requires m.web_accessible_resources.Some?
    requires Passes(dynamicScripts, m, env, get).Ok?
    ensures var w := DynamicManifest(dynamicScripts, m, env, get).value;
      var m2 := DeclaredManifest(w.value, env, get).value;
      var m3 := CleanUp(m2).value;
      var out := Passes(dynamicScripts, m, env, get).value.value;
      m3 == m2.(web_accessible_resources := m3.web_accessible_resources) &&
      out == (if IsMV2(m) || m2.content_scripts.None? then m3
              else m3.(content_scripts := Some(SortSharedMatches(env, get, m2.content_scripts.value))))
  {
    var w := DynamicManifest(dynamicScripts, m, env, get).value;
    CleanUpSpec(DeclaredManifest(w.value, env, get).value);
  }

  /** The three passes change nothing but the content scripts' `css` and `matches`
      and the resource list. Each script only gains css; in MV3 a script that pushed
      an entry comes out with its `matches` sorted, every other script keeps them. */
  lemma PassesScripts(dynamicScripts: seq<string>, m: Manifest, env: ScriptEnv, get: Get)
    requires m.web_accessible_resources.Some?
    requires Passes(dynamicScripts, m, env, get).Ok?
    ensures var out := Passes(dynamicScripts, m, env, get).value.value;
      out == m.(content_scripts := out.content_scripts, web_accessible_resources := out.web_accessible_resources)
    ensures var out := Passes(dynamicScripts, m, env, get).value.value;
      m.content_scripts.Some? ==>
        out.content_scripts.Some? && |out.content_scripts.value| == |m.content_scripts.value| &&
        forall k :: 0 <= k < |m.content_scripts.value| ==>
          var before := m.content_scripts.value[k];
          var after := out.content_scripts.value[k];
          CssExtended(before, after.(matches := before.matches)) &&
          after.matches == (if !IsMV2(m) && SharesMatches(env, get, before) && before.matches.Some?
                            then Some(Sort(before.matches.value)) else before.matches)
  {
    PassesResult(dynamicScripts, m, env, get);
    DynamicManifestSpec(dynamicScripts, m, env, get);
    var w := DynamicManifest(dynamicScripts, m, env, get).value;
    var m2 := DeclaredManifest(w.value, env, get).value;
    assert w.value == m.(web_accessible_resources := w.value.web_accessible_resources);
    assert m2 == m.(content_scripts := m2.content_scripts, web_accessible_resources := m2.web_accessible_resources);
    if m.content_scripts.Some? {
      var scripts := m.content_scripts.value;
      var war := w.value.web_accessible_resources.value;
      DeclaredScriptsSpec(IsMV2(m), env, get, scripts, war);
      assert m2.content_scripts == Some(DeclaredScripts(IsMV2(m), env, get, scripts, war).value.scripts);
      SortedScripts(IsMV2(m), env, get, scripts, m2.content_scripts.value);
    }
  }

  /** What the three passes leave in the resource list is duplicate-free in MV2 and
      merged by distinct sorted match lists in MV3. */
  lemma PassesSpec(dynamicScripts: seq<string>, m: Manifest, env: ScriptEnv, get: Get)
    requires m.web_accessible_resources.Some?
    requires Passes(dynamicScripts, m, env, get).Ok?
    ensures var out := Passes(dynamicScripts, m, env, get).value.value;
      out.web_accessible_resources.Some? ==>
        var war := out.web_accessible_resources.value;
        (IsMV2(m) ==> NoDups(war)) &&
        (!IsMV2(m) ==>
           (AllEntries(war) &&
            (forall i :: 0 <= i < |war| ==> Sorted(war[i].matches)) &&
            (forall i, j :: 0 <= i < j < |war| ==> war[i].matches != war[j].matches)))
  {
    var w := DynamicManifest(dynamicScripts, m, env, get).value;
    var m2 := DeclaredManifest(w.value, env, get).value;
    CleanUpSpec(m2);
    if CleanUp(m2).value.web_accessible_resources.Some? {
      CleanUpShape(m2);
    }
    PassesResult(dynamicScripts, m, env, get);
  }

  /** The scripts after the declared pass and the cleanup's sort, against the
      scripts before. */
  lemma SortedScripts(mv2: bool, env: ScriptEnv, get: Get, scripts: seq<ContentScript>, done: seq<ContentScript>)
    requires |done| == |scripts| && forall k :: 0 <= k < |scripts| ==> CssExtended(scripts[k], done[k])
    ensures var out := if mv2 then done else SortSharedMatches(env, get, done);
      forall k :: 0 <= k < |scripts| ==>
        CssExtended(scripts[k], out[k].(matches := scripts[k].matches)) &&
        out[k].matches == (if !mv2 && SharesMatches(env, get, scripts[k]) && scripts[k].matches.Some?
                           then Some(Sort(scripts[k].matches.value)) else scripts[k].matches)
  {
    forall k | 0 <= k < |scripts| ensures SharesMatches(env, get, scripts[k]) <==> SharesMatches(env, get, done[k]) {
      assert done[k].js == scripts[k].js;
    }
  }

  /** The passes as the `generateBundle` hooks run them. */
  method RunPasses(dynamicScripts: seq<string>, m: Manifest, env: ScriptEnv, get: Get) returns (r: Result<Warned<Manifest>>)
    requires m.web_accessible_resources.Some?
    ensures r == Passes(dynamicScripts, m, env, get)
  {
    var w := UpdateResourcesFromDynamicScripts(dynamicScripts, m, env, get);
    if w.Err? {
      return Err(w.error);
    }
    var m2 := UpdateResourcesFromDeclaredScripts(w.value.value, env, get);
    if m2.Err? {
      return Err(m2.error);
    }
    var m3 := CleanUpManifest(m2.value);
    if m3.Err? {
      return Err(m3.error);
    }
    var out := m3.value;
    if !IsMV2(out) && out.content_scripts.Some? {
      out := out.(content_scripts := Some(SortSharedMatches(env, get, out.content_scripts.value)));
    }
    return Ok(Warned(w.value.warnings, out));
  }

  /** The rollup `generateBundle` hook of the content-script resources plugin. */
  method RollupGenerateBundle(b: Bundle, m: Manifest, dynamicFiles: seq<string>, api: CrxApi, env: ScriptEnv,
                              rank: string -> nat) returns (r: Result<Warned<Manifest>>)
    ensures r == RollupBundleManifest(b, m, dynamicFiles, api, env, rank)
  {
    var ds := DynamicScripts(b, dynamicFiles, api);
    if ds.Err? {
      return Err(ds.error);
    }
    r := RunPasses(ds.value, WithWar(m), env, RollupGet(b, api, rank));
  }

  /** The wrapper `configResolved` installs around `vite:manifest`'s `generateBundle`. */
  method ViteGenerateBundle(b: Bundle, fd: ViteManifest, m: Manifest, dynamicFiles: seq<string>, api: CrxApi,
                            env: ScriptEnv, rank: string -> nat) returns (r: Result<Warned<Manifest>>)
    ensures r == ViteBundleManifest(b, fd, m, dynamicFiles, api, env, rank)
  {
    if |fd| == 0 {
      return Ok(Warned([], m));
    }
    var ds := DynamicScripts(b, dynamicFiles, api);
    if ds.Err? {
      return Err(ds.error);
    }
    r := RunPasses(ds.value, WithWar(m), env, ViteGet(b, fd, api, rank));
  }
}
