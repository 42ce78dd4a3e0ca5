/** The MV3 manifest rewrite `updateManifestV3` (src/manifest-input/updateManifest.ts):
    it fixes `chunkFileNames` on rollup's output options, records it in the cache, and
    makes the chunks web-accessible to every page a content script can run on. */
module UpdateManifest {
  import opened Wrappers
  import opened SeqSet
  import opened Strings
  import opened ManifestTypes
  import ManifestInput

  const DefaultChunkFileNames := ManifestInput.Pattern("chunks/[name]-[hash].js")
  /** The stand-in the conflict check uses for an output without `chunkFileNames`. */
  const NoChunkFileNames := ManifestInput.Pattern("no cfn")
  const MultipleChunkFileNamesMessage := "Multiple output values for chunkFileNames are not supported"
  const NoFirstOutputMessage := "Cannot destructure 'chunkFileNames' of undefined"
  /** `chunkFileNames.split` on a naming function. */
  const NotSplittableMessage := "chunkFileNames.split is not a function"

  type ChunkFileNames = ManifestInput.ChunkFileNames

  /** One rollup output option object; `rest` stands for its other fields. */
  datatype OutputEntry = OutputEntry(chunkFileNames: Option<ChunkFileNames>, rest: Dict)

  /** `options.output`: absent, one object, or an array of objects. */
  datatype OutputSpec = NoOutput | Single(entry: OutputEntry) | Many(entries: seq<OutputEntry>)

  /** rollup's options object, whose `output` the rewrite updates in place. */
  class OutputOptions {
    var output: OutputSpec

    constructor (output: OutputSpec)
      ensures this.output == output
    {
      this.output := output;
    }
  }

  /** The `chunkFileNames` the rewrite adopts: the first output's, or the default.
      An empty output array has no first element to destructure, which throws. */
  function ChosenChunkFileNames(output: OutputSpec): (r: Result<ChunkFileNames>)
    ensures r.Err? <==> output == Many([])
    ensures output.NoOutput? ==> r == Ok(DefaultChunkFileNames)
    ensures output.Single? ==> r == Ok(output.entry.chunkFileNames.GetOr(DefaultChunkFileNames))
    ensures output.Many? && output.entries != [] ==> r == Ok(output.entries[0].chunkFileNames.GetOr(DefaultChunkFileNames))
  {
    match output
    case NoOutput => Ok(DefaultChunkFileNames)
    case Single(e) => Ok(e.chunkFileNames.GetOr(DefaultChunkFileNames))
    case Many(es) =>
      if es == [] then Err(Error(TypeError, NoFirstOutputMessage))
      else Ok(es[0].chunkFileNames.GetOr(DefaultChunkFileNames))
  }

  /** The values the conflict check collects in a `Set`. */
  function ChunkFileNameKeys(entries: seq<OutputEntry>): (r: seq<ChunkFileNames>)
    ensures |r| == |entries| && forall i :: 0 <= i < |entries| ==> r[i] == entries[i].chunkFileNames.GetOr(NoChunkFileNames)
  {
    seq(|entries|, i requires 0 <= i < |entries| => entries[i].chunkFileNames.GetOr(NoChunkFileNames))
  }

  /** `output.reduce((r, x) => r.add(x.chunkFileNames ?? 'no cfn'), new Set()).size > 1` */
  predicate Conflicting(entries: seq<OutputEntry>) {
    |Dedupe(ChunkFileNameKeys(entries))| > 1
  }

  /** The set has more than one member exactly when two outputs disagree, an output
      without `chunkFileNames` counting as one value. */
  lemma ConflictingSpec(entries: seq<OutputEntry>)
    ensures Conflicting(entries) <==>
      (exists i, j :: 0 <= i < |entries| && 0 <= j < |entries| &&
         entries[i].chunkFileNames.GetOr(NoChunkFileNames) != entries[j].chunkFileNames.GetOr(NoChunkFileNames))
  {
    var keys := ChunkFileNameKeys(entries);
    var d := Dedupe(keys);
    DedupeElements(keys);
    if Conflicting(entries) {
      assert d[0] in keys && d[1] in keys;
      var i :| 0 <= i < |keys| && keys[i] == d[0];
      var j :| 0 <= j < |keys| && keys[j] == d[1];
      assert entries[i].chunkFileNames.GetOr(NoChunkFileNames) != entries[j].chunkFileNames.GetOr(NoChunkFileNames);
    }
    if exists i, j :: 0 <= i < |entries| && 0 <= j < |entries| &&
        entries[i].chunkFileNames.GetOr(NoChunkFileNames) != entries[j].chunkFileNames.GetOr(NoChunkFileNames) {
      var i, j :| 0 <= i < |entries| && 0 <= j < |entries| &&
        entries[i].chunkFileNames.GetOr(NoChunkFileNames) != entries[j].chunkFileNames.GetOr(NoChunkFileNames);
      assert keys[i] in d && keys[j] in d;
      var a :| 0 <= a < |d| && d[a] == keys[i];
      var b :| 0 <= b < |d| && d[b] == keys[j];
      assert a != b;
    }
  }

  /** Every output after `forEach((x) => (x.chunkFileNames = chunkFileNames))`. */
  function AssignAll(entries: seq<OutputEntry>, cfn: ChunkFileNames): (r: seq<OutputEntry>)
    ensures |r| == |entries| && forall i :: 0 <= i < |entries| ==> r[i] == entries[i].(chunkFileNames := Some(cfn))
  {
    seq(|entries|, i requires 0 <= i < |entries| => entries[i].(chunkFileNames := Some(cfn)))
  }

  /** `options.output` after the rewrite. Without an `output` option the default is
      written to a fresh object, so `options` keeps no trace of it. */
  function OutputAfter(output: OutputSpec, cfn: ChunkFileNames): OutputSpec {
    match output
    case NoOutput => NoOutput
    case Single(e) => Single(e.(chunkFileNames := Some(cfn)))
    case Many(es) => Many(AssignAll(es, cfn))
  }

  /** `allMatches`: every content script's `matches`, then `host_permissions`. */
  function AllMatches(m: Manifest): (r: seq<string>)
    ensures forall p :: p in r <==>
      (exists k :: 0 <= k < |Scripts(m)| && p in Scripts(m)[k].matches.GetOr([])) || p in m.host_permissions.GetOr([])
  {
    var cts := Scripts(m);
    var xss := seq(|cts|, k requires 0 <= k < |cts| => cts[k].matches.GetOr([]));
    assert forall k :: 0 <= k < |cts| ==> xss[k] == cts[k].matches.GetOr([]);
    Flatten(xss) + m.host_permissions.GetOr([])
  }

  /** `Array.from(new Set(allMatches))`. */
  function Matches(m: Manifest): seq<string> {
    Dedupe(AllMatches(m))
  }

  /** The match patterns hold every content-script pattern and host permission,
      each once, in the order of first appearance. */
  lemma MatchesSpec(m: Manifest)
    ensures NoDups(Matches(m))
    ensures forall p :: p in Matches(m) <==>
      (exists k :: 0 <= k < |Scripts(m)| && p in Scripts(m)[k].matches.GetOr([])) || p in m.host_permissions.GetOr([])
    ensures forall i, j :: 0 <= i < j < |Matches(m)| ==>
      IndexOf(AllMatches(m), Matches(m)[i]) < IndexOf(AllMatches(m), Matches(m)[j])
  {
    DedupeElements(AllMatches(m));
    forall i, j | 0 <= i < j < |Matches(m)|
      ensures IndexOf(AllMatches(m), Matches(m)[i]) < IndexOf(AllMatches(m), Matches(m)[j])
    {
      DedupeFirstOccurrenceOrder(AllMatches(m), i, j);
    }
  }

  /** The resource pattern: the first `[format]`, `[name]` and `[hash]` each become `*`. */
  function ResourcePattern(cfn: string): string {
    ReplaceFirst(ReplaceFirst(ReplaceFirst(cfn, "[format]", "*"), "[name]", "*"), "[hash]", "*")
  }

  /** A name without placeholders is its own pattern. */
  lemma ResourcePatternPlain(cfn: string)
    requires Find(cfn, "[format]").None? && Find(cfn, "[name]").None? && Find(cfn, "[hash]").None?
    ensures ResourcePattern(cfn) == cfn
  {
  }

  /** `indexOf` finds `pat` at `k` when it occurs there and no earlier character
      starts it. */
  lemma FindAt(s: string, pat: string, k: nat)
    requires |pat| > 0 && OccursAt(s, pat, k)
    requires forall i :: 0 <= i < k ==> s[i] != pat[0]
    ensures Find(s, pat) == Some(k)
  {
    var r := Find(s, pat);
    assert r.Some?;
    assert s[r.value..r.value + |pat|][0] == s[r.value];
  }

  /** The first occurrence of `pat` is the one right after a prefix that does not
      contain its first character. */
  lemma ReplaceAfter(pre: string, pat: string, rest: string, rep: string)
    requires |pat| > 0 && pat[0] !in pre
    ensures ReplaceFirst(pre + pat + rest, pat, rep) == pre + rep + rest
  {
    var s := pre + pat + rest;
    var k := |pre|;
    assert s[k..k + |pat|] == pat;
    forall i | 0 <= i < k ensures s[i] != pat[0] {
      assert s[i] == pre[i];
    }
    FindAt(s, pat, k);
    assert s[..k] == pre;
    assert s[k + |pat|..] == rest;
  }

  /** A pattern whose first two characters never appear side by side does not occur. */
  lemma NoOccurrence(s: string, pat: string)
    requires |pat| >= 2
    requires forall i :: 0 <= i < |s| - 1 ==> !(s[i] == pat[0] && s[i + 1] == pat[1])
    ensures Find(s, pat).None?
  {
    forall i | 0 <= i ensures !OccursAt(s, pat, i) {
      if i + |pat| <= |s| {
        assert s[i..i + |pat|][0] == s[i] && s[i..i + |pat|][1] == s[i + 1];
      }
    }
  }

  /** A template whose only `[` open `[name]` and `[hash]` holds no `[format]`. */
  lemma NoFormat(pre: string, mid: string, post: string)
    requires '[' !in pre && '[' !in mid && '[' !in post
    ensures Find(pre + "[name]" + mid + "[hash]" + post, "[format]").None?
  {
    var s0 := pre + "[name]" + mid + "[hash]" + post;
    var n := |pre|;
    var h := n + 6 + |mid|;
    forall i | 0 <= i < |s0| && i != n && i != h ensures s0[i] != '[' {
      if i < n { assert s0[i] == pre[i]; }
      else if n < i < n + 6 { assert s0[i] == "[name]"[i - n]; }
      else if n + 6 <= i < h { assert s0[i] == mid[i - n - 6]; }
      else if h < i < h + 6 { assert s0[i] == "[hash]"[i - h]; }
      else if h + 6 <= i { assert s0[i] == post[i - h - 6]; }
    }
    forall i | 0 <= i < |s0| - 1 ensures !(s0[i] == '[' && s0[i + 1] == 'f') {
      if i == n { assert s0[i + 1] == 'n'; }
      else if i == h { assert s0[i + 1] == 'h'; }
      else { assert s0[i] != '['; }
    }
    NoOccurrence(s0, "[format]");
  }

  /** The placeholders are replaced wherever a file name template puts them, as long
      as no other `[` appears; the default `chunks/[name]-[hash].js` is the instance
      `pre = "chunks/"`, `mid = "-"`, `post = ".js"`. */
  lemma ResourcePatternNameHash(pre: string, mid: string, post: string)
    requires '[' !in pre && '[' !in mid && '[' !in post
    ensures ResourcePattern(pre + "[name]" + mid + "[hash]" + post) == pre + "*" + mid + "*" + post
  {
    var s0 := pre + "[name]" + mid + "[hash]" + post;
    NoFormat(pre, mid, post);
    assert s0 == pre + "[name]" + (mid + "[hash]" + post);
    ReplaceAfter(pre, "[name]", mid + "[hash]" + post, "*");
    var s1 := pre + "*" + (mid + "[hash]" + post);
    assert s1 == (pre + "*" + mid) + "[hash]" + post;
    assert '[' !in pre + "*" + mid;
    ReplaceAfter(pre + "*" + mid, "[hash]", post, "*");
  }

  /** `manifest.background.type = 'module'` when there is a background. */
  function WithModuleBackground(m: Manifest): (r: Manifest)
    ensures m.background.None? ==> r == m
    ensures m.background.Some? ==>
      r == m.(background := Some(m.background.value.(workerType := Some("module"))))
  {
    if m.background.Some? then m.(background := Some(m.background.value.(workerType := Some("module")))) else m
  }

  /** The rewritten manifest once `chunkFileNames` is known. */
  function Rewritten(m: Manifest, cfn: string): (r: Manifest)
    requires m.content_scripts.Some?
    ensures r.web_accessible_resources.Some?
    ensures r.web_accessible_resources.value ==
      m.web_accessible_resources.GetOr([]) + [Entry(Matches(m), [ResourcePattern(cfn)])]
    ensures r.(web_accessible_resources := m.web_accessible_resources) == WithModuleBackground(m)
  {
    var b := WithModuleBackground(m);
    b.(web_accessible_resources := Some(m.web_accessible_resources.GetOr([]) + [Entry(Matches(m), [ResourcePattern(cfn)])]))
  }

  /** `updateManifestV3(m, options, cache)`. The manifest is a value, so the caller's
      copy is never touched; `options.output` and `cache.chunkFileNames` are updated in
      place, and a thrown error is an `Err`. A naming function is stored like a
      pattern and then fails at `.split`. */
  method UpdateManifestV3(m: Manifest, options: OutputOptions, cache: ManifestInput.Cache) returns (r: Result<Manifest>)
    modifies options, cache`chunkFileNames
    ensures m.content_scripts.None? ==>
      r == Ok(WithModuleBackground(m)) && options.output == old(options.output) &&
      cache.chunkFileNames == old(cache.chunkFileNames)
    ensures m.content_scripts.Some? && ChosenChunkFileNames(old(options.output)).Err? ==>
      r == ChosenChunkFileNames(old(options.output)).PropagateFailure() &&
      options.output == old(options.output) && cache.chunkFileNames == old(cache.chunkFileNames)
    ensures m.content_scripts.Some? && ChosenChunkFileNames(old(options.output)).Ok? ==>
      var cfn := ChosenChunkFileNames(old(options.output)).value;
      cache.chunkFileNames == Some(cfn) &&
      (old(options.output).Many? && Conflicting(old(options.output).entries) ==>
        r == Err(Error(TypeError, MultipleChunkFileNamesMessage)) && options.output == old(options.output)) &&
      (!(old(options.output).Many? && Conflicting(old(options.output).entries)) ==>
        options.output == OutputAfter(old(options.output), cfn) &&
        r == (if cfn.Pattern? then Ok(Rewritten(m, cfn.pattern)) else Err(Error(TypeError, NotSplittableMessage))))
  {
    if m.content_scripts.None? {
      return Ok(WithModuleBackground(m));
    }
    var output := options.output;
    var chosen := ChosenChunkFileNames(output);
    if chosen.Err? {
      return chosen.PropagateFailure();
    }
    var cfn := chosen.value;
    cache.chunkFileNames := Some(cfn);
    if output.Many? {
      if Conflicting(output.entries) {
        return Err(Error(TypeError, MultipleChunkFileNamesMessage));
      }
      var es := output.entries;
      var i := 0;
      while i < |es|
        invariant 0 <= i <= |es| && |es| == |output.entries|
        invariant forall k :: 0 <= k < i ==> es[k] == output.entries[k].(chunkFileNames := Some(cfn))
        invariant forall k :: i <= k < |es| ==> es[k] == output.entries[k]
      {
        es := es[i := es[i].(chunkFileNames := Some(cfn))];
        i := i + 1;
      }
      assert es == AssignAll(output.entries, cfn);
      options.output := Many(es);
    } else if output.Single? {
      options.output := Single(output.entry.(chunkFileNames := Some(cfn)));
    }
    if cfn.NamingFunction? {
      return Err(Error(TypeError, NotSplittableMessage));
    }
    r := Ok(Rewritten(m, cfn.pattern));
  }

  /** After a successful rewrite every output, and the cache, agree on one
      `chunkFileNames`, and the new resource entry is built from it. */
  lemma RewriteAgrees(output: OutputSpec, m: Manifest)
    requires m.content_scripts.Some?
    requires ChosenChunkFileNames(output).Ok?
    requires !(output.Many? && Conflicting(output.entries))
    ensures var cfn := ChosenChunkFileNames(output).value;
      var after := OutputAfter(output, cfn);
      (after.Single? ==> after.entry.chunkFileNames == Some(cfn)) &&
      (after.Many? ==> forall k :: 0 <= k < |after.entries| ==> after.entries[k].chunkFileNames == Some(cfn)) &&
      (output.Many? ==> forall k :: 0 <= k < |output.entries| ==>
        output.entries[k].chunkFileNames.GetOr(NoChunkFileNames) == output.entries[0].chunkFileNames.GetOr(NoChunkFileNames)) &&
      (cfn.Pattern? ==>
        Rewritten(m, cfn.pattern).web_accessible_resources.value[|m.web_accessible_resources.GetOr([])|] ==
          Entry(Matches(m), [ResourcePattern(cfn.pattern)]))
  {
    if output.Many? {
      ConflictingSpec(output.entries);
    }
  }
}
