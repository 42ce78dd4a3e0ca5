/** `cleanUpManifest` of src/plugin-contentScriptResources.ts (and the same code
    inlined in its rollup `generateBundle`): an absent list is left alone, an
    empty one is deleted, an MV2 list is deduplicated, and MV3 entries are merged
    by their sorted `matches`. */
module ContentScriptCleanup {
  import opened Wrappers
  import opened SeqSet
  import opened Strings
  import opened ManifestTypes

  /** One entry of the merge map: the sorted `matches` (its `JSON.stringify` is the
      map key, and `JSON.parse` gives it back) and the resource set. */
  type Group = (seq<string>, seq<string>)

  function Keys(gs: seq<Group>): (r: seq<seq<string>>)
    ensures |r| == |gs| && forall i :: 0 <= i < |gs| ==> r[i] == gs[i].0
  {
    seq(|gs|, i requires 0 <= i < |gs| => gs[i].0)
  }

  /** `set = map.get(key) ?? new Set()`, add every resource, `map.set(key, set)`:
      a known key keeps its place, a new one goes last. */
  function Upsert(gs: seq<Group>, key: seq<string>, res: seq<string>): (r: seq<Group>)
    ensures Keys(r) == Add(Keys(gs), key)
  {
    if key in Keys(gs) then
      var i := IndexOf(Keys(gs), key);
      var r := gs[i := (key, AddAll(gs[i].1, res))];
      assert Keys(r) == Keys(gs);
      r
    else
      var r := gs + [(key, AddAll([], res))];
      assert Keys(r) == Keys(gs) + [key];
      r
  }

  /** A `{matches, resources}` destructured from a plain path string has no `matches`. */
  const SortError := Error(TypeError, "Cannot read properties of undefined (reading 'sort')")

  /** The merge loop over the MV3 list. */
  function GroupEntries(war: seq<WarItem>): (r: Result<seq<Group>>)
    ensures r.Ok? <==> AllEntries(war)
    decreases |war|
  {
    if war == [] then Ok([])
    else
      var n := |war| - 1;
      assert AllEntries(war) <==> AllEntries(war[..n]) && war[n].Entry? by {
        if AllEntries(war[..n]) && war[n].Entry? {
          forall i | 0 <= i < |war| ensures war[i].Entry? {
            if i < n { assert war[..n][i] == war[i]; }
          }
        }
      }
      match GroupEntries(war[..n])
      case Err(e) => Err(e)
      case Ok(gs) =>
        match war[n]
        case Path(_) => Err(SortError)
        case Entry(matches, resources) => Ok(Upsert(gs, Sort(matches), resources))
  }

  /** The merge key of each entry. */
  function MatchKeys(war: seq<WarItem>): (r: seq<seq<string>>)
    requires AllEntries(war)
    ensures |r| == |war| && forall i :: 0 <= i < |war| ==> r[i] == Sort(war[i].matches)
  {
    seq(|war|, i requires 0 <= i < |war| && war[i].Entry? => Sort(war[i].matches))
  }

  /** The resources of each entry. */
  function ResourceLists(war: seq<WarItem>): (r: seq<seq<string>>)
    requires AllEntries(war)
    ensures |r| == |war| && forall i :: 0 <= i < |war| ==> r[i] == war[i].resources
  {
    seq(|war|, i requires 0 <= i < |war| && war[i].Entry? => war[i].resources)
  }

  /** Some position whose key is `key` lists `x`. */
  ghost predicate InGroup(keys: seq<seq<string>>, ress: seq<seq<string>>, key: seq<string>, x: string) {
    exists j :: 0 <= j < |keys| && j < |ress| && keys[j] == key && x in ress[j]
  }

  /** Some entry whose sorted `matches` is `key` lists `x`. */
  ghost predicate Merged(war: seq<WarItem>, key: seq<string>, x: string)
    requires AllEntries(war)
  {
    InGroup(MatchKeys(war), ResourceLists(war), key, x)
  }

  lemma InGroupSnoc(keys: seq<seq<string>>, ress: seq<seq<string>>, key: seq<string>, x: string)
    requires |keys| == |ress| > 0
    ensures var n := |keys| - 1;
      InGroup(keys, ress, key, x) <==> InGroup(keys[..n], ress[..n], key, x) || (keys[n] == key && x in ress[n])
  {
    var n := |keys| - 1;
    if InGroup(keys, ress, key, x) {
      var j :| 0 <= j < |keys| && j < |ress| && keys[j] == key && x in ress[j];
      if j < n {
        assert keys[..n][j] == keys[j] && ress[..n][j] == ress[j];
      }
    }
    if InGroup(keys[..n], ress[..n], key, x) {
      var j :| 0 <= j < n && keys[..n][j] == key && x in ress[..n][j];
      assert keys[j] == key && x in ress[j];
    }
  }

  lemma AllEntriesPrefix(war: seq<WarItem>, n: nat)
    requires n <= |war| && AllEntries(war)
    ensures AllEntries(war[..n])
  {
    forall i | 0 <= i < n ensures war[..n][i].Entry? {
      assert war[..n][i] == war[i];
    }
  }

  lemma MergedSnoc(war: seq<WarItem>, key: seq<string>, x: string)
    requires war != [] && AllEntries(war)
    ensures var n := |war| - 1;
      AllEntries(war[..n]) &&
      (Merged(war, key, x) <==> Merged(war[..n], key, x) || (Sort(war[n].matches) == key && x in war[n].resources))
  {
    var n := |war| - 1;
    AllEntriesPrefix(war, n);
    assert MatchKeys(war)[..n] == MatchKeys(war[..n]);
    assert ResourceLists(war)[..n] == ResourceLists(war[..n]);
    InGroupSnoc(MatchKeys(war), ResourceLists(war), key, x);
  }

  /** What `Upsert` does to each position, when keys are distinct. */
  lemma UpsertAt(gs: seq<Group>, key: seq<string>, res: seq<string>, i: nat)
    requires NoDups(Keys(gs)) && i < |Upsert(gs, key, res)|
    ensures i < |gs| && gs[i].0 == key ==> Upsert(gs, key, res)[i] == (key, AddAll(gs[i].1, res))
    ensures i < |gs| && gs[i].0 != key ==> Upsert(gs, key, res)[i] == gs[i]
    ensures i >= |gs| ==> key !in Keys(gs) && Upsert(gs, key, res)[i] == (key, AddAll([], res))
  {
    if key in Keys(gs) {
      var k := IndexOf(Keys(gs), key);
      if i < |gs| && gs[i].0 == key {
        assert Keys(gs)[i] == Keys(gs)[k];
      }
    }
  }

  /** The keys of the merge map are the sorted match lists, each once, in order of
      first appearance. */
  lemma {:induction false} GroupEntriesKeys(war: seq<WarItem>)
    requires AllEntries(war)
    ensures GroupEntries(war).Ok?
    ensures Keys(GroupEntries(war).value) == Dedupe(MatchKeys(war))
    decreases |war|
  {
    if war != [] {
      var n := |war| - 1;
      AllEntriesPrefix(war, n);
      GroupEntriesKeys(war[..n]);
      assert MatchKeys(war)[..n] == MatchKeys(war[..n]);
    }
  }

  /** Each group's resources are the duplicate-free union of the resources of the
      entries with that key. */
  lemma {:induction false} GroupEntriesResources(war: seq<WarItem>)
    requires AllEntries(war)
    ensures GroupEntries(war).Ok?
    ensures forall i :: 0 <= i < |GroupEntries(war).value| ==> NoDups(GroupEntries(war).value[i].1)
    ensures forall i, x :: 0 <= i < |GroupEntries(war).value| ==>
      (x in GroupEntries(war).value[i].1 <==> Merged(war, GroupEntries(war).value[i].0, x))
    decreases |war|
  {
    if war != [] {
      var n := |war| - 1;
      AllEntriesPrefix(war, n);
      GroupEntriesResources(war[..n]);
      GroupEntriesKeys(war[..n]);
      var gs := GroupEntries(war[..n]).value;
      var key := Sort(war[n].matches);
      var res := war[n].resources;
      var r := GroupEntries(war).value;
      assert r == Upsert(gs, key, res);
      DedupeElements(MatchKeys(war[..n]));
      forall i | 0 <= i < |r| ensures NoDups(r[i].1) && forall x :: x in r[i].1 <==> Merged(war, r[i].0, x) {
        UpsertAt(gs, key, res, i);
        if i >= |gs| {
          forall j | 0 <= j < n ensures Sort(war[..n][j].matches) != key {
            assert MatchKeys(war[..n])[j] in Keys(gs);
          }
        }
        forall x ensures x in r[i].1 <==> Merged(war, r[i].0, x) {
          MergedSnoc(war, r[i].0, x);
        }
      }
    }
  }

  function GroupItems(gs: seq<Group>): (r: seq<WarItem>)
    ensures |r| == |gs| && AllEntries(r)
    ensures forall i :: 0 <= i < |gs| ==> r[i] == Entry(gs[i].0, gs[i].1)
  {
    seq(|gs|, i requires 0 <= i < |gs| => Entry(gs[i].0, gs[i].1))
  }

  /** `cleanUpManifest(manifest)`. */
  function CleanUp(m: Manifest): Result<Manifest> {
    match m.web_accessible_resources
    case None => Ok(m)
    case Some(war) =>
      if |war| == 0 then Ok(m.(web_accessible_resources := None))
      else if IsMV2(m) then Ok(m.(web_accessible_resources := Some(Dedupe(war))))
      else
        match GroupEntries(war)
        case Err(e) => Err(e)
        case Ok(gs) => Ok(m.(web_accessible_resources := Some(GroupItems(gs))))
  }

  /** Only `web_accessible_resources` changes: it stays absent when absent and is
      deleted when empty; an MV2 list keeps exactly its items, each once, in order of
      first occurrence; an MV3 list fails on a plain path. */
  lemma CleanUpSpec(m: Manifest)
    ensures m.web_accessible_resources.None? ==> CleanUp(m) == Ok(m)
    ensures m.web_accessible_resources == Some([]) ==> CleanUp(m) == Ok(m.(web_accessible_resources := None))
    ensures CleanUp(m).Ok? ==> CleanUp(m).value == m.(web_accessible_resources := CleanUp(m).value.web_accessible_resources)
    ensures CleanUp(m).Err? <==>
      (m.web_accessible_resources.Some? && |m.web_accessible_resources.value| > 0 && !IsMV2(m) &&
       !AllEntries(m.web_accessible_resources.value))
    ensures IsMV2(m) && m.web_accessible_resources.Some? && |m.web_accessible_resources.value| > 0 ==>
      var war := m.web_accessible_resources.value;
      CleanUp(m).Ok? && CleanUp(m).value.web_accessible_resources == Some(Dedupe(war)) &&
      NoDups(Dedupe(war)) && (forall x :: x in Dedupe(war) <==> x in war)
  {
    if m.web_accessible_resources.Some? {
      DedupeElements(m.web_accessible_resources.value);
    }
  }

  /** An MV3 list comes out as one entry per distinct sorted match list, in order of
      first appearance, each with the duplicate-free union of the resources listed under
      that match list. */
  lemma CleanUpMV3(m: Manifest)
    requires !IsMV2(m) && m.web_accessible_resources.Some?
    requires |m.web_accessible_resources.value| > 0 && AllEntries(m.web_accessible_resources.value)
    ensures CleanUp(m).Ok? && CleanUp(m).value.web_accessible_resources.Some?
    ensures var war := m.web_accessible_resources.value;
      var out := CleanUp(m).value.web_accessible_resources.value;
      AllEntries(out) &&
      (forall i :: 0 <= i < |out| ==> Sorted(out[i].matches) && NoDups(out[i].resources)) &&
      (forall i, j :: 0 <= i < j < |out| ==> out[i].matches != out[j].matches) &&
      (forall j :: 0 <= j < |war| ==> exists i :: 0 <= i < |out| && out[i].matches == Sort(war[j].matches)) &&
      (forall i, x :: 0 <= i < |out| ==> (x in out[i].resources <==> Merged(war, out[i].matches, x)))
  {
    var war := m.web_accessible_resources.value;
    GroupEntriesKeys(war);
    GroupEntriesResources(war);
    var gs := GroupEntries(war).value;
    var out := GroupItems(gs);
    DedupeElements(MatchKeys(war));
    forall i | 0 <= i < |out| ensures Sorted(out[i].matches) {
      assert out[i].matches == Keys(gs)[i];
      assert Keys(gs)[i] in MatchKeys(war);
    }
    forall i, j | 0 <= i < j < |out| ensures out[i].matches != out[j].matches {
      assert out[i].matches == Keys(gs)[i] && out[j].matches == Keys(gs)[j];
    }
    forall j | 0 <= j < |war| ensures exists i :: 0 <= i < |out| && out[i].matches == Sort(war[j].matches) {
      assert MatchKeys(war)[j] in Keys(gs);
      var i :| 0 <= i < |gs| && Keys(gs)[i] == MatchKeys(war)[j];
      assert out[i].matches == Sort(war[j].matches);
    }
  }

  /** Whatever the cleanup leaves is duplicate-free in MV2 and, in MV3, a list of
      entries with sorted, pairwise distinct match lists. */
  lemma CleanUpShape(m: Manifest)
    requires CleanUp(m).Ok? && CleanUp(m).value.web_accessible_resources.Some?
    ensures var out := CleanUp(m).value.web_accessible_resources.value;
      (IsMV2(m) ==> NoDups(out)) &&
      (!IsMV2(m) ==>
         (AllEntries(out) &&
          (forall i :: 0 <= i < |out| ==> Sorted(out[i].matches)) &&
          (forall i, j :: 0 <= i < j < |out| ==> out[i].matches != out[j].matches)))
  {
    CleanUpSpec(m);
    if !IsMV2(m) && |m.web_accessible_resources.value| > 0 {
      CleanUpMV3(m);
    }
  }

  lemma {:induction false} GroupEntriesErr(war: seq<WarItem>, j: nat, e: Error)
    requires j <= |war| && GroupEntries(war[..j]) == Err(e)
    ensures GroupEntries(war) == Err(e)
    decreases |war|
  {
    if j < |war| {
      var n := |war| - 1;
      assert war[..n][..j] == war[..j];
      GroupEntriesErr(war[..n], j, e);
    } else {
      assert war[..j] == war;
    }
  }

  /** `cleanUpManifest`: the MV3 branch fills the merge map entry by entry. */
  method CleanUpManifest(m: Manifest) returns (r: Result<Manifest>)
    ensures r == CleanUp(m)
  {
    if m.web_accessible_resources.None? {
      return Ok(m);
    }
    var war := m.web_accessible_resources.value;
    if |war| == 0 {
      return Ok(m.(web_accessible_resources := None));
    }
    if IsMV2(m) {
      return Ok(m.(web_accessible_resources := Some(Dedupe(war))));
    }
    var gs: seq<Group> := [];
    var i := 0;
    while i < |war|
      invariant 0 <= i <= |war|
      invariant GroupEntries(war[..i]) == Ok(gs)
    {
      assert war[..i + 1][..i] == war[..i];
      if war[i].Path? {
        GroupEntriesErr(war, i + 1, SortError);
        return Err(SortError);
      }
      gs := Upsert(gs, Sort(war[i].matches), war[i].resources);
      i := i + 1;
    }
    assert war[..i] == war;
    return Ok(m.(web_accessible_resources := Some(GroupItems(gs))));
  }
}
