/** `web_accessible_resources` lists as JavaScript `Set`s: a `Set` compares strings by
    value and objects by identity, so paths are deduped and entries are not. */
module WarSet {
  import opened ManifestTypes

  /** No path occurs twice (entries may repeat). */
  ghost predicate PathsUnique(war: seq<WarItem>) {
    forall i, j :: 0 <= i < j < |war| && war[i].Path? ==> war[i] != war[j]
  }

  /** The entries of a resource list, in order. */
  function EntryItems(war: seq<WarItem>): (r: seq<WarItem>)
    decreases |war|
  {
    if war == [] then []
    else EntryItems(war[..|war| - 1]) + (if war[|war| - 1].Entry? then [war[|war| - 1]] else [])
  }

  /** The items `Paths(xs)` lists are the paths to the strings of `xs`. */
  lemma InPaths(xs: seq<string>)
    ensures forall w :: w in Paths(xs) <==> w.Path? && w.path in xs
  {
    forall w: WarItem | w.Path? && w.path in xs
      ensures w in Paths(xs)
    {
      var i :| 0 <= i < |xs| && xs[i] == w.path;
      assert Paths(xs)[i] == w;
    }
  }

  /** A list of paths has no entries. */
  lemma {:induction false} EntryItemsOfPaths(war: seq<WarItem>)
    requires AllPaths(war)
    ensures EntryItems(war) == []
    decreases |war|
  {
    if war != [] {
      EntryItemsOfPaths(war[..|war| - 1]);
    }
  }

  lemma EntryItemsSnoc(war: seq<WarItem>, w: WarItem)
    ensures EntryItems(war + [w]) == EntryItems(war) + (if w.Entry? then [w] else [])
  {
    assert (war + [w])[..|war|] == war;
  }

  lemma {:induction false} EntryItemsConcat(a: seq<WarItem>, c: seq<WarItem>)
    ensures EntryItems(a + c) == EntryItems(a) + EntryItems(c)
    decreases |c|
  {
    if c == [] {
      assert a + c == a;
    } else {
      var n := |c|;
      assert (a + c)[..|a + c| - 1] == a + c[..n - 1];
      EntryItemsConcat(a, c[..n - 1]);
    }
  }

  /** `set.add(w)` on resource items: a `Set` compares strings by value and objects by
      identity, and every entry object is a distinct one, so a present path is skipped
      while an entry is always added. */
  function AddWar(s: seq<WarItem>, w: WarItem): (r: seq<WarItem>)
    ensures forall x :: x in r <==> x in s || x == w
    ensures PathsUnique(s) ==> PathsUnique(r)
    ensures s <= r
  {
    if w.Path? && w in s then s else s + [w]
  }

  /** Adds every item of `ws`, in order. */
  function AddAllWar(s: seq<WarItem>, ws: seq<WarItem>): (r: seq<WarItem>)
    ensures forall w :: w in r <==> w in s || w in ws
    ensures PathsUnique(s) ==> PathsUnique(r)
    ensures s <= r
    decreases |ws|
  {
    if ws == [] then s
    else
      var init := ws[..|ws| - 1];
      var w := ws[|ws| - 1];
      assert forall x :: x in ws <==> x in init || x == w by {
        assert ws == init + [w];
      }
      AddWar(AddAllWar(s, init), w)
  }

  /** Every entry is added, so the entries of the result are those of `s` followed by
      those of `ws`. */
  lemma {:induction false} AddAllWarEntries(s: seq<WarItem>, ws: seq<WarItem>)
    ensures EntryItems(AddAllWar(s, ws)) == EntryItems(s) + EntryItems(ws)
    decreases |ws|
  {
    if ws != [] {
      var init := ws[..|ws| - 1];
      var w := ws[|ws| - 1];
      var prev := AddAllWar(s, init);
      AddAllWarEntries(s, init);
      if !(w.Path? && w in prev) {
        EntryItemsSnoc(prev, w);
      }
    }
  }

  /** `[...new Set(war)]` on resource items. */
  function DedupeWar(war: seq<WarItem>): seq<WarItem>
  {
    AddAllWar([], war)
  }

  /** Adding `xs ++ ys` is adding `xs` and then `ys`. */
  lemma {:induction false} AddAllWarConcat(s: seq<WarItem>, xs: seq<WarItem>, ys: seq<WarItem>)
    ensures AddAllWar(s, xs + ys) == AddAllWar(AddAllWar(s, xs), ys)
    decreases |ys|
  {
    if ys == [] {
      assert xs + ys == xs;
    } else {
      var init := ys[..|ys| - 1];
      var y := ys[|ys| - 1];
      assert (xs + ys)[..|xs + ys| - 1] == xs + init && (xs + ys)[|xs + ys| - 1] == y;
      assert AddAllWar(s, xs + ys) == AddWar(AddAllWar(s, xs + init), y);
      AddAllWarConcat(s, xs, init);
    }
  }

  /** A list without repeated paths comes out of `dedupe` as it went in. */
  lemma {:induction false} DedupeWarOfUnique(war: seq<WarItem>)
    requires PathsUnique(war)
    ensures DedupeWar(war) == war
    decreases |war|
  {
    if war != [] {
      var n := |war|;
      DedupeWarOfUnique(war[..n - 1]);
      assert war[n - 1].Path? ==> war[n - 1] !in war[..n - 1];
      assert war == war[..n - 1] + [war[n - 1]];
    }
  }

  /** `dedupe` on resource items keeps every item, repeats no path, keeps every entry
      in order (equal entries included), and applying it twice is applying it once. */
  lemma DedupeWarSpec(war: seq<WarItem>)
    ensures PathsUnique(DedupeWar(war))
    ensures forall w :: w in DedupeWar(war) <==> w in war
    ensures EntryItems(DedupeWar(war)) == EntryItems(war)
    ensures DedupeWar(DedupeWar(war)) == DedupeWar(war)
  {
    AddAllWarEntries([], war);
    DedupeWarOfUnique(DedupeWar(war));
  }

  /** Appending paths to a resource list and deduping: no path repeats, the items are
      the old ones and the new paths, the entries are the old ones, and an old list
      without repeated paths stays a prefix. */
  lemma DedupeWarAppendPaths(war: seq<WarItem>, ps: seq<string>)
    ensures var r := DedupeWar(war + Paths(ps));
      PathsUnique(r) &&
      (forall w :: w in r <==> w in war || (w.Path? && w.path in ps)) &&
      EntryItems(r) == EntryItems(war) &&
      (PathsUnique(war) ==> war <= r)
  {
    var all := war + Paths(ps);
    var r := DedupeWar(all);
    assert PathsUnique(r) && (forall w :: w in r <==> w in all) && EntryItems(r) == EntryItems(all) by {
      DedupeWarSpec(all);
    }
    InPaths(ps);
    assert EntryItems(all) == EntryItems(war) by {
      EntryItemsOfPaths(Paths(ps));
      EntryItemsConcat(war, Paths(ps));
    }
    if PathsUnique(war) {
      AddAllWarConcat([], war, Paths(ps));
      DedupeWarOfUnique(war);
    }
  }
}
