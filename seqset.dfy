/** Sequences used as JavaScript `Set`s: insertion-ordered, duplicate-free.
    `[...new Set(xs)]` is `Dedupe(xs)`; `set.add(x)` is `Add(s, x)`. */
module SeqSet {

  /** No element occurs twice. */
  ghost predicate NoDups<T>(s: seq<T>) {
    forall i, j :: 0 <= i < j < |s| ==> s[i] != s[j]
  }

  /** `set.add(x)`: a new element goes to the end, a present one stays where it is. */
  function Add<T(==,!new)>(s: seq<T>, x: T): (r: seq<T>)
    ensures x in r
    ensures forall y :: y in r <==> y in s || y == x
    ensures NoDups(s) ==> NoDups(r)
    ensures s <= r && |r| <= |s| + 1
  {
    if x in s then s else s + [x]
  }

  /** Adds every element of `xs`, in order (`for (const x of xs) set.add(x)`). */
  function AddAll<T(==,!new)>(s: seq<T>, xs: seq<T>): (r: seq<T>)
    ensures forall y :: y in r <==> y in s || y in xs
    ensures NoDups(s) ==> NoDups(r)
    ensures s <= r
    ensures |r| <= |s| + |xs|
    decreases |xs|
  {
    if xs == [] then s else Add(AddAll(s, xs[..|xs| - 1]), xs[|xs| - 1])
  }

  /** `[...new Set(xs)]` (src/manifest-input/index.ts `dedupe`). */
  function Dedupe<T(==,!new)>(xs: seq<T>): (r: seq<T>)
  {
    AddAll([], xs)
  }

  /** Position of the first occurrence of `y` in `s`. */
  function IndexOf<T(==,!new)>(s: seq<T>, y: T): (i: nat)
    requires y in s
    ensures i < |s| && s[i] == y && y !in s[..i]
  {
    if s[0] == y then 0 else 1 + IndexOf(s[1..], y)
  }

  lemma {:induction false} IndexOfPrefix<T(!new)>(s: seq<T>, t: seq<T>, y: T)
    requires y in s
    ensures IndexOf(s + t, y) == IndexOf(s, y)
  {
    if s[0] != y {
      assert (s + t)[1..] == s[1..] + t;
      IndexOfPrefix(s[1..], t, y);
    }
  }

  /** `dedupe` keeps exactly the elements of its input, each once. */
  lemma DedupeElements<T(!new)>(xs: seq<T>)
    ensures NoDups(Dedupe(xs))
    ensures forall y :: y in Dedupe(xs) <==> y in xs
    ensures |Dedupe(xs)| <= |xs|
  {
  }

  /** `dedupe` keeps elements in the order of their first occurrence. */
  lemma {:induction false} DedupeFirstOccurrenceOrder<T(!new)>(xs: seq<T>, i: nat, j: nat)
    requires i < j < |Dedupe(xs)|
    ensures Dedupe(xs)[i] in xs && Dedupe(xs)[j] in xs
    ensures IndexOf(xs, Dedupe(xs)[i]) < IndexOf(xs, Dedupe(xs)[j])
    decreases |xs|
  {
    var r := Dedupe(xs);
    var n := |xs|;
    var p := xs[..n - 1];
    assert xs == p + [xs[n - 1]];
    var rp := Dedupe(p);
    assert r == Add(rp, xs[n - 1]);
    if xs[n - 1] in rp {
      DedupeFirstOccurrenceOrder(p, i, j);
      IndexOfPrefix(p, [xs[n - 1]], r[i]);
      IndexOfPrefix(p, [xs[n - 1]], r[j]);
    } else {
      assert r == rp + [xs[n - 1]];
      assert r[i] in rp;
      IndexOfPrefix(p, [xs[n - 1]], r[i]);
      if j < |rp| {
        DedupeFirstOccurrenceOrder(p, i, j);
        IndexOfPrefix(p, [xs[n - 1]], r[j]);
      } else {
        assert r[j] == xs[n - 1] && r[j] !in p;
        assert IndexOf(xs, r[j]) == n - 1;
      }
    }
  }

  /** Adding elements that are already present changes nothing. */
  lemma {:induction false} AddAllPresent<T(!new)>(s: seq<T>, xs: seq<T>)
    requires forall y :: y in xs ==> y in s
    ensures AddAll(s, xs) == s
    decreases |xs|
  {
    if xs != [] {
      AddAllPresent(s, xs[..|xs| - 1]);
    }
  }

  /** On a duplicate-free sequence `dedupe` is the identity, so it is idempotent. */
  lemma {:induction false} DedupeOfNoDups<T(!new)>(xs: seq<T>)
    requires NoDups(xs)
    ensures Dedupe(xs) == xs
    decreases |xs|
  {
    if xs != [] {
      var n := |xs|;
      DedupeOfNoDups(xs[..n - 1]);
      assert xs[n - 1] !in xs[..n - 1];
      assert xs == xs[..n - 1] + [xs[n - 1]];
    }
  }

  lemma DedupeIdempotent<T(!new)>(xs: seq<T>)
    ensures Dedupe(Dedupe(xs)) == Dedupe(xs)
  {
    DedupeElements(xs);
    DedupeOfNoDups(Dedupe(xs));
  }

  /** Adding `xs ++ ys` is adding `xs` and then `ys`. */
  lemma {:induction false} AddAllConcat<T(!new)>(s: seq<T>, xs: seq<T>, ys: seq<T>)
    ensures AddAll(s, xs + ys) == AddAll(AddAll(s, xs), ys)
    decreases |ys|
  {
    if ys == [] {
      assert xs + ys == xs;
    } else {
      var n := |ys|;
      assert (xs + ys)[..|xs + ys| - 1] == xs + ys[..n - 1];
      AddAllConcat(s, xs, ys[..n - 1]);
    }
  }

  /** All the sequences of `xss`, one after another (`flatMap`, `reduce` with spread). */
  function Flatten<T(!new)>(xss: seq<seq<T>>): (r: seq<T>)
    ensures forall y :: y in r <==> exists k :: 0 <= k < |xss| && y in xss[k]
    decreases |xss|
  {
    if xss == [] then []
    else
      var r := Flatten(xss[..|xss| - 1]) + xss[|xss| - 1];
      assert forall y :: y in r <==> exists k :: 0 <= k < |xss| && y in xss[k] by {
        forall y
          ensures y in r <==> exists k :: 0 <= k < |xss| && y in xss[k]
        {
          if y in xss[|xss| - 1] {
            assert exists k :: 0 <= k < |xss| && y in xss[k] by {
              assert y in xss[|xss| - 1];
            }
          }
          if (exists k :: 0 <= k < |xss| && y in xss[k]) {
            var k :| 0 <= k < |xss| && y in xss[k];
            if k < |xss| - 1 { assert y in xss[..|xss| - 1][k]; }
          }
        }
      }
      r
  }

  lemma FlattenSnoc<T(!new)>(xss: seq<seq<T>>, xs: seq<T>)
    ensures Flatten(xss + [xs]) == Flatten(xss) + xs
  {
    assert (xss + [xs])[..|xss|] == xss;
  }

  /** `xs.filter(p)`. */
  function Filter<T(!new)>(xs: seq<T>, p: T -> bool): (r: seq<T>)
    ensures forall y :: y in r <==> y in xs && p(y)
    ensures |r| <= |xs|
    decreases |xs|
  {
    if xs == [] then []
    else
      var r := Filter(xs[..|xs| - 1], p) + (if p(xs[|xs| - 1]) then [xs[|xs| - 1]] else []);
      assert xs == xs[..|xs| - 1] + [xs[|xs| - 1]];
      r
  }
}
