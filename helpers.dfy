/** Rollup's output bundle and the tag helpers of src/helpers.ts. The bundle
    is a JavaScript object whose key order matters ("first/last wins"), so it is a
    sequence of `(fileName, output)` pairs with distinct keys. */
module Helpers {
  import opened Wrappers

  datatype Output =
    | Chunk(fileName: string, facadeModuleId: Option<string>, modules: seq<string>, isEntry: bool, code: string)
    | Asset(fileName: string, source: string)
  {
    /** The `type` field of a rollup output. */
    function Type(): string {
      if Chunk? then "chunk" else "asset"
    }
  }

  /** `isChunk(x)`: `x.type === 'chunk'`. */
  predicate IsChunk(x: Output) {
    x.Type() == "chunk"
  }

  /** `isAsset(x)`: `x.type === 'asset'` (its type guard names `OutputChunk`; only the tag is modelled). */
  predicate IsAsset(x: Output) {
    x.Type() == "asset"
  }

  /** The two tags tell the two kinds of output apart, and never both hold. */
  lemma ChunkOrAsset(x: Output)
    ensures IsChunk(x) <==> x.Chunk?
    ensures IsAsset(x) <==> x.Asset?
    ensures IsChunk(x) != IsAsset(x)
  {
  }

  /** `not(fn)`: the negated predicate. */
  function Not<T(!new)>(fn: T -> bool): (g: T -> bool)
    ensures forall x :: g(x) == !fn(x)
  {
    x => !fn(x)
  }

  lemma NotNot<T(!new)>(fn: T -> bool, x: T)
    ensures Not(Not(fn))(x) == fn(x)
  {
  }

  type Bundle = seq<(string, Output)>

  /** rollup's `input` option: one path, a list of paths, a record of named paths, or absent. */
  datatype RollupInput =
    | InputPath(path: string)
    | InputList(paths: seq<string>)
    | InputRecord(record: seq<(string, string)>)
    | NoInput

  /** rollup's input options; `rest` stands for every other option, which the hooks carry along. */
  datatype RollupOptions = RollupOptions(input: RollupInput, rest: seq<(string, string)>)

  ghost predicate KeysUnique(b: Bundle) {
    forall i, j :: 0 <= i < j < |b| ==> b[i].0 != b[j].0
  }

  /** `bundle[key]`. */
  function Lookup(b: Bundle, key: string): (r: Option<Output>)
    ensures r.Some? <==> exists i :: 0 <= i < |b| && b[i].0 == key
    ensures r.Some? ==> exists i :: 0 <= i < |b| && b[i] == (key, r.value)
    decreases |b|
  {
    if b == [] then None
    else if b[0].0 == key then Some(b[0].1)
    else
      var r := Lookup(b[1..], key);
      assert r.Some? ==> exists i :: 0 <= i < |b| && b[i] == (key, r.value) by {
        if r.Some? {
          var i :| 0 <= i < |b[1..]| && b[1..][i] == (key, r.value);
          assert b[i + 1] == (key, r.value);
        }
      }
      assert (exists i :: 0 <= i < |b| && b[i].0 == key) ==> r.Some? by {
        if exists i :: 0 <= i < |b| && b[i].0 == key {
          var i :| 0 <= i < |b| && b[i].0 == key;
          assert b[1..][i - 1].0 == key;
        }
      }
      r
  }

  /** `delete bundle[key]`. */
  function Delete(b: Bundle, key: string): (r: Bundle)
    ensures forall p :: p in r <==> p in b && p.0 != key
    ensures |r| <= |b|
    decreases |b|
  {
    if b == [] then []
    else if b[0].0 == key then Delete(b[1..], key)
    else [b[0]] + Delete(b[1..], key)
  }

  /** `bundle[key] = value`, as rollup does for an emitted file: an existing key keeps
      its place and takes the new value, a new key goes last. */
  function Put(b: Bundle, key: string, v: Output): (r: Bundle)
    ensures Lookup(r, key) == Some(v)
    ensures forall k :: k != key ==> Lookup(r, k) == Lookup(b, k)
    decreases |b|
  {
    if b == [] then [(key, v)]
    else if b[0].0 == key then
      var r := [(key, v)] + b[1..];
      assert r[1..] == b[1..];
      r
    else
      var r := [b[0]] + Put(b[1..], key, v);
      assert r[1..] == Put(b[1..], key, v);
      r
  }

  /** After `delete bundle[key]` the key is gone and every other key looks up as before. */
  lemma {:induction false} LookupDelete(b: Bundle, key: string)
    ensures Lookup(Delete(b, key), key) == None
    ensures forall k :: k != key ==> Lookup(Delete(b, key), k) == Lookup(b, k)
    decreases |b|
  {
    if b != [] {
      LookupDelete(b[1..], key);
      if b[0].0 != key {
        assert ([b[0]] + Delete(b[1..], key))[1..] == Delete(b[1..], key);
      }
    }
  }

  /** Deleting from a concatenation deletes from each part: the kept entries keep
      their order. */
  lemma {:induction false} DeleteConcat(a: Bundle, c: Bundle, key: string)
    ensures Delete(a + c, key) == Delete(a, key) + Delete(c, key)
    decreases |a|
  {
    if a == [] {
      assert a + c == c;
    } else {
      assert (a + c)[0] == a[0] && (a + c)[1..] == a[1..] + c;
      DeleteConcat(a[1..], c, key);
    }
  }

  /** `Object.values(bundle).filter(isChunk)`. */
  function Chunks(b: Bundle): (r: seq<Output>)
    ensures forall o :: o in r ==> o.Chunk?
    decreases |b|
  {
    if b == [] then []
    else if IsChunk(b[|b| - 1].1) then Chunks(b[..|b| - 1]) + [b[|b| - 1].1]
    else Chunks(b[..|b| - 1])
  }
}
