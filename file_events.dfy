/** The file kinds and the event creators of src/files.sharedEvents.ts that carry
    data: `ADD_FILES` normalises paths, `PARSE_RESULT` keys the parsed files by id,
    `CHANGE` tags an id with a change, and `ERROR` wraps a failure. */
module FileEvents {
  import opened Wrappers
  import opened SeqSet

  /** `fileTypes`. */
  const FileTypes: seq<string> :=
    ["CSS", "HTML", "IMAGE", "JSON", "MANIFEST", "RAW", "MODULE", "BACKGROUND", "CONTENT"]

  /** `isScript(file)`: the kinds bundled as scripts. */
  predicate IsScript(fileType: string) {
    fileType == "BACKGROUND" || fileType == "CONTENT" || fileType == "MODULE"
  }

  /** `fileTypes` lists nine distinct kinds and every script kind is one of them. */
  lemma FileTypesSpec()
    ensures |FileTypes| == 9 && NoDups(FileTypes)
    ensures forall t :: IsScript(t) ==> t in FileTypes
    ensures forall t :: IsScript(t) <==> t in FileTypes[6..]
  {
    assert FileTypes[6..] == ["MODULE", "BACKGROUND", "CONTENT"];
  }

  /** A `BaseAsset` or `Script`: its kind, output name and id, and every other field. */
  datatype FileRecord = FileRecord(fileType: string, fileName: string, id: string, rest: seq<(string, string)>)

  /** `normalizeFilePaths`: `fileName` and `id` go through `normalizePath`. */
  function NormalizeFilePaths(f: FileRecord, normalize: string -> string): (r: FileRecord)
    ensures r.fileType == f.fileType && r.rest == f.rest
    ensures r.fileName == normalize(f.fileName) && r.id == normalize(f.id)
  {
    f.(fileName := normalize(f.fileName), id := normalize(f.id))
  }

  /** `ADD_FILES(files).files`. */
  function AddFiles(files: seq<FileRecord>, normalize: string -> string): (r: seq<FileRecord>)
    ensures |r| == |files|
    ensures forall i :: 0 <= i < |files| ==> r[i] == NormalizeFilePaths(files[i], normalize)
  {
    seq(|files|, i requires 0 <= i < |files| => NormalizeFilePaths(files[i], normalize))
  }

  /** With an idempotent `normalizePath`, adding already normalised files changes nothing. */
  lemma AddFilesIdempotent(files: seq<FileRecord>, normalize: string -> string)
    requires forall p :: normalize(normalize(p)) == normalize(p)
    ensures AddFiles(AddFiles(files, normalize), normalize) == AddFiles(files, normalize)
  {
  }

  function Ids(files: seq<FileRecord>): (r: seq<string>)
    ensures |r| == |files| && forall i :: 0 <= i < |files| ==> r[i] == files[i].id
  {
    seq(|files|, i requires 0 <= i < |files| => files[i].id)
  }

  /** `map.set(file.id, file)`: a known id keeps its place and takes the new record,
      a new id goes last. */
  function SetById(children: seq<FileRecord>, f: FileRecord): (r: seq<FileRecord>)
    ensures Ids(r) == Add(Ids(children), f.id)
  {
    if f.id in Ids(children) then
      var i := IndexOf(Ids(children), f.id);
      var r := children[i := f];
      assert Ids(r) == Ids(children);
      r
    else
      var r := children + [f];
      assert Ids(r) == Ids(children) + [f.id];
      r
  }

  /** `[...new Map(files.map((file) => [file.id, file])).values()]`. */
  function ById(files: seq<FileRecord>): (r: seq<FileRecord>)
    ensures Ids(r) == Dedupe(Ids(files))
    decreases |files|
  {
    if files == [] then []
    else
      var n := |files| - 1;
      assert Ids(files)[..n] == Ids(files[..n]);
      SetById(ById(files[..n]), files[n])
  }

  /** The record kept for an id is the last one given with that id. */
  ghost predicate LastWithId(files: seq<FileRecord>, f: FileRecord) {
    exists j :: 0 <= j < |files| && files[j] == f && forall k :: j < k < |files| ==> files[k].id != f.id
  }

  /** One `map.set` step keeps "last record given" for every child. */
  lemma SetByIdLast(files: seq<FileRecord>, c: seq<FileRecord>, f: FileRecord)
    requires |files| > 0 && f == files[|files| - 1]
    requires Ids(c) == Dedupe(Ids(files[..|files| - 1]))
    requires forall i :: 0 <= i < |c| ==> LastWithId(files[..|files| - 1], c[i])
    ensures forall i :: 0 <= i < |SetById(c, f)| ==> LastWithId(files, SetById(c, f)[i])
  {
    var n := |files| - 1;
    var r := SetById(c, f);
    forall i | 0 <= i < |r| ensures LastWithId(files, r[i]) {
      if r[i] == f {
        assert files[n] == r[i];
      } else {
        assert i < |c| && r[i] == c[i] && c[i].id != f.id by {
          if f.id in Ids(c) {
            var k := IndexOf(Ids(c), f.id);
            assert Ids(c)[k] == f.id;
            assert i != k;
          }
        }
        var j :| 0 <= j < n && files[..n][j] == c[i] && forall k :: j < k < n ==> files[..n][k].id != c[i].id;
        assert files[j] == r[i];
        forall k | j < k < |files| ensures files[k].id != r[i].id {
          if k < n { assert files[..n][k] == files[k]; }
        }
      }
    }
  }

  /** `PARSE_RESULT` children: ids pairwise distinct, the same ids as the input, in order
      of first appearance, and for each id the last record given. */
  lemma {:induction false} ByIdSpec(files: seq<FileRecord>)
    ensures NoDups(Ids(ById(files)))
    ensures forall id :: id in Ids(ById(files)) <==> id in Ids(files)
    ensures forall i :: 0 <= i < |ById(files)| ==> LastWithId(files, ById(files)[i])
    decreases |files|
  {
    DedupeElements(Ids(files));
    if files != [] {
      var n := |files| - 1;
      ByIdSpec(files[..n]);
      SetByIdLast(files, ById(files[..n]), files[n]);
    }
  }

  /** A file change as rollup's `watchChange` reports it. */
  datatype ChangeEvent = Create | Update | Delete

  /** The events with data that the file machines exchange. */
  datatype Event =
    | AddFilesEvent(files: seq<FileRecord>)
    | ParseResult(fileName: string, children: seq<FileRecord>)
    | Change(id: string, event: ChangeEvent)
    | ErrorEvent(error: Error)

  /** `ADD_FILES(files)`. */
  function AddFilesEventOf(files: seq<FileRecord>, normalize: string -> string): (r: Event)
    ensures r.AddFilesEvent? && |r.files| == |files|
    ensures forall i :: 0 <= i < |files| ==>
      r.files[i].fileType == files[i].fileType && r.files[i].rest == files[i].rest &&
      r.files[i].id == normalize(files[i].id) && r.files[i].fileName == normalize(files[i].fileName)
  {
    AddFilesEvent(AddFiles(files, normalize))
  }

  /** `PARSE_RESULT(fileName, files)`. */
  function ParseResultOf(fileName: string, files: seq<FileRecord>): (r: Event)
    ensures r.ParseResult? && r.fileName == fileName
    ensures Ids(r.children) == Dedupe(Ids(files))
  {
    ParseResult(fileName, ById(files))
  }

  /** `CHANGE(id, change)`: the id together with the change record's `event`. */
  function ChangeOf(id: string, change: ChangeEvent): (r: Event)
    ensures r.Change? && r.id == id && r.event == change
  {
    Change(id, change)
  }
}
