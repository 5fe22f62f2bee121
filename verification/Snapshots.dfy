/**
 backup_snapshots and check_already_uploaded: which files of a snapshot are uploaded, which are
 kept from the pool, and the manifest that results in full and in differential mode.
 */
module Snapshots {
  import opened Text
  import opened ObjectStorage
  import opened Layout
  import opened TableKeys
  import opened PoolIndex

  datatype Table = Table(keyspace: string, folder: string, files: seq<SnapFile>)

  /** What stays fixed while one backup runs; index is the pool as listed at its start. */
  datatype Run = Run(p: string, id: BackupId, mode: Mode, root: seq<string>, tag: string, index: Index, md5Checks: bool)

  datatype Upload = Upload(key: string, size: nat, md5: string, data: string)

  predicate Eligible(f: SnapFile) { f.name != "manifest.json" && f.name != "schema.cql" }

  function EligibleFiles(files: seq<SnapFile>): seq<SnapFile> {
    if files == [] then []
    else
      var rest := EligibleFiles(files[..|files| - 1]);
      if Eligible(files[|files| - 1]) then rest + [files[|files| - 1]] else rest
  }

  /** file_matches_storage: sizes, and digests when md5 checks are on. */
  predicate FileMatches(f: SnapFile, o: ManifestObject, md5Checks: bool) {
    f.size == o.size && (md5Checks ==> f.md5 == o.md5)
  }

  datatype Verdict = Skip | New | Changed | Present(obj: ManifestObject)

  /** The fate of one file. A snapshot path is always long enough to have a table key. */
  function Judge(run: Run, t: Table, f: SnapFile): Verdict {
    if !Eligible(f) then Skip
    else if run.mode.Full? then New
    else
      match SanitizeLocal(LocalPath(run.root, t.keyspace, t.folder, run.tag, f))
      case None => New
      case Some((_, key)) =>
        match Find(run.index, t.keyspace, key, f.name)
        case None => New
        case Some(o) => if FileMatches(f, o, run.md5Checks) then Present(o) else Changed
  }

  datatype Checked = Checked(needsBackup: seq<SnapFile>, needsReupload: seq<SnapFile>, already: seq<ManifestObject>)

  function CheckOne(c: Checked, v: Verdict, f: SnapFile): Checked {
    match v
    case Skip => c
    case New => c.(needsBackup := c.needsBackup + [f])
    case Changed => c.(needsReupload := c.needsReupload + [f])
    case Present(o) => c.(already := c.already + [o])
  }

  function CheckUpTo(run: Run, t: Table, n: nat): Checked
    requires n <= |t.files|
  {
    if n == 0 then Checked([], [], [])
    else CheckOne(CheckUpTo(run, t, n - 1), Judge(run, t, t.files[n - 1]), t.files[n - 1])
  }

  function Check(run: Run, t: Table): Checked { CheckUpTo(run, t, |t.files|) }

  /** check_already_uploaded. */
  method CheckAlreadyUploaded(run: Run, t: Table) returns (needsBackup: seq<SnapFile>, needsReupload: seq<SnapFile>, already: seq<ManifestObject>)
    ensures Checked(needsBackup, needsReupload, already) == Check(run, t)
  {
    hide Judge;
    needsBackup, needsReupload, already := [], [], [];
    var i := 0;
    while i < |t.files|
      invariant 0 <= i <= |t.files|
      invariant Checked(needsBackup, needsReupload, already) == CheckUpTo(run, t, i)
    {
      match Judge(run, t, t.files[i]) {
        case Skip =>
        case New => needsBackup := needsBackup + [t.files[i]];
        case Changed => needsReupload := needsReupload + [t.files[i]];
        case Present(o) => already := already + [o];
      }
      i := i + 1;
    }
  }

  function KeyFor(run: Run, t: Table, f: SnapFile): string {
    UploadKey(DataPath(run.p, run.id, run.mode), run.root, t.keyspace, t.folder, run.tag, f)
  }

  function ObjectFor(run: Run, t: Table, f: SnapFile): ManifestObject { ManifestObject(KeyFor(run, t, f), f.size, f.md5) }

  function ObjectsFor(run: Run, t: Table, files: seq<SnapFile>): (r: seq<ManifestObject>)
    ensures |r| == |files|
  {
    if files == [] then []
    else ObjectsFor(run, t, files[..|files| - 1]) + [ObjectFor(run, t, files[|files| - 1])]
  }

  function UploadFor(run: Run, t: Table, f: SnapFile): Upload { Upload(KeyFor(run, t, f), f.size, f.md5, f.data) }

  function UploadsFor(run: Run, t: Table, files: seq<SnapFile>): seq<Upload> {
    if files == [] then []
    else UploadsFor(run, t, files[..|files| - 1]) + [UploadFor(run, t, files[|files| - 1])]
  }

  /** make_manifest_object stores url_to_path of each object; the host is always part of the name. */
  function ManifestName(run: Run, path: string): string {
    match UrlToPath(path, run.id.fqdn, run.p)
    case None => path
    case Some(stored) => stored
  }

  function Renamed(run: Run, objects: seq<ManifestObject>): (r: seq<ManifestObject>)
    ensures |r| == |objects|
  {
    if objects == [] then []
    else Renamed(run, objects[..|objects| - 1])
         + [objects[|objects| - 1].(path := ManifestName(run, objects[|objects| - 1].path))]
  }

  /** Objects of one section: the uploads, then in differential mode what the pool already had. */
  function SectionObjects(run: Run, t: Table): seq<ManifestObject> {
    var c := Check(run, t);
    ObjectsFor(run, t, c.needsBackup + c.needsReupload) + if run.mode.Differential? then c.already else []
  }

  function SectionFor(run: Run, t: Table): Section {
    Section(t.keyspace, t.folder, Renamed(run, SectionObjects(run, t)))
  }

  function TableUploads(run: Run, t: Table): seq<Upload> {
    UploadsFor(run, t, Check(run, t).needsBackup + Check(run, t).needsReupload)
  }

  function ManifestOf(run: Run, tables: seq<Table>): (m: Manifest)
    ensures |m| == |tables|
  {
    if tables == [] then []
    else ManifestOf(run, tables[..|tables| - 1]) + [SectionFor(run, tables[|tables| - 1])]
  }

  function UploadsOf(run: Run, tables: seq<Table>): seq<Upload> {
    if tables == [] then []
    else UploadsOf(run, tables[..|tables| - 1]) + TableUploads(run, tables[|tables| - 1])
  }

  function KeptCount(run: Run, tables: seq<Table>): nat {
    if tables == [] then 0
    else KeptCount(run, tables[..|tables| - 1]) + |Check(run, tables[|tables| - 1]).already|
  }

  function ReplacedCount(run: Run, tables: seq<Table>): nat {
    if tables == [] then 0
    else ReplacedCount(run, tables[..|tables| - 1]) + |Check(run, tables[|tables| - 1]).needsReupload|
  }

  function BlobOf(u: Upload, now: nat): Blob { Blob(u.size, now, u.md5, Raw(u.data)) }

  function PutAll(st: Store, uploads: seq<Upload>, now: nat): Store {
    if uploads == [] then st
    else PutAll(st, uploads[..|uploads| - 1], now)[uploads[|uploads| - 1].key := BlobOf(uploads[|uploads| - 1], now)]
  }

  lemma {:induction false} PutAllAppend(st: Store, a: seq<Upload>, b: seq<Upload>, now: nat)
    ensures PutAll(st, a + b, now) == PutAll(PutAll(st, a, now), b, now)
  {
    if b == [] {
      assert a + b == a;
    } else {
      assert (a + b)[..|a + b| - 1] == a + b[..|b| - 1];
      PutAllAppend(st, a, b[..|b| - 1], now);
    }
  }

  lemma {:induction false} UploadsForLength(run: Run, t: Table, files: seq<SnapFile>)
    ensures |UploadsFor(run, t, files)| == |files|
  {
    hide UploadFor;
    if files != [] {
      UploadsForLength(run, t, files[..|files| - 1]);
    }
  }

  /** upload_blobs. */
  method UploadBlobs(storage: ObjectStore, run: Run, t: Table, files: seq<SnapFile>, now: nat) returns (objects: seq<ManifestObject>)
    modifies storage
    ensures storage.blobs == PutAll(old(storage.blobs), UploadsFor(run, t, files), now)
    ensures objects == ObjectsFor(run, t, files)
  {
    hide KeyFor;
    objects := [];
    ghost var start := storage.blobs;
    var i := 0;
    while i < |files|
      invariant 0 <= i <= |files|
      invariant storage.blobs == PutAll(start, UploadsFor(run, t, files[..i]), now)
      invariant objects == ObjectsFor(run, t, files[..i])
    {
      var f := files[i];
      assert files[..i + 1][..i] == files[..i] && files[..i + 1][i] == f;
      ghost var us := UploadsFor(run, t, files[..i]);
      assert (us + [UploadFor(run, t, f)])[..|us|] == us;
      storage.Put(KeyFor(run, t, f), Blob(f.size, now, f.md5, Raw(f.data)));
      objects := objects + [ObjectFor(run, t, f)];
      i := i + 1;
    }
    assert files[..i] == files;
  }

  /** backup_snapshots after its listing: check, upload and describe one table after the other. */
  method BackupSnapshots(storage: ObjectStore, run: Run, tables: seq<Table>, now: nat)
    returns (manifest: Manifest, numFiles: nat, replaced: nat, kept: nat)
    modifies storage
    ensures manifest == ManifestOf(run, tables)
    ensures storage.blobs == PutAll(old(storage.blobs), UploadsOf(run, tables), now)
    ensures numFiles == |UploadsOf(run, tables)| && replaced == ReplacedCount(run, tables) && kept == KeptCount(run, tables)
  {
    hide Check, PutAll, UploadsFor, Renamed, ObjectsFor;
    manifest, numFiles, replaced, kept := [], 0, 0, 0;
    ghost var start := storage.blobs;
    assert PutAll(start, [], now) == start by { PutNothing(start, now); }
    var i := 0;
    while i < |tables|
      invariant 0 <= i <= |tables|
      invariant manifest == ManifestOf(run, tables[..i])
      invariant storage.blobs == PutAll(start, UploadsOf(run, tables[..i]), now)
      invariant numFiles == |UploadsOf(run, tables[..i])|
      invariant replaced == ReplacedCount(run, tables[..i]) && kept == KeptCount(run, tables[..i])
    {
      var t := tables[i];
      assert tables[..i + 1][..i] == tables[..i] && tables[..i + 1][i] == t;
      var needsBackup, needsReupload, already := CheckAlreadyUploaded(run, t);
      replaced, kept := replaced + |needsReupload|, kept + |already|;
      numFiles := numFiles + |needsBackup| + |needsReupload|;
      UploadsForLength(run, t, needsBackup + needsReupload);
      PutAllAppend(start, UploadsOf(run, tables[..i]), TableUploads(run, t), now);
      var objects := UploadBlobs(storage, run, t, needsBackup + needsReupload, now);
      objects := objects + if run.mode.Differential? then already else [];
      manifest := manifest + [Section(t.keyspace, t.folder, Renamed(run, objects))];
      i := i + 1;
    }
    assert tables[..i] == tables;
  }

  lemma PutNothing(st: Store, now: nat)
    ensures PutAll(st, [], now) == st
  {
  }

  /** The listing of the pool as manifest objects. */
  function Items(st: Store, order: seq<string>): seq<ManifestObject> {
    seq(|order|, i requires 0 <= i < |order| =>
      if order[i] in st then ManifestObject(order[i], st[order[i]].size, st[order[i]].md5) else ManifestObject(order[i], 0, ""))
  }
}
