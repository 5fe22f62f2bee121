/**
 validate_manifest: compares a backup's manifest with what is stored under its data folder.
 A backup verified right after it was taken reports exactly its empty files.
 */
module Verify {
  import opened Text
  import opened ObjectStorage
  import opened Layout
  import opened TableKeys
  import opened PoolIndex
  import opened Snapshots
  import opened Manifests

  datatype Problem = Missing(path: string) | Different(path: string) | Extra(path: string)

  const STATISTICS: string := "-Statistics.db"
  const SUMMARY: string := "-Summary.db"

  predicate Ignored(path: string) { Contains(path, STATISTICS) }

  /** blob_matches_manifest. */
  predicate BlobMatches(b: Blob, o: ManifestObject, md5Checks: bool) {
    b.size == o.size && (md5Checks ==> b.md5 == o.md5)
  }

  function ObjectsIn(m: Manifest): set<ManifestObject> {
    set sec, o | sec in m && o in sec.objects && !Ignored(o.path) :: o
  }

  /** The blobs listed under the data folder, by string prefix, empty ones left out. */
  function ListedData(st: Store, dataPath: string): set<string> {
    set k | k in ListObjects(st, dataPath) && !Ignored(k)
  }

  function ProblemOf(st: Store, listed: set<string>, o: ManifestObject, md5Checks: bool): set<Problem> {
    if o.path !in listed || o.path !in st then {Missing(o.path)}
    else if BlobMatches(st[o.path], o, md5Checks) || Contains(o.path, SUMMARY) then {}
    else {Different(o.path)}
  }

  /** A manifest that is missing or not JSON yields no error at all. */
  function ValidateManifest(st: Store, p: string, id: BackupId, mode: Mode, md5Checks: bool): set<Problem> {
    var key := MetaKey(p, id, "manifest.json");
    if key !in st || st[key].body.Raw? then {}
    else
      var objects := ObjectsIn(st[key].body.sections);
      var listed := ListedData(st, DataPath(p, id, mode));
      (set o, x | o in objects && x in ProblemOf(st, listed, o, md5Checks) :: x)
      + if mode.Full? then (set k | k in listed && !(exists o :: o in objects && o.path == k) :: Extra(k)) else {}
  }

  /** The listing has the object as its manifest entry has it; a Summary file may differ. */
  predicate Agrees(st: Store, listed: set<string>, o: ManifestObject, md5Checks: bool) {
    o.path in listed && o.path in st && (BlobMatches(st[o.path], o, md5Checks) || Contains(o.path, SUMMARY))
  }

  /**
   When verifying reports no error, for every store: there is no manifest to read, or the checked objects of
   the manifest are all listed as it has them, and in full mode nothing else is listed.
   */
  lemma ValidateClean(st: Store, p: string, id: BackupId, mode: Mode, md5Checks: bool)
    ensures var key := MetaKey(p, id, "manifest.json");
            ValidateManifest(st, p, id, mode, md5Checks) == {}
            <==>
            || key !in st || st[key].body.Raw?
            || (var objects, listed := ObjectsIn(st[key].body.sections), ListedData(st, DataPath(p, id, mode));
                && (forall o :: o in objects ==> Agrees(st, listed, o, md5Checks))
                && (mode.Full? ==> forall k :: k in listed ==> exists o :: o in objects && o.path == k))
  {
    hide MetaKey, ObjectsIn, ListedData, DataPath, BlobMatches, Contains;
    var key := MetaKey(p, id, "manifest.json");
    var problems := ValidateManifest(st, p, id, mode, md5Checks);
    if key in st && !st[key].body.Raw? {
      var objects, listed := ObjectsIn(st[key].body.sections), ListedData(st, DataPath(p, id, mode));
      forall o | o in objects ensures Agrees(st, listed, o, md5Checks) <==> ProblemOf(st, listed, o, md5Checks) == {} {}
      forall o, x | o in objects && x in ProblemOf(st, listed, o, md5Checks) ensures x in problems {}
      forall k | mode.Full? && k in listed && !(exists o :: o in objects && o.path == k) ensures Extra(k) in problems {}
    }
  }

  /** The listing has a blob of this path: it lies under the data folder, is not empty and is no Statistics file. */
  ghost predicate InListing(st: Store, p: string, id: BackupId, mode: Mode, path: string) {
    path in st && DataPath(p, id, mode) <= path && st[path].size > 0 && !Contains(path, "-Statistics.db")
  }

  /** The manifest records the object, and it is no Statistics file. */
  ghost predicate InManifest(m: Manifest, o: ManifestObject) {
    !Contains(o.path, "-Statistics.db") && exists i :: 0 <= i < |m| && o in m[i].objects
  }

  lemma ListingExact(st: Store, p: string, id: BackupId, mode: Mode, m: Manifest)
    ensures forall k :: k in ListedData(st, DataPath(p, id, mode)) <==> InListing(st, p, id, mode, k)
    ensures forall o :: o in ObjectsIn(m) <==> InManifest(m, o)
  {
    hide DataPath, Contains;
    forall o | o in ObjectsIn(m) ensures InManifest(m, o) {
      var sec :| sec in m && o in sec.objects;
      var i :| 0 <= i < |m| && m[i] == sec;
    }
    forall o | InManifest(m, o) ensures o in ObjectsIn(m) {
      var i :| 0 <= i < |m| && o in m[i].objects;
      assert m[i] in m;
    }
  }

  /**
   What verifying reports for a manifest it can read, path by path: missing, if a checked object of that path
   is not listed; different, if one that is no Summary file is listed with another size or, where digests are
   checked, another digest; extra, for a full backup, if it is listed and no checked object has it.
   */
  lemma ValidateExact(st: Store, p: string, id: BackupId, mode: Mode, md5Checks: bool, m: Manifest, path: string)
    requires MetaKey(p, id, "manifest.json") in st && st[MetaKey(p, id, "manifest.json")].body == Doc(m)
    ensures var r := ValidateManifest(st, p, id, mode, md5Checks);
            && (Missing(path) in r <==> !InListing(st, p, id, mode, path) && exists o :: InManifest(m, o) && o.path == path)
            && (Different(path) in r <==>
                  && InListing(st, p, id, mode, path) && !Contains(path, "-Summary.db")
                  && exists o :: InManifest(m, o) && o.path == path && (o.size != st[path].size || (md5Checks && o.md5 != st[path].md5)))
            && (Extra(path) in r <==> mode.Full? && InListing(st, p, id, mode, path) && forall o :: InManifest(m, o) ==> o.path != path)
  {
    ListingExact(st, p, id, mode, m);
    hide MetaKey, ObjectsIn, ListedData, DataPath, Contains, InManifest;
    assert SUMMARY == "-Summary.db";
    var objects, listed := ObjectsIn(m), ListedData(st, DataPath(p, id, mode));
    var r := ValidateManifest(st, p, id, mode, md5Checks);
    forall o, x | o in objects && x in ProblemOf(st, listed, o, md5Checks) ensures x in r {}
    forall o | o in objects && o.path == path
      ensures Missing(path) in ProblemOf(st, listed, o, md5Checks) <==> path !in listed
      ensures Different(path) in ProblemOf(st, listed, o, md5Checks) <==>
                path in listed && !Contains(path, "-Summary.db") && (o.size != st[path].size || (md5Checks && o.md5 != st[path].md5))
    {}
  }

  // ---------------------------------------------------------------- the store right after a backup

  /** A place in the snapshot holds one file. */
  ghost predicate OneFilePerPlace(tables: seq<Table>) {
    forall t, u, f, g ::
      (t in tables && u in tables && f in t.files && g in u.files
       && t.keyspace == u.keyspace && t.folder == u.folder && f.sub == g.sub && f.name == g.name) ==> f == g
  }

  lemma {:induction false} PutAllMisses(st: Store, uploads: seq<Upload>, now: nat, k: string)
    requires forall u :: u in uploads ==> u.key != k
    ensures k in PutAll(st, uploads, now) <==> k in st
    ensures k in st ==> PutAll(st, uploads, now)[k] == st[k]
  {
    if uploads != [] {
      PutAllMisses(st, uploads[..|uploads| - 1], now, k);
    }
  }

  lemma {:induction false} PutAllHits(st: Store, uploads: seq<Upload>, now: nat, u: Upload)
    requires u in uploads && forall v :: v in uploads && v.key == u.key ==> v == u
    ensures u.key in PutAll(st, uploads, now) && PutAll(st, uploads, now)[u.key] == BlobOf(u, now)
  {
    var rest, last := uploads[..|uploads| - 1], uploads[|uploads| - 1];
    assert last in uploads;
    if last.key != u.key {
      assert u in rest;
      PutAllHits(st, rest, now, u);
    }
  }

  /** Uploads to one key are one upload. */
  lemma SameKeySameUpload(run: Run, tables: seq<Table>, u: Upload, v: Upload)
    requires GoodRun(run) && OneFilePerPlace(tables) && (forall t :: t in tables ==> GoodTableFiles(t))
    requires UploadedBy(run, tables, u) && UploadedBy(run, tables, v) && u.key == v.key
    ensures u == v
  {
    var t, f :| t in tables && UploadOf(run, t, f, u);
    var t', g :| t' in tables && UploadOf(run, t', g, v);
    SamePlace(run, t, f, t', g);
    hide ToUpload, KeyFor, GoodFile;
    assert f == g;
    KeyDepends(run, t, t', f);
  }

  lemma SamePlace(run: Run, t: Table, f: SnapFile, t': Table, g: SnapFile)
    requires GoodRun(run) && GoodTableFiles(t) && GoodTableFiles(t') && f in t.files && g in t'.files
    requires KeyFor(run, t, f) == KeyFor(run, t', g)
    ensures t.keyspace == t'.keyspace && t.folder == t'.folder && f.sub == g.sub && f.name == g.name
  {
    KeyForShape(run, t, f);
    KeyForShape(run, t', g);
    DataPartsGood(run);
    hide KeyFor, StoredKey;
    UploadInjective(DataParts(run.p, run.id, run.mode), t.keyspace, t.folder, f, t'.keyspace, t'.folder, g);
  }

  /** A file's key and verdict depend on its place only. */
  lemma KeyDepends(run: Run, t: Table, t': Table, f: SnapFile)
    requires t.keyspace == t'.keyspace && t.folder == t'.folder
    ensures KeyFor(run, t, f) == KeyFor(run, t', f)
    ensures Judge(run, t, f) == Judge(run, t', f)
  {
  }

  /** The pool, at the moment the run listed it, held the items with their sizes and digests. */
  ghost predicate ItemsStored(st: Store, items: seq<ManifestObject>) {
    forall o :: o in items ==> o.path in st && st[o.path].size == o.size && st[o.path].md5 == o.md5
  }

  ghost predicate ReadyRun(run: Run, items: seq<ManifestObject>, tables: seq<Table>, before: Store) {
    && GoodRun(run) && IndexedFrom(run, items) && ItemsStored(before, items)
    && OneFilePerPlace(tables) && (forall t :: t in tables ==> GoodTableFiles(t))
  }

  /** Every file of the snapshot is stored at its key with its size right after the uploads. */
  lemma FileStored(run: Run, items: seq<ManifestObject>, tables: seq<Table>, before: Store, now: nat, t: Table, f: SnapFile)
    requires ReadyRun(run, items, tables, before) && t in tables && f in t.files && Eligible(f)
    ensures var k, st := KeyFor(run, t, f), PutAll(before, UploadsOf(run, tables), now);
            && k in st && st[k].size == f.size
            && (ToUpload(run, t, f) ==> st[k] == Blob(f.size, now, f.md5, Raw(f.data)))
            && (!ToUpload(run, t, f) ==> k in before && st[k] == before[k])
            && (Judge(run, t, f).Present? ==> st[k].md5 == Judge(run, t, f).obj.md5)
  {
    hide *;
    var k, uploads := KeyFor(run, t, f), UploadsOf(run, tables);
    ReadyParts(run, items, tables, before);
    FileIsGood(t, f);
    UploadsMember(run, tables);
    JudgedPresent(run, items, t, f);
    EligibleVerdict(run, t, f);
    OneVerdict(run, t, f);
    if ToUpload(run, t, f) {
      var u := UploadFor(run, t, f);
      UploadStored(run, t, f, now);
      forall v | v in uploads && v.key == u.key ensures v == u { SameKeySameUpload(run, tables, v, u); }
      PutAllHits(before, uploads, now, u);
    } else {
      forall u | u in uploads ensures u.key != k {
        if u.key == k {
          NotUploaded(run, tables, t, f, u);
        }
      }
      PutAllMisses(before, uploads, now, k);
      StoredItem(before, items, Judge(run, t, f).obj);
    }
  }

  lemma ReadyParts(run: Run, items: seq<ManifestObject>, tables: seq<Table>, before: Store)
    requires ReadyRun(run, items, tables, before)
    ensures GoodRun(run) && IndexedFrom(run, items) && ItemsStored(before, items)
    ensures OneFilePerPlace(tables) && forall t :: t in tables ==> GoodTableFiles(t)
  {
    hide GoodRun, IndexedFrom, ItemsStored, OneFilePerPlace, GoodTableFiles;
  }

  lemma OneVerdict(run: Run, t: Table, f: SnapFile)
    ensures ToUpload(run, t, f) ==> !Judge(run, t, f).Present?
  {
    hide Judge;
  }

  lemma UploadStored(run: Run, t: Table, f: SnapFile, now: nat)
    ensures var u := UploadFor(run, t, f); u.key == KeyFor(run, t, f) && BlobOf(u, now) == Blob(f.size, now, f.md5, Raw(f.data))
  {
    hide KeyFor;
  }

  lemma StoredItem(st: Store, items: seq<ManifestObject>, o: ManifestObject)
    requires ItemsStored(st, items) && o in items
    ensures o.path in st && st[o.path].size == o.size && st[o.path].md5 == o.md5
  {
  }

  lemma NotUploaded(run: Run, tables: seq<Table>, t: Table, f: SnapFile, u: Upload)
    requires GoodRun(run) && OneFilePerPlace(tables) && t in tables && f in t.files && GoodTableFiles(t)
    requires UploadedBy(run, tables, u) && u.key == KeyFor(run, t, f)
    ensures ToUpload(run, t, f)
  {
    var t', g :| t' in tables && UploadOf(run, t', g, u);
    SamePlace(run, t, f, t', g);
    assert f == g;
    KeyDepends(run, t, t', f);
  }

  // ---------------------------------------------------------------- manifest objects and files

  /** An object of the manifest is the record of one eligible file. */
  ghost predicate Records(run: Run, tables: seq<Table>, o: ManifestObject, t: Table, f: SnapFile) {
    && t in tables && f in t.files && Eligible(f)
    && o.path == KeyFor(run, t, f) && o.size == f.size
    && (ToUpload(run, t, f) ==> o.md5 == f.md5)
    && (Judge(run, t, f).Present? ==> o.md5 == Judge(run, t, f).obj.md5)
  }

  lemma {:induction false} ObjectsForMember(run: Run, t: Table, files: seq<SnapFile>)
    ensures forall o :: o in ObjectsFor(run, t, files) <==> exists f :: f in files && o == ObjectFor(run, t, f)
  {
    hide KeyFor;
    if files != [] {
      var rest, last := files[..|files| - 1], files[|files| - 1];
      ObjectsForMember(run, t, rest);
      forall o ensures o in ObjectsFor(run, t, files) <==> exists f :: f in files && o == ObjectFor(run, t, f) {
        if f :| f in files && o == ObjectFor(run, t, f) {
          assert f in rest || f == last;
        }
        if o in ObjectsFor(run, t, rest) {
          var f :| f in rest && o == ObjectFor(run, t, f);
          assert f in files;
        } else if o == ObjectFor(run, t, last) {
          assert last in files;
        }
      }
    }
  }

  lemma {:induction false} AlreadyMember(run: Run, t: Table, n: nat)
    requires n <= |t.files|
    ensures forall o :: o in CheckUpTo(run, t, n).already <==> exists f :: f in t.files[..n] && Judge(run, t, f) == Present(o)
  {
    hide Judge, CheckUpTo;
    if n == 0 {
      NothingChecked(run, t);
    } else {
      AlreadyMember(run, t, n - 1);
      var f := t.files[n - 1];
      OneMoreFile(t.files, n);
      forall o ensures o in CheckUpTo(run, t, n).already <==> exists g :: g in t.files[..n] && Judge(run, t, g) == Present(o) {
        CheckedOneMore(run, t, n, o);
      }
    }
  }

  lemma NothingChecked(run: Run, t: Table)
    ensures CheckUpTo(run, t, 0).already == []
  {
  }

  lemma OneMoreFile(files: seq<SnapFile>, n: nat)
    requires 0 < n <= |files|
    ensures forall g :: g in files[..n] <==> g in files[..n - 1] || g == files[n - 1]
  {
    assert files[..n] == files[..n - 1] + [files[n - 1]];
  }

  lemma CheckedOneMore(run: Run, t: Table, n: nat, o: ManifestObject)
    requires 0 < n <= |t.files|
    ensures o in CheckUpTo(run, t, n).already <==> o in CheckUpTo(run, t, n - 1).already || Judge(run, t, t.files[n - 1]) == Present(o)
  {
    hide Judge;
  }

  lemma SectionMembers(run: Run, items: seq<ManifestObject>, t: Table, o: ManifestObject)
    requires GoodRun(run) && IndexedFrom(run, items) && GoodTableFiles(t)
    ensures o in SectionFor(run, t).objects
            <==> || (exists f :: f in t.files && ToUpload(run, t, f) && o == ObjectFor(run, t, f))
                 || (run.mode.Differential? && exists f :: f in t.files && Judge(run, t, f) == Present(o))
  {
    var c := Check(run, t);
    var files := c.needsBackup + c.needsReupload;
    SectionNames(run, items, t);
    CheckedFiles(run, t, |t.files|);
    AlreadyMember(run, t, |t.files|);
    assert t.files[..|t.files|] == t.files;
    assert SectionFor(run, t).objects == ObjectsFor(run, t, files) + if run.mode.Differential? then c.already else [];
    ObjectsForMember(run, t, files);
    hide SectionFor, CheckUpTo, ObjectsFor, ObjectFor, IndexedFrom, GoodRun, ToUpload, Judge, GoodTableFiles;
    if f :| f in t.files && ToUpload(run, t, f) && o == ObjectFor(run, t, f) {
      assert f in files;
    }
    if o in ObjectsFor(run, t, files) {
      var f :| f in files && o == ObjectFor(run, t, f);
      assert f in t.files && ToUpload(run, t, f);
    }
  }

  lemma UploadRecorded(run: Run, items: seq<ManifestObject>, tables: seq<Table>, t: Table, f: SnapFile)
    requires GoodRun(run) && IndexedFrom(run, items) && t in tables && GoodTableFiles(t) && f in t.files && ToUpload(run, t, f)
    ensures Records(run, tables, ObjectFor(run, t, f), t, f)
  {
    JudgedPresent(run, items, t, f);
    hide Judge, KeyFor, GoodRun, IndexedFrom;
  }

  lemma PresentRecorded(run: Run, items: seq<ManifestObject>, tables: seq<Table>, t: Table, f: SnapFile)
    requires GoodRun(run) && IndexedFrom(run, items) && t in tables && GoodTableFiles(t) && f in t.files && Judge(run, t, f).Present?
    ensures run.mode.Differential? && Records(run, tables, Judge(run, t, f).obj, t, f)
  {
    JudgedPresent(run, items, t, f);
    hide Judge, KeyFor, GoodRun, IndexedFrom;
  }

  lemma EligibleVerdict(run: Run, t: Table, f: SnapFile)
    ensures Eligible(f) ==> ToUpload(run, t, f) || Judge(run, t, f).Present?
  {
    hide SanitizeLocal, Find, LocalPath;
  }

  /** A section's objects record the eligible files of its table, and all of them. */
  lemma SectionRecords(run: Run, items: seq<ManifestObject>, tables: seq<Table>, t: Table)
    requires GoodRun(run) && IndexedFrom(run, items) && t in tables && GoodTableFiles(t)
    ensures forall o :: o in SectionFor(run, t).objects ==> exists f :: Records(run, tables, o, t, f)
    ensures forall f :: f in t.files && Eligible(f) ==> exists o :: o in SectionFor(run, t).objects && Records(run, tables, o, t, f)
  {
    hide *;
    forall o | o in SectionFor(run, t).objects ensures exists f :: Records(run, tables, o, t, f) {
      SectionMembers(run, items, t, o);
      if f :| f in t.files && ToUpload(run, t, f) && o == ObjectFor(run, t, f) {
        UploadRecorded(run, items, tables, t, f);
      } else {
        var f :| f in t.files && Judge(run, t, f) == Present(o);
        PresentRecorded(run, items, tables, t, f);
      }
    }
    forall f | f in t.files && Eligible(f) ensures exists o :: o in SectionFor(run, t).objects && Records(run, tables, o, t, f) {
      EligibleVerdict(run, t, f);
      if ToUpload(run, t, f) {
        UploadRecorded(run, items, tables, t, f);
        SectionMembers(run, items, t, ObjectFor(run, t, f));
      } else {
        PresentRecorded(run, items, tables, t, f);
        SectionMembers(run, items, t, Judge(run, t, f).obj);
      }
    }
  }

  lemma {:induction false} SectionsAre(run: Run, tables: seq<Table>)
    ensures forall sec :: sec in ManifestOf(run, tables) <==> exists t :: t in tables && sec == SectionFor(run, t)
  {
    hide SectionFor;
    if tables != [] {
      var rest, last := tables[..|tables| - 1], tables[|tables| - 1];
      SectionsAre(run, rest);
      forall sec ensures sec in ManifestOf(run, tables) <==> exists t :: t in tables && sec == SectionFor(run, t) {
        if sec in ManifestOf(run, rest) {
          var t :| t in rest && sec == SectionFor(run, t);
          assert t in tables;
        } else if sec == SectionFor(run, last) {
          assert last in tables;
        }
        if t :| t in tables && sec == SectionFor(run, t) {
          assert t in rest || t == last;
        }
      }
    }
  }

  /** The manifest's checked objects are exactly the records of the eligible, checked files. */
  lemma ManifestRecords(run: Run, items: seq<ManifestObject>, tables: seq<Table>)
    requires GoodRun(run) && IndexedFrom(run, items) && forall t :: t in tables ==> GoodTableFiles(t)
    ensures forall o :: o in ObjectsIn(ManifestOf(run, tables)) ==> !Ignored(o.path) && exists t, f :: Records(run, tables, o, t, f)
    ensures forall t, f :: t in tables && f in t.files && Eligible(f) && !Ignored(KeyFor(run, t, f)) ==>
              exists o :: o in ObjectsIn(ManifestOf(run, tables)) && Records(run, tables, o, t, f)
  {
    hide *;
    SectionsAre(run, tables);
    var m := ManifestOf(run, tables);
    ObjectsInParts(m);
    forall o | o in ObjectsIn(m) ensures exists t, f :: Records(run, tables, o, t, f) {
      var sec :| sec in m && o in sec.objects;
      var t :| t in tables && sec == SectionFor(run, t);
      SectionRecords(run, items, tables, t);
      var f :| Records(run, tables, o, t, f);
    }
    forall t, f | t in tables && f in t.files && Eligible(f) && !Ignored(KeyFor(run, t, f))
      ensures exists o :: o in ObjectsIn(m) && Records(run, tables, o, t, f)
    {
      SectionRecords(run, items, tables, t);
      var o :| o in SectionFor(run, t).objects && Records(run, tables, o, t, f);
      RecordsUse(run, tables, o, t, f);
      assert SectionFor(run, t) in m;
    }
  }

  lemma ObjectsInParts(m: Manifest)
    ensures forall o :: o in ObjectsIn(m) <==> !Ignored(o.path) && exists sec :: sec in m && o in sec.objects
  {
    hide Ignored;
  }

  // ---------------------------------------------------------------- every fresh backup verifies

  /** The state do_backup leaves behind, as far as the data folder and the manifest are concerned. */
  ghost predicate FreshBackup(run: Run, tables: seq<Table>, before: Store, now: nat, st: Store) {
    var uploaded := PutAll(before, UploadsOf(run, tables), now);
    var key := MetaKey(run.p, run.id, "manifest.json");
    && key in st && st[key].body == Doc(ManifestOf(run, tables))
    && (forall k :: DataPath(run.p, run.id, run.mode) <= k ==> (k in st <==> k in uploaded) && (k in st ==> st[k] == uploaded[k]))
  }

  /** Nothing was stored under a full backup's data folder before. */
  ghost predicate NewName(run: Run, before: Store) {
    run.mode.Full? ==> forall k :: k in before ==> !(DataPath(run.p, run.id, run.mode) <= k)
  }

  /** An empty file that the verification looks for. */
  ghost predicate EmptyFile(run: Run, tables: seq<Table>, path: string) {
    exists t, f :: t in tables && f in t.files && Eligible(f) && f.size == 0 && path == KeyFor(run, t, f) && !Ignored(path)
  }

  lemma KeyUnderData(run: Run, t: Table, f: SnapFile)
    requires GoodRun(run) && GoodFile(f) && Component(t.keyspace) && GoodTable(t.folder)
    ensures DataPath(run.p, run.id, run.mode) <= KeyFor(run, t, f)
  {
    KeyForShape(run, t, f);
    hide KeyFor, Relative, DataPath;
  }

  /** A recorded file is found and matches, unless it is empty. */
  lemma RecordVerifies(run: Run, items: seq<ManifestObject>, tables: seq<Table>, before: Store, now: nat, st: Store, md5Checks: bool,
                       o: ManifestObject, t: Table, f: SnapFile)
    requires ReadyRun(run, items, tables, before) && FreshBackup(run, tables, before, now, st)
    requires Records(run, tables, o, t, f) && !Ignored(o.path)
    ensures ProblemOf(st, ListedData(st, DataPath(run.p, run.id, run.mode)), o, md5Checks) == if f.size == 0 then {Missing(o.path)} else {}
  {
    hide *;
    ReadyUse(run, items, tables, before);
    RecordsFull(run, tables, o, t, f);
    FileIsGood(t, f);
    FileStored(run, items, tables, before, now, t, f);
    KeyUnderData(run, t, f);
    JudgedPresent(run, items, t, f);
    FreshKeeps(run, tables, before, now, st, o.path);
    EligibleVerdict(run, t, f);
    var d := DataPath(run.p, run.id, run.mode);
    FoundMatches(st, d, o, md5Checks);
  }

  lemma FileIsGood(t: Table, f: SnapFile)
    requires GoodTableFiles(t) && f in t.files
    ensures GoodFile(f) && Component(t.keyspace) && GoodTable(t.folder)
  {
    hide GoodFile, GoodTable;
  }

  lemma RecordsFull(run: Run, tables: seq<Table>, o: ManifestObject, t: Table, f: SnapFile)
    requires Records(run, tables, o, t, f)
    ensures t in tables && f in t.files && Eligible(f) && o.path == KeyFor(run, t, f) && o.size == f.size
    ensures (ToUpload(run, t, f) ==> o.md5 == f.md5) && (Judge(run, t, f).Present? ==> o.md5 == Judge(run, t, f).obj.md5)
  {
    hide KeyFor, Judge, Eligible, ToUpload;
  }

  lemma FreshKeeps(run: Run, tables: seq<Table>, before: Store, now: nat, st: Store, k: string)
    requires FreshBackup(run, tables, before, now, st) && DataPath(run.p, run.id, run.mode) <= k
    ensures var uploaded := PutAll(before, UploadsOf(run, tables), now); (k in st <==> k in uploaded) && (k in st ==> st[k] == uploaded[k])
  {
    hide PutAll, UploadsOf, ManifestOf, MetaKey, DataPath;
  }

  lemma FoundMatches(st: Store, d: string, o: ManifestObject, md5Checks: bool)
    requires d <= o.path && o.path in st && st[o.path].size == o.size && st[o.path].md5 == o.md5 && !Ignored(o.path)
    ensures ProblemOf(st, ListedData(st, d), o, md5Checks) == if o.size == 0 then {Missing(o.path)} else {}
  {
    hide Contains;
  }

  lemma {:induction false} PutAllFrom(st: Store, uploads: seq<Upload>, now: nat, k: string)
    requires k in PutAll(st, uploads, now)
    ensures k in st || exists u :: u in uploads && u.key == k
  {
    if uploads != [] {
      var rest, last := uploads[..|uploads| - 1], uploads[|uploads| - 1];
      assert last in uploads;
      if last.key != k {
        PutAllFrom(st, rest, now, k);
        if u :| u in rest && u.key == k {
          assert u in uploads;
        }
      }
    }
  }

  lemma FreshListed(run: Run, tables: seq<Table>, before: Store, now: nat, st: Store, k: string)
    requires run.mode.Full? && NewName(run, before) && FreshBackup(run, tables, before, now, st)
    requires k in ListedData(st, DataPath(run.p, run.id, run.mode))
    ensures !Ignored(k) && exists u :: u in UploadsOf(run, tables) && u.key == k
  {
    hide UploadsOf, PutAll, ManifestOf, MetaKey, DataPath, Ignored;
    PutAllFrom(before, UploadsOf(run, tables), now, k);
  }

  lemma ReadyUse(run: Run, items: seq<ManifestObject>, tables: seq<Table>, before: Store)
    requires ReadyRun(run, items, tables, before)
    ensures GoodRun(run) && IndexedFrom(run, items) && forall t :: t in tables ==> GoodTableFiles(t)
  {
    hide GoodRun, IndexedFrom, GoodTableFiles, OneFilePerPlace, ItemsStored;
  }

  lemma UploadedWitness(run: Run, tables: seq<Table>, u: Upload) returns (t: Table, f: SnapFile)
    requires UploadedBy(run, tables, u)
    ensures t in tables && GoodTableFiles(t) && f in t.files && ToUpload(run, t, f) && u.key == KeyFor(run, t, f)
  {
    hide GoodTableFiles, ToUpload, KeyFor;
    t, f :| t in tables && UploadOf(run, t, f, u);
  }

  lemma RecordsUse(run: Run, tables: seq<Table>, o: ManifestObject, t: Table, f: SnapFile)
    requires Records(run, tables, o, t, f)
    ensures t in tables && f in t.files && Eligible(f) && o.path == KeyFor(run, t, f)
  {
    hide KeyFor, Judge, Eligible;
  }

  lemma EmptyFileWitness(run: Run, tables: seq<Table>, path: string) returns (t: Table, f: SnapFile)
    requires EmptyFile(run, tables, path)
    ensures t in tables && f in t.files && Eligible(f) && f.size == 0 && path == KeyFor(run, t, f) && !Ignored(path)
  {
    hide KeyFor, Eligible, Ignored;
    t, f :| t in tables && f in t.files && Eligible(f) && f.size == 0 && path == KeyFor(run, t, f) && !Ignored(path);
  }

  lemma EmptyFileFrom(run: Run, tables: seq<Table>, o: ManifestObject, t: Table, f: SnapFile)
    requires Records(run, tables, o, t, f) && f.size == 0 && !Ignored(o.path)
    ensures EmptyFile(run, tables, o.path)
  {
    hide KeyFor, Eligible, Ignored, Judge;
  }

  /** In full mode every listed object is recorded in the manifest. */
  lemma NothingExtra(run: Run, items: seq<ManifestObject>, tables: seq<Table>, before: Store, now: nat, st: Store, k: string)
    requires ReadyRun(run, items, tables, before) && run.mode.Full? && NewName(run, before) && FreshBackup(run, tables, before, now, st)
    requires k in ListedData(st, DataPath(run.p, run.id, run.mode))
    ensures exists o :: o in ObjectsIn(ManifestOf(run, tables)) && o.path == k
  {
    hide *;
    FreshListed(run, tables, before, now, st, k);
    ReadyUse(run, items, tables, before);
    UploadsMember(run, tables);
    var u :| u in UploadsOf(run, tables) && u.key == k;
    var t, f := UploadedWitness(run, tables, u);
    UploadRecorded(run, items, tables, t, f);
    RecordsUse(run, tables, ObjectFor(run, t, f), t, f);
    ManifestRecords(run, items, tables);
    var o :| o in ObjectsIn(ManifestOf(run, tables)) && Records(run, tables, o, t, f);
    RecordsUse(run, tables, o, t, f);
  }

  lemma ObjectVerifies(run: Run, items: seq<ManifestObject>, tables: seq<Table>, before: Store, now: nat, st: Store, md5Checks: bool, o: ManifestObject)
    requires ReadyRun(run, items, tables, before) && FreshBackup(run, tables, before, now, st)
    requires o in ObjectsIn(ManifestOf(run, tables))
    ensures forall x :: x in ProblemOf(st, ListedData(st, DataPath(run.p, run.id, run.mode)), o, md5Checks)
                        ==> x.Missing? && EmptyFile(run, tables, x.path)
  {
    hide *;
    ReadyUse(run, items, tables, before);
    ManifestRecords(run, items, tables);
    var t, f :| Records(run, tables, o, t, f);
    RecordVerifies(run, items, tables, before, now, st, md5Checks, o, t, f);
    if f.size == 0 {
      EmptyFileFrom(run, tables, o, t, f);
    }
  }

  lemma EmptyReported(run: Run, items: seq<ManifestObject>, tables: seq<Table>, before: Store, now: nat, st: Store, md5Checks: bool, path: string)
    requires ReadyRun(run, items, tables, before) && FreshBackup(run, tables, before, now, st) && EmptyFile(run, tables, path)
    ensures exists o :: o in ObjectsIn(ManifestOf(run, tables))
                        && Missing(path) in ProblemOf(st, ListedData(st, DataPath(run.p, run.id, run.mode)), o, md5Checks)
  {
    hide *;
    ReadyUse(run, items, tables, before);
    ManifestRecords(run, items, tables);
    var t, f := EmptyFileWitness(run, tables, path);
    var o :| o in ObjectsIn(ManifestOf(run, tables)) && Records(run, tables, o, t, f);
    RecordsUse(run, tables, o, t, f);
    RecordVerifies(run, items, tables, before, now, st, md5Checks, o, t, f);
  }

  lemma ValidateUnfolds(st: Store, p: string, id: BackupId, mode: Mode, md5Checks: bool, m: Manifest, x: Problem)
    requires var key := MetaKey(p, id, "manifest.json"); key in st && st[key].body == Doc(m)
    ensures var listed := ListedData(st, DataPath(p, id, mode));
            x in ValidateManifest(st, p, id, mode, md5Checks)
            <==> || (exists o :: o in ObjectsIn(m) && x in ProblemOf(st, listed, o, md5Checks))
                 || (mode.Full? && x.Extra? && x.path in listed && !(exists o :: o in ObjectsIn(m) && o.path == x.path))
  {
    hide ListedData, ObjectsIn, ProblemOf, DataPath, MetaKey;
  }

  lemma FreshHasManifest(run: Run, tables: seq<Table>, before: Store, now: nat, st: Store)
    requires FreshBackup(run, tables, before, now, st)
    ensures var key := MetaKey(run.p, run.id, "manifest.json"); key in st && st[key].body == Doc(ManifestOf(run, tables))
  {
    hide PutAll, UploadsOf, ManifestOf, MetaKey, DataPath;
  }

  /**
   Verifying a backup right after it was taken reports exactly its empty files as missing: nothing
   else is missing or different, and in full mode nothing is left over.
   */
  lemma FreshBackupVerifies(run: Run, items: seq<ManifestObject>, tables: seq<Table>, before: Store, now: nat, st: Store, md5Checks: bool)
    requires ReadyRun(run, items, tables, before) && NewName(run, before) && FreshBackup(run, tables, before, now, st)
    ensures forall x :: x in ValidateManifest(st, run.p, run.id, run.mode, md5Checks)
                        <==> x.Missing? && EmptyFile(run, tables, x.path)
  {
    hide *;
    FreshHasManifest(run, tables, before, now, st);
    var m := ManifestOf(run, tables);
    var listed := ListedData(st, DataPath(run.p, run.id, run.mode));
    forall x ensures x in ValidateManifest(st, run.p, run.id, run.mode, md5Checks) <==> x.Missing? && EmptyFile(run, tables, x.path) {
      ValidateUnfolds(st, run.p, run.id, run.mode, md5Checks, m, x);
      if o :| o in ObjectsIn(m) && x in ProblemOf(st, listed, o, md5Checks) {
        ObjectVerifies(run, items, tables, before, now, st, md5Checks, o);
      }
      if x.Missing? && EmptyFile(run, tables, x.path) {
        EmptyReported(run, items, tables, before, now, st, md5Checks, x.path);
      }
      if run.mode.Full? && x.Extra? && x.path in listed {
        NothingExtra(run, items, tables, before, now, st, x.path);
      }
    }
  }

  /** No error at all, exactly when no file that is looked for is empty. */
  lemma FreshBackupClean(run: Run, items: seq<ManifestObject>, tables: seq<Table>, before: Store, now: nat, st: Store, md5Checks: bool)
    requires ReadyRun(run, items, tables, before) && NewName(run, before) && FreshBackup(run, tables, before, now, st)
    ensures ValidateManifest(st, run.p, run.id, run.mode, md5Checks) == {} <==> forall path :: !EmptyFile(run, tables, path)
  {
    hide *;
    FreshBackupVerifies(run, items, tables, before, now, st, md5Checks);
    var problems := ValidateManifest(st, run.p, run.id, run.mode, md5Checks);
    if problems == {} {
      forall path ensures !EmptyFile(run, tables, path) {
        assert Missing(path) !in problems;
      }
    }
  }
}
