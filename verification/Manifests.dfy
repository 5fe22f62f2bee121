/**
 What a manifest describes. A differential manifest and a full manifest of the same snapshot
 name the same files with the same sizes, whatever the pool held and however it was listed.
 */
module Manifests {
  import opened Text
  import opened IndexNames
  import opened ObjectStorage
  import opened Layout
  import opened TableKeys
  import opened PoolIndex
  import opened Snapshots

  // ---------------------------------------------------------------- hypotheses

  /** The components of a backup's data folder. */
  function DataParts(p: string, id: BackupId, mode: Mode): seq<string> {
    (if p == "" then [] else [p[..|p| - 1]]) + [id.fqdn] + (if mode.Full? then [id.name] else []) + ["data"]
  }

  predicate SimplePrefix(p: string) { p == "" || (|p| > 1 && p[|p| - 1] == '/' && Component(p[..|p| - 1])) }

  predicate GoodTableFiles(t: Table) {
    Component(t.keyspace) && GoodTable(t.folder) && forall f :: f in t.files ==> GoodFile(f)
  }

  /** Ordinary names, and a prefix that is not the host itself. */
  predicate GoodRun(run: Run) {
    && SimplePrefix(run.p) && Component(run.id.fqdn) && Component(run.id.name)
    && run.p != run.id.fqdn + "/"
    && |run.root| >= 1 && GoodTag(run.tag)
  }

  /** An object that some earlier upload put into the pool. */
  ghost predicate PoolObject(p: string, h: string, path: string) {
    exists ks, t, f :: PoolFile(p, h, path, ks, t, f)
  }

  predicate PoolFile(p: string, h: string, path: string, ks: string, t: string, f: SnapFile) {
    Component(ks) && GoodTable(t) && GoodFile(f)
    && path == StoredKey(DataParts(p, BackupId(h, ""), Layout.Differential), ks, t, f.sub, f.name)
  }

  /** The run's index was built from a listing of the host's pool, in any order. */
  ghost predicate IndexedFrom(run: Run, items: seq<ManifestObject>) {
    && run.index == IndexOf(items)
    && forall o :: o in items ==> PoolObject(run.p, run.id.fqdn, o.path)
  }

  // ---------------------------------------------------------------- paths

  function TailParts(id: BackupId, mode: Mode): seq<string> {
    if mode.Full? then [id.fqdn, id.name, "data"] else [id.fqdn, "data"]
  }

  lemma TailJoined(p: string, id: BackupId, mode: Mode)
    ensures p + Join(TailParts(id, mode), '/') == DataPath(p, id, mode)
  {
    assert "/data" == "/" + "data";
    if mode.Full? {
      JoinThree(id.fqdn, id.name, "data");
      hide Join;
    } else {
      assert [id.fqdn, "data"][1..] == ["data"];
      assert Join(["data"], '/') == "data";
    }
  }

  lemma DataPathJoined(p: string, id: BackupId, mode: Mode)
    requires SimplePrefix(p)
    ensures Join(DataParts(p, id, mode), '/') == DataPath(p, id, mode)
  {
    var tail := TailParts(id, mode);
    TailJoined(p, id, mode);
    if p == "" {
      assert DataParts(p, id, mode) == tail;
      hide *;
      assert p + Join(tail, '/') == Join(tail, '/');
    } else {
      assert DataParts(p, id, mode) == [p[..|p| - 1]] + tail;
      assert Join([p[..|p| - 1]], '/') == p[..|p| - 1];
      assert tail != [];
      JoinConcat([p[..|p| - 1]], tail, '/');
      assert p == p[..|p| - 1] + ['/'];
      hide *;
    }
  }

  lemma DataPartsGood(run: Run)
    requires GoodRun(run)
    ensures AllComponents(DataParts(run.p, run.id, run.mode))
    ensures AllComponents(DataParts(run.p, BackupId(run.id.fqdn, ""), Layout.Differential))
  {
    assert Component("data");
  }

  /** Where a file of the snapshot goes. */
  lemma KeyForShape(run: Run, t: Table, f: SnapFile)
    requires GoodRun(run) && GoodFile(f) && Component(t.keyspace) && GoodTable(t.folder)
    ensures KeyFor(run, t, f) == StoredKey(DataParts(run.p, run.id, run.mode), t.keyspace, t.folder, f.sub, f.name)
    ensures KeyFor(run, t, f) == DataPath(run.p, run.id, run.mode) + "/" + Relative(t.keyspace, t.folder, f.sub, f.name)
  {
    DataPathJoined(run.p, run.id, run.mode);
    DataPartsGood(run);
    UploadKeyShape(DataPath(run.p, run.id, run.mode), run.root, t.keyspace, t.folder, run.tag, f);
    StoredKeyIsRelative(DataParts(run.p, run.id, run.mode), t.keyspace, t.folder, f.sub, f.name);
  }

  lemma NodePathsKeepNames(run: Run, path: string, rest: string)
    requires GoodRun(run) && path == run.p + run.id.fqdn + "/" + rest
    ensures ManifestName(run, path) == path
  {
    UrlToPathIdentity(run.p, run.id.fqdn, rest);
  }

  /** Manifest paths of uploaded and of kept objects are their store names. */
  lemma UploadedNameStays(run: Run, t: Table, f: SnapFile)
    requires GoodRun(run) && GoodFile(f) && Component(t.keyspace) && GoodTable(t.folder)
    ensures ManifestName(run, KeyFor(run, t, f)) == KeyFor(run, t, f)
  {
    hide *;
    KeyForShape(run, t, f);
    var rel := Relative(t.keyspace, t.folder, f.sub, f.name);
    var rest := DataBelowHost(run.p, run.id, run.mode, rel);
    NodePathsKeepNames(run, KeyFor(run, t, f), rest);
  }

  lemma DataBelowHost(p: string, id: BackupId, mode: Mode, rel: string) returns (rest: string)
    ensures DataPath(p, id, mode) + "/" + rel == p + id.fqdn + "/" + rest
  {
    rest := (if mode.Full? then id.name + "/data" else "data") + "/" + rel;
    assert "/data" == "/" + "data";
  }

  lemma PoolObjectShape(p: string, h: string, path: string) returns (rest: string)
    requires SimplePrefix(p) && PoolObject(p, h, path)
    ensures path == PoolPath(p, h) + "/" + rest
  {
    var ks, t, f :| PoolFile(p, h, path, ks, t, f);
    rest := Relative(ks, t, f.sub, f.name);
    StoredKeyIsRelative(DataParts(p, BackupId(h, ""), Layout.Differential), ks, t, f.sub, f.name);
    DataPathJoined(p, BackupId(h, ""), Layout.Differential);
  }

  lemma KeptNameStays(run: Run, path: string)
    requires GoodRun(run) && PoolObject(run.p, run.id.fqdn, path)
    ensures ManifestName(run, path) == path
  {
    var rest := PoolObjectShape(run.p, run.id.fqdn, path);
    hide PoolObject, ManifestName;
    assert PoolPath(run.p, run.id.fqdn) + "/" + rest == run.p + run.id.fqdn + "/" + ("data/" + rest) by {
      assert "/data" + "/" == "/" + "data/";
    }
    NodePathsKeepNames(run, path, "data/" + rest);
  }

  // ---------------------------------------------------------------- kept objects are the file's own

  /** An object found for a file is the one that file would be uploaded to. */
  lemma FoundIsOwn(run: Run, items: seq<ManifestObject>, t: Table, f: SnapFile, o: ManifestObject)
    requires GoodRun(run) && run.mode.Differential? && IndexedFrom(run, items)
    requires GoodFile(f) && Component(t.keyspace) && GoodTable(t.folder)
    requires Find(run.index, t.keyspace, TableKey(t.folder, f.sub), f.name) == Some(o)
    ensures o in items && o.path == KeyFor(run, t, f)
  {
    IndexSound(items, t.keyspace, TableKey(t.folder, f.sub), f.name);
    KeyForShape(run, t, f);
    DataPartsGood(run);
    hide Find, IndexOf, KeyFor, TableKey, StoredKey;
    var ks, u, g :| PoolFile(run.p, run.id.fqdn, o.path, ks, u, g);
    var pool := DataParts(run.p, BackupId(run.id.fqdn, ""), Layout.Differential);
    assert pool == DataParts(run.p, run.id, run.mode);
    StoredKeyReads(pool, ks, u, g.sub, g.name);
    TableKeyInjective(u, g.sub, t.folder, f.sub);
  }

  lemma JudgedPresent(run: Run, items: seq<ManifestObject>, t: Table, f: SnapFile)
    requires GoodRun(run) && IndexedFrom(run, items)
    requires GoodFile(f) && Component(t.keyspace) && GoodTable(t.folder)
    ensures Judge(run, t, f).Skip? <==> !Eligible(f)
    ensures run.mode.Full? && Eligible(f) ==> Judge(run, t, f).New?
    ensures Judge(run, t, f).Present? ==>
              var o := Judge(run, t, f).obj; o in items && o.path == KeyFor(run, t, f) && o.size == f.size
  {
    if run.mode.Differential? {
      DataPartsGood(run);
      LocalAndStoredKeysAgree(DataParts(run.p, run.id, run.mode), run.root, t.keyspace, t.folder, run.tag, f);
      hide SanitizeLocal, LocalPath, Find, IndexedFrom, KeyFor;
      if Judge(run, t, f).Present? {
        FoundIsOwn(run, items, t, f, Judge(run, t, f).obj);
      }
    }
  }

  // ---------------------------------------------------------------- the manifest, as paths and sizes

  type Entry = (string, nat)

  function EntryOf(o: ManifestObject): Entry { (o.path, o.size) }

  function Entries(objects: seq<ManifestObject>): (r: seq<Entry>)
    ensures |r| == |objects|
  {
    if objects == [] then [] else Entries(objects[..|objects| - 1]) + [EntryOf(objects[|objects| - 1])]
  }

  lemma {:induction false} EntriesAppend(a: seq<ManifestObject>, b: seq<ManifestObject>)
    ensures Entries(a + b) == Entries(a) + Entries(b)
  {
    if b == [] {
      assert a + b == a;
    } else {
      assert (a + b)[..|a + b| - 1] == a + b[..|b| - 1];
      EntriesAppend(a, b[..|b| - 1]);
    }
  }

  /** What the section of a table should list: each eligible file once, at its key, with its size. */
  function Described(run: Run, t: Table): seq<Entry> { Entries(ObjectsFor(run, t, EligibleFiles(t.files))) }

  lemma {:induction false} ObjectsForAppend(run: Run, t: Table, a: seq<SnapFile>, b: seq<SnapFile>)
    ensures ObjectsFor(run, t, a + b) == ObjectsFor(run, t, a) + ObjectsFor(run, t, b)
  {
    hide ObjectFor;
    if b == [] {
      assert a + b == a;
    } else {
      assert (a + b)[..|a + b| - 1] == a + b[..|b| - 1];
      ObjectsForAppend(run, t, a, b[..|b| - 1]);
    }
  }

  /** The three lists of the check, as manifest entries. */
  function CheckedEntries(run: Run, t: Table, c: Checked): multiset<Entry> {
    multiset(Entries(ObjectsFor(run, t, c.needsBackup)))
    + multiset(Entries(ObjectsFor(run, t, c.needsReupload)))
    + multiset(Entries(c.already))
  }

  lemma EligibleStep(run: Run, t: Table, es: seq<SnapFile>, f: SnapFile)
    ensures multiset(Entries(ObjectsFor(run, t, es + [f]))) == multiset(Entries(ObjectsFor(run, t, es))) + multiset{EntryOf(ObjectFor(run, t, f))}
  {
    hide KeyFor;
    ObjectsForAppend(run, t, es, [f]);
    assert ObjectsFor(run, t, [f]) == [ObjectFor(run, t, f)];
    EntriesAppend(ObjectsFor(run, t, es), [ObjectFor(run, t, f)]);
    assert Entries([ObjectFor(run, t, f)]) == [EntryOf(ObjectFor(run, t, f))];
  }

  lemma AlreadyStep(already: seq<ManifestObject>, o: ManifestObject)
    ensures multiset(Entries(already + [o])) == multiset(Entries(already)) + multiset{EntryOf(o)}
  {
    EntriesAppend(already, [o]);
    assert Entries([o]) == [EntryOf(o)];
  }

  lemma CheckOneEntries(run: Run, t: Table, c: Checked, v: Verdict, f: SnapFile)
    requires v.Present? ==> v.obj.path == KeyFor(run, t, f) && v.obj.size == f.size
    ensures CheckedEntries(run, t, CheckOne(c, v, f))
            == CheckedEntries(run, t, c) + if v.Skip? then multiset{} else multiset{EntryOf(ObjectFor(run, t, f))}
  {
    hide KeyFor, ObjectsFor, Entries;
    match v
    case Skip =>
    case New => EligibleStep(run, t, c.needsBackup, f);
    case Changed => EligibleStep(run, t, c.needsReupload, f);
    case Present(o) => AlreadyStep(c.already, o);
  }

  lemma CheckStep(run: Run, t: Table, n: nat)
    requires 0 < n <= |t.files|
    ensures CheckUpTo(run, t, n) == CheckOne(CheckUpTo(run, t, n - 1), Judge(run, t, t.files[n - 1]), t.files[n - 1])
    ensures EligibleFiles(t.files[..n])
            == EligibleFiles(t.files[..n - 1]) + if Eligible(t.files[n - 1]) then [t.files[n - 1]] else []
  {
    hide Judge, CheckOne, Eligible;
    assert t.files[..n][..n - 1] == t.files[..n - 1] && t.files[..n][n - 1] == t.files[n - 1];
  }

  lemma {:induction false} CheckPartitions(run: Run, items: seq<ManifestObject>, t: Table, n: nat)
    requires GoodRun(run) && IndexedFrom(run, items) && GoodTableFiles(t) && n <= |t.files|
    ensures CheckedEntries(run, t, CheckUpTo(run, t, n)) == multiset(Entries(ObjectsFor(run, t, EligibleFiles(t.files[..n]))))
  {
    if n == 0 {
      assert t.files[..0] == [];
    } else {
      var f := t.files[n - 1];
      assert f in t.files;
      JudgedPresent(run, items, t, f);
      hide *;
      CheckPartitions(run, items, t, n - 1);
      CheckStep(run, t, n);
      var c, v, es := CheckUpTo(run, t, n - 1), Judge(run, t, f), EligibleFiles(t.files[..n - 1]);
      CheckOneEntries(run, t, c, v, f);
      if v.Skip? {
        assert es + [] == es;
      } else {
        EligibleStep(run, t, es, f);
      }
    }
  }

  lemma CheckedNothing(run: Run, t: Table)
    ensures CheckUpTo(run, t, 0) == Checked(EligibleFiles(t.files[..0]), [], [])
  {
    assert t.files[..0] == [];
  }

  /** One more file, in either mode. */
  lemma CheckListsStep(run: Run, items: seq<ManifestObject>, t: Table, n: nat)
    requires GoodRun(run) && IndexedFrom(run, items) && GoodTableFiles(t) && 0 < n <= |t.files|
    ensures run.mode.Full? && CheckUpTo(run, t, n - 1) == Checked(EligibleFiles(t.files[..n - 1]), [], []) ==>
              CheckUpTo(run, t, n) == Checked(EligibleFiles(t.files[..n]), [], [])
    ensures forall o :: o in CheckUpTo(run, t, n).already ==> o in CheckUpTo(run, t, n - 1).already || o in items
  {
    var f := t.files[n - 1];
    assert f in t.files;
    JudgedPresent(run, items, t, f);
    hide Judge, KeyFor, IndexedFrom, GoodTableFiles, GoodRun, GoodFile, EligibleFiles, CheckUpTo;
    CheckStep(run, t, n);
    assert EligibleFiles(t.files[..n - 1]) + [] == EligibleFiles(t.files[..n - 1]);
  }

  lemma {:induction false} CheckLists(run: Run, items: seq<ManifestObject>, t: Table, n: nat)
    requires GoodRun(run) && IndexedFrom(run, items) && GoodTableFiles(t) && n <= |t.files|
    ensures run.mode.Full? ==> CheckUpTo(run, t, n) == Checked(EligibleFiles(t.files[..n]), [], [])
    ensures forall o :: o in CheckUpTo(run, t, n).already ==> o in items
  {
    hide *;
    if n == 0 {
      CheckedNothing(run, t);
    } else {
      CheckLists(run, items, t, n - 1);
      CheckListsStep(run, items, t, n);
    }
  }

  lemma {:induction false} RenamedKeeps(run: Run, objects: seq<ManifestObject>)
    requires forall o :: o in objects ==> ManifestName(run, o.path) == o.path
    ensures Renamed(run, objects) == objects
  {
    hide ManifestName;
    if objects != [] {
      RenamedKeeps(run, objects[..|objects| - 1]);
    }
  }

  lemma {:induction false} ObjectsForNames(run: Run, t: Table, files: seq<SnapFile>)
    requires GoodRun(run) && Component(t.keyspace) && GoodTable(t.folder) && forall f :: f in files ==> GoodFile(f)
    ensures forall o :: o in ObjectsFor(run, t, files) ==> ManifestName(run, o.path) == o.path
  {
    hide ManifestName, KeyFor;
    if files != [] {
      ObjectsForNames(run, t, files[..|files| - 1]);
      UploadedNameStays(run, t, files[|files| - 1]);
    }
  }

  lemma {:induction false} CheckedFiles(run: Run, t: Table, n: nat)
    requires n <= |t.files|
    ensures var c := CheckUpTo(run, t, n);
            forall f :: f in c.needsBackup + c.needsReupload <==> f in t.files[..n] && ToUpload(run, t, f)
  {
    if n > 0 {
      CheckedFiles(run, t, n - 1);
      assert t.files[..n] == t.files[..n - 1] + [t.files[n - 1]];
      hide Judge;
    }
  }

  /** A file the check found missing from the pool or changed. */
  predicate ToUpload(run: Run, t: Table, f: SnapFile) { Judge(run, t, f).New? || Judge(run, t, f).Changed? }

  /** The section's objects keep their store names as manifest paths. */
  lemma SectionNames(run: Run, items: seq<ManifestObject>, t: Table)
    requires GoodRun(run) && IndexedFrom(run, items) && GoodTableFiles(t)
    ensures SectionFor(run, t).objects == SectionObjects(run, t)
    ensures forall o :: o in Check(run, t).already ==> o in items
  {
    var c := Check(run, t);
    CheckLists(run, items, t, |t.files|);
    CheckedFiles(run, t, |t.files|);
    assert t.files[..|t.files|] == t.files;
    assert forall f :: f in c.needsBackup + c.needsReupload ==> GoodFile(f);
    ObjectsForNames(run, t, c.needsBackup + c.needsReupload);
    forall o | o in c.already ensures ManifestName(run, o.path) == o.path { KeptNameStays(run, o.path); }
    hide ManifestName, ObjectsFor, CheckUpTo, PoolObject;
    RenamedKeeps(run, SectionObjects(run, t));
  }

  /** Each section lists every eligible file of its table exactly once, at its key and with its size. */
  lemma SectionDescribes(run: Run, items: seq<ManifestObject>, t: Table)
    requires GoodRun(run) && IndexedFrom(run, items) && GoodTableFiles(t)
    ensures multiset(Entries(SectionFor(run, t).objects)) == multiset(Described(run, t))
    ensures run.mode.Full? ==> Entries(SectionFor(run, t).objects) == Described(run, t)
    ensures |SectionFor(run, t).objects| == |TableUploads(run, t)| + |Check(run, t).already|
  {
    SectionNames(run, items, t);
    CheckPartitions(run, items, t, |t.files|);
    CheckLists(run, items, t, |t.files|);
    assert t.files[..|t.files|] == t.files;
    var c := Check(run, t);
    ObjectsForAppend(run, t, c.needsBackup, c.needsReupload);
    EntriesAppend(ObjectsFor(run, t, c.needsBackup), ObjectsFor(run, t, c.needsReupload));
    EntriesAppend(ObjectsFor(run, t, c.needsBackup + c.needsReupload), c.already);
    UploadsForLength(run, t, c.needsBackup + c.needsReupload);
    if run.mode.Full? {
      assert c.needsBackup + c.needsReupload == c.needsBackup;
      assert SectionObjects(run, t) == ObjectsFor(run, t, c.needsBackup);
    }
    hide ObjectsFor, CheckUpTo, Entries, EligibleFiles, IndexedFrom, UploadsFor, GoodTableFiles;
  }

  lemma {:induction false} RenamedAt(run: Run, objects: seq<ManifestObject>, i: nat)
    requires i < |objects|
    ensures Renamed(run, objects)[i] == objects[i].(path := ManifestName(run, objects[i].path))
  {
    hide ManifestName;
    if i < |objects| - 1 {
      RenamedAt(run, objects[..|objects| - 1], i);
    }
  }

  /**
   A manifest records an object of the host with its size and digest, under its store name unless the prefix is
   the host itself, in which case the prefix is put before it once more.
   */
  lemma RecordedName(run: Run, t: Table, i: nat, rest: string)
    requires SimplePrefix(run.p) && Component(run.id.fqdn) && i < |SectionObjects(run, t)|
    requires SectionObjects(run, t)[i].path == run.p + run.id.fqdn + "/" + rest
    ensures var o, stored := SectionFor(run, t).objects[i], SectionObjects(run, t)[i];
            o == ManifestObject(if run.p == run.id.fqdn + "/" then run.p + stored.path else stored.path, stored.size, stored.md5)
  {
    UrlToPathIdentity(run.p, run.id.fqdn, rest);
    hide SectionObjects, UrlToPath, Renamed;
    RenamedAt(run, SectionObjects(run, t), i);
  }

  lemma {:induction false} ManifestSection(run: Run, tables: seq<Table>, i: nat)
    requires i < |tables|
    ensures ManifestOf(run, tables)[i] == SectionFor(run, tables[i])
  {
    hide SectionFor;
    if i < |tables| - 1 {
      ManifestSection(run, tables[..|tables| - 1], i);
    }
  }

  /** Same root of names: only the data folder differs between a file's full and differential keys. */
  ghost predicate SameFiles(full: Run, diff: Run, t: Table, a: seq<Entry>, b: seq<Entry>) {
    exists files: seq<SnapFile> ::
      && files == EligibleFiles(t.files)
      && a == Entries(ObjectsFor(full, t, files))
      && multiset(b) == multiset(Entries(ObjectsFor(diff, t, files)))
      && forall f :: f in files ==>
           && KeyFor(full, t, f) == DataPath(full.p, full.id, full.mode) + "/" + Relative(t.keyspace, t.folder, f.sub, f.name)
           && KeyFor(diff, t, f) == DataPath(diff.p, diff.id, diff.mode) + "/" + Relative(t.keyspace, t.folder, f.sub, f.name)
  }

  lemma {:induction false} EligibleSubset(files: seq<SnapFile>)
    ensures forall f :: f in EligibleFiles(files) <==> f in files && Eligible(f)
  {
    hide Eligible;
    if files != [] {
      EligibleSubset(files[..|files| - 1]);
    }
  }

  lemma SectionHeads(run: Run, t: Table)
    ensures SectionFor(run, t).keyspace == t.keyspace && SectionFor(run, t).columnfamily == t.folder
  {
    hide Renamed, SectionObjects;
  }

  lemma SameTable(full: Run, diff: Run, t: Table, a: seq<Entry>, b: seq<Entry>)
    requires GoodRun(full) && GoodRun(diff) && GoodTableFiles(t)
    requires a == Described(full, t) && multiset(b) == multiset(Described(diff, t))
    ensures SameFiles(full, diff, t, a, b)
  {
    EligibleSubset(t.files);
    var files := EligibleFiles(t.files);
    hide EligibleFiles, KeyFor, Relative, DataPath, GoodFile, ObjectsFor, Entries;
    forall f | f in files
      ensures KeyFor(full, t, f) == DataPath(full.p, full.id, full.mode) + "/" + Relative(t.keyspace, t.folder, f.sub, f.name)
      ensures KeyFor(diff, t, f) == DataPath(diff.p, diff.id, diff.mode) + "/" + Relative(t.keyspace, t.folder, f.sub, f.name)
    {
      KeyForShape(full, t, f);
      KeyForShape(diff, t, f);
    }
  }

  /**
   For every snapshot, pool content and listing order, the differential manifest describes
   the same files as the full one, section by section.
   */
  lemma DifferentialEqualsFull(full: Run, diff: Run, items: seq<ManifestObject>, tables: seq<Table>, i: nat)
    requires GoodRun(full) && full.mode.Full? && GoodRun(diff) && diff.mode.Differential?
    requires full.index == IndexOf([])
    requires IndexedFrom(diff, items)
    requires forall t :: t in tables ==> GoodTableFiles(t)
    requires i < |tables|
    ensures var a, b := ManifestOf(full, tables)[i], ManifestOf(diff, tables)[i];
            && a.keyspace == b.keyspace == tables[i].keyspace && a.columnfamily == b.columnfamily == tables[i].folder
            && SameFiles(full, diff, tables[i], Entries(a.objects), Entries(b.objects))
  {
    var t := tables[i];
    assert t in tables;
    ManifestSection(full, tables, i);
    ManifestSection(diff, tables, i);
    SectionDescribes(full, [], t);
    SectionDescribes(diff, items, t);
    SectionHeads(full, t);
    SectionHeads(diff, t);
    SameTable(full, diff, t, Entries(SectionFor(full, t).objects), Entries(SectionFor(diff, t).objects));
    hide *;
  }

  function ObjectCount(m: Manifest): nat {
    if m == [] then 0 else ObjectCount(m[..|m| - 1]) + |m[|m| - 1].objects|
  }

  /** num_files plus num_kept is the number of objects in the manifest. */
  lemma {:induction false} CountsAddUp(run: Run, items: seq<ManifestObject>, tables: seq<Table>)
    requires GoodRun(run) && IndexedFrom(run, items)
    requires forall t :: t in tables ==> GoodTableFiles(t)
    ensures |UploadsOf(run, tables)| + KeptCount(run, tables) == ObjectCount(ManifestOf(run, tables))
  {
    if tables != [] {
      var rest, t := tables[..|tables| - 1], tables[|tables| - 1];
      assert t in tables;
      CountsAddUp(run, items, rest);
      SectionDescribes(run, items, t);
      var m := ManifestOf(run, tables);
      assert m[..|m| - 1] == ManifestOf(run, rest);
      hide SectionFor, Check, TableUploads;
    }
  }

  // ---------------------------------------------------------------- what a run uploads and keeps

  ghost predicate UploadedBy(run: Run, tables: seq<Table>, u: Upload) {
    exists t, f :: t in tables && UploadOf(run, t, f, u)
  }

  predicate UploadOf(run: Run, t: Table, f: SnapFile, u: Upload) {
    GoodTableFiles(t) && f in t.files && ToUpload(run, t, f) && u == UploadFor(run, t, f)
  }

  lemma {:induction false} UploadsForMember(run: Run, t: Table, files: seq<SnapFile>)
    ensures forall u :: u in UploadsFor(run, t, files) ==> exists f :: f in files && u == UploadFor(run, t, f)
    ensures forall f :: f in files ==> UploadFor(run, t, f) in UploadsFor(run, t, files)
    ensures forall o :: o in ObjectsFor(run, t, files) ==> exists u :: u in UploadsFor(run, t, files) && u.key == o.path
  {
    hide KeyFor;
    if files != [] {
      var rest, last := files[..|files| - 1], files[|files| - 1];
      UploadsForMember(run, t, rest);
      forall u | u in UploadsFor(run, t, files) ensures exists f :: f in files && u == UploadFor(run, t, f) {
        if u in UploadsFor(run, t, rest) {
          var f :| f in rest && u == UploadFor(run, t, f);
          assert f in files;
        } else {
          assert last in files;
        }
      }
      forall o | o in ObjectsFor(run, t, files) ensures exists u :: u in UploadsFor(run, t, files) && u.key == o.path {
        if o in ObjectsFor(run, t, rest) {
          var u :| u in UploadsFor(run, t, rest) && u.key == o.path;
          assert u in UploadsFor(run, t, files);
        } else {
          assert UploadFor(run, t, last) in UploadsFor(run, t, files);
        }
      }
    }
  }

  lemma TableUploadsMember(run: Run, t: Table)
    requires GoodTableFiles(t)
    ensures forall u :: u in TableUploads(run, t) ==> exists f :: UploadOf(run, t, f, u)
    ensures forall f :: f in t.files && ToUpload(run, t, f) ==> UploadFor(run, t, f) in TableUploads(run, t)
  {
    var c := Check(run, t);
    CheckedFiles(run, t, |t.files|);
    assert t.files[..|t.files|] == t.files;
    hide CheckUpTo, UploadsFor, UploadFor, ToUpload;
    UploadsForMember(run, t, c.needsBackup + c.needsReupload);
    forall u | u in TableUploads(run, t) ensures exists f :: UploadOf(run, t, f, u) {
      var f :| f in c.needsBackup + c.needsReupload && u == UploadFor(run, t, f);
      assert UploadOf(run, t, f, u);
    }
  }

  /** Everything uploaded is an eligible file of the snapshot. */
  lemma {:induction false} UploadsMember(run: Run, tables: seq<Table>)
    requires forall t :: t in tables ==> GoodTableFiles(t)
    ensures forall u :: u in UploadsOf(run, tables) ==> UploadedBy(run, tables, u)
    ensures forall t, f :: t in tables && f in t.files && ToUpload(run, t, f) ==> UploadFor(run, t, f) in UploadsOf(run, tables)
  {
    hide TableUploads, UploadOf;
    if tables != [] {
      var rest, last := tables[..|tables| - 1], tables[|tables| - 1];
      assert last in tables;
      UploadsMember(run, rest);
      TableUploadsMember(run, last);
      forall u | u in UploadsOf(run, tables) ensures UploadedBy(run, tables, u) {
        if u in UploadsOf(run, rest) {
          var t, f :| t in rest && UploadOf(run, t, f, u);
          assert t in tables;
        } else {
          var f :| UploadOf(run, last, f, u);
        }
      }
      hide ToUpload, UploadFor;
    }
  }

  ghost predicate Accounted(path: string, uploads: seq<Upload>, items: seq<ManifestObject>) {
    (exists u :: u in uploads && u.key == path) || (exists o :: o in items && o.path == path)
  }

  lemma SectionAccounted(run: Run, items: seq<ManifestObject>, t: Table)
    requires GoodRun(run) && IndexedFrom(run, items) && GoodTableFiles(t)
    ensures forall o :: o in SectionFor(run, t).objects ==>
              Accounted(o.path, TableUploads(run, t), if run.mode.Differential? then items else [])
  {
    SectionNames(run, items, t);
    var c := Check(run, t);
    UploadsForMember(run, t, c.needsBackup + c.needsReupload);
    hide SectionFor, Check, UploadsFor, ObjectsFor, IndexedFrom;
  }

  /** Every path of the manifest is uploaded by the run or, in differential mode, was listed in the pool. */
  lemma {:induction false} ManifestAccounted(run: Run, items: seq<ManifestObject>, tables: seq<Table>)
    requires GoodRun(run) && IndexedFrom(run, items)
    requires forall t :: t in tables ==> GoodTableFiles(t)
    ensures forall sec, o :: sec in ManifestOf(run, tables) && o in sec.objects ==>
              Accounted(o.path, UploadsOf(run, tables), if run.mode.Differential? then items else [])
  {
    hide SectionFor, TableUploads, IndexedFrom, GoodRun;
    if tables != [] {
      var rest, last := tables[..|tables| - 1], tables[|tables| - 1];
      assert last in tables;
      ManifestAccounted(run, items, rest);
      SectionAccounted(run, items, last);
      assert forall u :: u in UploadsOf(run, rest) || u in TableUploads(run, last) ==> u in UploadsOf(run, tables);
    }
  }
}
