/**
 Which files of a snapshot are uploaded for the first time, which again, and which are kept, told from what
 the pool listed under their keys.
 */
module PoolCheck {
  import opened Text
  import opened ObjectStorage
  import opened Layout
  import opened TableKeys
  import opened PoolIndex
  import opened Snapshots
  import opened Manifests

  // ---------------------------------------------------------------- what the pool holds for a key

  /** items[i] is the last object listed under the key, and nothing listed later makes the index forget it. */
  ghost predicate Held(items: seq<ManifestObject>, key: string, i: nat) {
    && i < |items| && items[i].path == key
    && (forall j :: i < j < |items| ==> items[j].path != key)
    && (forall j :: i < j < |items| ==> !StartsAfresh(items, j, KeyOf(items[i]).0, KeyOf(items[i]).1))
  }

  lemma HeldParts(items: seq<ManifestObject>, key: string, i: nat)
    ensures Held(items, key, i) <==>
            && i < |items| && items[i].path == key
            && (forall j :: i < j < |items| ==> items[j].path != key)
            && (forall j :: i < j < |items| ==> !StartsAfresh(items, j, KeyOf(items[i]).0, KeyOf(items[i]).1))
  {
    hide StartsAfresh, KeyOf;
  }

  /** When keys are contiguous nothing is forgotten. */
  lemma HeldLast(items: seq<ManifestObject>, key: string, i: nat)
    requires Contiguous(items)
    ensures Held(items, key, i) <==> i < |items| && items[i].path == key && forall j :: i < j < |items| ==> items[j].path != key
  {
    hide *;
    HeldParts(items, key, i);
    if i < |items| {
      forall j | i < j < |items| ensures !StartsAfresh(items, j, KeyOf(items[i]).0, KeyOf(items[i]).1) {
        NoLaterRun(items, i, j, KeyOf(items[i]).0, KeyOf(items[i]).1);
      }
    }
  }

  lemma OneHeld(items: seq<ManifestObject>, key: string, i: nat, j: nat)
    requires Held(items, key, i) && Held(items, key, j)
    ensures i == j
  {
    hide StartsAfresh, KeyOf;
  }

  /** The pool's objects that a lookup for a file matches are those under the file's key. */
  lemma MatchesAtKey(run: Run, items: seq<ManifestObject>, t: Table, f: SnapFile, o: ManifestObject)
    requires GoodRun(run) && run.mode.Differential? && IndexedFrom(run, items) && o in items
    requires GoodFile(f) && Component(t.keyspace) && GoodTable(t.folder)
    ensures Matches(o, t.keyspace, TableKey(t.folder, f.sub), f.name) <==> o.path == KeyFor(run, t, f)
  {
    KeyForShape(run, t, f);
    DataPartsGood(run);
    var pool := DataParts(run.p, BackupId(run.id.fqdn, ""), Layout.Differential);
    assert pool == DataParts(run.p, run.id, run.mode);
    assert PoolObject(run.p, run.id.fqdn, o.path);
    hide IndexOf, KeyFor, TableKey, StoredKey, SanitizeStored, ParsePath, NameUp, GoodTable;
    var ks, u, g :| PoolFile(run.p, run.id.fqdn, o.path, ks, u, g);
    StoredKeyReads(pool, ks, u, g.sub, g.name);
    StoredKeyReads(pool, t.keyspace, t.folder, f.sub, f.name);
    if TableKey(u, g.sub) == TableKey(t.folder, f.sub) { NoDots(u, t.folder); TableKeyInjective(u, g.sub, t.folder, f.sub); }
  }

  lemma NoDots(t: string, u: string)
    requires GoodTable(t) && GoodTable(u)
    ensures '.' !in t && '.' !in u
  {
  }

  /** A lookup for a file finds what is held under its key. */
  lemma FindHeld(run: Run, items: seq<ManifestObject>, t: Table, f: SnapFile)
    requires GoodRun(run) && run.mode.Differential? && IndexedFrom(run, items)
    requires GoodFile(f) && Component(t.keyspace) && GoodTable(t.folder)
    ensures var r := Find(run.index, t.keyspace, TableKey(t.folder, f.sub), f.name);
            && (r.None? <==> forall i: nat :: !Held(items, KeyFor(run, t, f), i))
            && (forall i: nat :: Held(items, KeyFor(run, t, f), i) ==> r == Some(items[i]))
  {
    var n, key, table := |items|, KeyFor(run, t, f), TableKey(t.folder, f.sub);
    assert run.index == IndexUpTo(items, n);
    hide *;
    FindExact(items, n, t.keyspace, table, f.name);
    forall i: nat ensures Retained(items, n, i, t.keyspace, table, f.name) <==> Held(items, key, i) {
      RetainedHeld(run, items, t, f, i);
    }
  }

  lemma RetainedHeld(run: Run, items: seq<ManifestObject>, t: Table, f: SnapFile, i: nat)
    requires GoodRun(run) && run.mode.Differential? && IndexedFrom(run, items)
    requires GoodFile(f) && Component(t.keyspace) && GoodTable(t.folder)
    ensures Retained(items, |items|, i, t.keyspace, TableKey(t.folder, f.sub), f.name) <==> Held(items, KeyFor(run, t, f), i)
  {
    var key, table := KeyFor(run, t, f), TableKey(t.folder, f.sub);
    hide KeyFor, TableKey, GoodRun, IndexedFrom, GoodFile, GoodTable, Component, Matches, StartsAfresh, KeyOf;
    forall j | 0 <= j < |items| ensures Matches(items[j], t.keyspace, table, f.name) <==> items[j].path == key {
      MatchesAtKey(run, items, t, f, items[j]);
    }
    if i < |items| && items[i].path == key { MatchKey(items[i], t.keyspace, table, f.name); }
  }

  // ---------------------------------------------------------------- the three kinds of files

  /** The file goes to the pool, or to a full backup's folder, without anything there to compare it with. */
  ghost predicate IsNew(run: Run, items: seq<ManifestObject>, t: Table, f: SnapFile) {
    && f.name != "manifest.json" && f.name != "schema.cql"
    && (run.mode.Full? || forall i: nat :: !Held(items, KeyFor(run, t, f), i))
  }

  /** The pool's object of the file's key has another size or, where digests are checked, another digest. */
  ghost predicate IsChanged(run: Run, items: seq<ManifestObject>, t: Table, f: SnapFile) {
    && f.name != "manifest.json" && f.name != "schema.cql" && run.mode.Differential?
    && exists i: nat :: Held(items, KeyFor(run, t, f), i) && (items[i].size != f.size || (run.md5Checks && items[i].md5 != f.md5))
  }

  /** o is the pool's object of the file's key, with the file's size and, where digests are checked, its digest. */
  ghost predicate IsKept(run: Run, items: seq<ManifestObject>, t: Table, f: SnapFile, o: ManifestObject) {
    && f.name != "manifest.json" && f.name != "schema.cql" && run.mode.Differential?
    && exists i: nat :: Held(items, KeyFor(run, t, f), i) && o == items[i] && o.size == f.size && (run.md5Checks ==> o.md5 == f.md5)
  }

  lemma JudgeByFind(run: Run, t: Table, f: SnapFile)
    requires GoodRun(run) && GoodFile(f) && Component(t.keyspace) && GoodTable(t.folder)
    ensures var r := Find(run.index, t.keyspace, TableKey(t.folder, f.sub), f.name);
            var eligible := f.name != "manifest.json" && f.name != "schema.cql";
            && (Judge(run, t, f).New? <==> eligible && (run.mode.Full? || r.None?))
            && (Judge(run, t, f).Changed? <==>
                  eligible && run.mode.Differential? && r.Some? && (r.value.size != f.size || (run.md5Checks && r.value.md5 != f.md5)))
            && (forall o :: Judge(run, t, f) == Present(o) <==>
                  eligible && run.mode.Differential? && r == Some(o) && o.size == f.size && (run.md5Checks ==> o.md5 == f.md5))
  {
    if run.mode.Differential? {
      DataPartsGood(run);
      LocalAndStoredKeysAgree(DataParts(run.p, run.id, run.mode), run.root, t.keyspace, t.folder, run.tag, f);
    }
    hide SanitizeLocal, LocalPath, Find, GoodRun, TableKey, GoodTable, UploadKey, SanitizeStored, ParsePath;
  }

  lemma KindParts(run: Run, items: seq<ManifestObject>, t: Table, f: SnapFile)
    ensures var eligible := f.name != "manifest.json" && f.name != "schema.cql";
            var key := KeyFor(run, t, f);
            && (IsNew(run, items, t, f) <==> eligible && (run.mode.Full? || forall i: nat :: !Held(items, key, i)))
            && (IsChanged(run, items, t, f) <==>
                  eligible && run.mode.Differential?
                  && exists i: nat :: Held(items, key, i) && i < |items| && (items[i].size != f.size || (run.md5Checks && items[i].md5 != f.md5)))
            && (forall o :: IsKept(run, items, t, f, o) <==>
                  eligible && run.mode.Differential?
                  && exists i: nat :: Held(items, key, i) && i < |items| && o == items[i] && o.size == f.size && (run.md5Checks ==> o.md5 == f.md5))
  {
    hide KeyFor, StartsAfresh, KeyOf;
  }

  lemma JudgeExact(run: Run, items: seq<ManifestObject>, t: Table, f: SnapFile)
    requires GoodRun(run) && IndexedFrom(run, items) && GoodFile(f) && Component(t.keyspace) && GoodTable(t.folder)
    ensures Judge(run, t, f).New? <==> IsNew(run, items, t, f)
    ensures Judge(run, t, f).Changed? <==> IsChanged(run, items, t, f)
    ensures forall o :: Judge(run, t, f) == Present(o) <==> IsKept(run, items, t, f, o)
  {
    hide *;
    JudgeByFind(run, t, f);
    KindParts(run, items, t, f);
    if run.mode.Differential? {
      FindHeld(run, items, t, f);
      var key := KeyFor(run, t, f);
      forall i: nat | Held(items, key, i) ensures i < |items| { HeldParts(items, key, i); }
    }
  }

  // ---------------------------------------------------------------- the three lists

  /** The chosen files, in the order of the table. */
  function Picked(files: seq<SnapFile>, chosen: set<SnapFile>): (r: seq<SnapFile>)
    ensures forall f :: f in r <==> f in files && f in chosen
  {
    if files == [] then []
    else
      var rest, last := files[..|files| - 1], files[|files| - 1];
      assert files == rest + [last];
      Picked(rest, chosen) + if last in chosen then [last] else []
  }

  ghost function NewFiles(run: Run, items: seq<ManifestObject>, t: Table): set<SnapFile> {
    set f | f in t.files && IsNew(run, items, t, f)
  }

  ghost function ChangedFiles(run: Run, items: seq<ManifestObject>, t: Table): set<SnapFile> {
    set f | f in t.files && IsChanged(run, items, t, f)
  }

  ghost function KeptFiles(run: Run, items: seq<ManifestObject>, t: Table): set<SnapFile> {
    set f | f in t.files && exists o :: IsKept(run, items, t, f, o)
  }

  lemma FilesExact(run: Run, items: seq<ManifestObject>, t: Table, f: SnapFile)
    ensures f in NewFiles(run, items, t) <==> f in t.files && IsNew(run, items, t, f)
    ensures f in ChangedFiles(run, items, t) <==> f in t.files && IsChanged(run, items, t, f)
    ensures f in KeptFiles(run, items, t) <==> f in t.files && exists o :: IsKept(run, items, t, f, o)
  {
    hide IsNew, IsChanged, IsKept;
  }

  /** The objects are those of the files, one for one. */
  ghost predicate KeptAs(run: Run, items: seq<ManifestObject>, t: Table, files: seq<SnapFile>, objects: seq<ManifestObject>) {
    |objects| == |files| && forall k :: 0 <= k < |files| ==> IsKept(run, items, t, files[k], objects[k])
  }

  lemma KeptMore(run: Run, items: seq<ManifestObject>, t: Table, files: seq<SnapFile>, objects: seq<ManifestObject>, f: SnapFile, o: ManifestObject)
    requires KeptAs(run, items, t, files, objects) && IsKept(run, items, t, f, o)
    ensures KeptAs(run, items, t, files + [f], objects + [o])
  {
    hide IsKept;
  }

  /** After the first n files. */
  ghost predicate Sorted(run: Run, items: seq<ManifestObject>, t: Table, n: nat, c: Checked)
    requires n <= |t.files|
  {
    && c.needsBackup == Picked(t.files[..n], NewFiles(run, items, t))
    && c.needsReupload == Picked(t.files[..n], ChangedFiles(run, items, t))
    && KeptAs(run, items, t, Picked(t.files[..n], KeptFiles(run, items, t)), c.already)
  }

  lemma SortedParts(run: Run, items: seq<ManifestObject>, t: Table, n: nat, c: Checked)
    requires n <= |t.files|
    ensures Sorted(run, items, t, n, c) <==>
            && c.needsBackup == Picked(t.files[..n], NewFiles(run, items, t))
            && c.needsReupload == Picked(t.files[..n], ChangedFiles(run, items, t))
            && KeptAs(run, items, t, Picked(t.files[..n], KeptFiles(run, items, t)), c.already)
  {
    hide Picked, NewFiles, ChangedFiles, KeptFiles, KeptAs;
  }

  lemma PickedStep(files: seq<SnapFile>, n: nat, chosen: set<SnapFile>)
    requires 0 < n <= |files|
    ensures Picked(files[..n], chosen) == if files[n - 1] in chosen then Picked(files[..n - 1], chosen) + [files[n - 1]] else Picked(files[..n - 1], chosen)
  {
    assert files[..n][..n - 1] == files[..n - 1] && files[..n][n - 1] == files[n - 1];
  }

  lemma CheckOneCases(c: Checked, v: Verdict, f: SnapFile)
    ensures CheckOne(c, v, f).needsBackup == if v.New? then c.needsBackup + [f] else c.needsBackup
    ensures CheckOne(c, v, f).needsReupload == if v.Changed? then c.needsReupload + [f] else c.needsReupload
    ensures CheckOne(c, v, f).already == if v.Present? then c.already + [v.obj] else c.already
  {
  }

  lemma FileOfTable(t: Table, n: nat)
    requires GoodTableFiles(t) && n < |t.files|
    ensures t.files[n] in t.files && GoodFile(t.files[n]) && Component(t.keyspace) && GoodTable(t.folder)
  {
  }

  lemma SortedStep(run: Run, items: seq<ManifestObject>, t: Table, n: nat, c: Checked)
    requires GoodRun(run) && IndexedFrom(run, items) && GoodTableFiles(t) && 0 < n <= |t.files| && Sorted(run, items, t, n - 1, c)
    ensures Sorted(run, items, t, n, CheckOne(c, Judge(run, t, t.files[n - 1]), t.files[n - 1]))
  {
    hide *;
    var f := t.files[n - 1];
    var v := Judge(run, t, f);
    FileOfTable(t, n - 1);
    JudgeExact(run, items, t, f);
    FilesExact(run, items, t, f);
    PickedStep(t.files, n, NewFiles(run, items, t));
    PickedStep(t.files, n, ChangedFiles(run, items, t));
    PickedStep(t.files, n, KeptFiles(run, items, t));
    CheckOneCases(c, v, f);
    SortedParts(run, items, t, n - 1, c);
    SortedParts(run, items, t, n, CheckOne(c, v, f));
    if v.Present? {
      assert v == Present(v.obj);
      KeptMore(run, items, t, Picked(t.files[..n - 1], KeptFiles(run, items, t)), c.already, f, v.obj);
    } else {
      assert forall o :: v != Present(o);
    }
  }

  lemma SortedNothing(run: Run, items: seq<ManifestObject>, t: Table)
    ensures Sorted(run, items, t, 0, Checked([], [], []))
  {
    hide NewFiles, ChangedFiles, KeptFiles;
    assert t.files[..0] == [];
  }

  ghost function NewIn(run: Run, items: seq<ManifestObject>, t: Table): seq<SnapFile> { Picked(t.files, NewFiles(run, items, t)) }

  ghost function ChangedIn(run: Run, items: seq<ManifestObject>, t: Table): seq<SnapFile> { Picked(t.files, ChangedFiles(run, items, t)) }

  ghost function KeptIn(run: Run, items: seq<ManifestObject>, t: Table): seq<SnapFile> { Picked(t.files, KeptFiles(run, items, t)) }

  lemma {:induction false} CheckSorted(run: Run, items: seq<ManifestObject>, t: Table, n: nat)
    requires GoodRun(run) && IndexedFrom(run, items) && GoodTableFiles(t) && n <= |t.files|
    ensures Sorted(run, items, t, n, CheckUpTo(run, t, n))
  {
    hide *;
    if n == 0 {
      SortedNothing(run, items, t);
      CheckNothing(run, t);
    } else {
      CheckSorted(run, items, t, n - 1);
      CheckStep(run, t, n);
      SortedStep(run, items, t, n, CheckUpTo(run, t, n - 1));
    }
  }

  lemma CheckNothing(run: Run, t: Table)
    ensures CheckUpTo(run, t, 0) == Checked([], [], [])
  {
  }

  /**
   check_already_uploaded against the listing itself, for every listing: the first list has the files for
   whose key the pool holds nothing, the second those whose object differs, the third the objects of all
   others, each in the order of the table.
   */
  lemma CheckExact(run: Run, items: seq<ManifestObject>, t: Table)
    requires GoodRun(run) && IndexedFrom(run, items) && GoodTableFiles(t)
    ensures Check(run, t).needsBackup == NewIn(run, items, t)
    ensures Check(run, t).needsReupload == ChangedIn(run, items, t)
    ensures KeptAs(run, items, t, KeptIn(run, items, t), Check(run, t).already)
  {
    CheckSorted(run, items, t, |t.files|);
    assert t.files[..|t.files|] == t.files;
    hide CheckUpTo, Picked, NewFiles, ChangedFiles, KeptFiles, KeptAs, GoodRun, IndexedFrom, GoodTableFiles;
  }

  /**
   On contiguous listings: an eligible file is uploaded for the first time if and only if no listed object
   has its key, again if and only if the last one that has it differs in size, or in digest where digests are
   checked, and otherwise that object is kept.
   */
  lemma CheckContiguous(run: Run, items: seq<ManifestObject>, t: Table, f: SnapFile)
    requires GoodRun(run) && IndexedFrom(run, items) && GoodTableFiles(t) && Contiguous(items) && run.mode.Differential?
    requires f in t.files && f.name != "manifest.json" && f.name != "schema.cql"
    ensures var c, key := Check(run, t), KeyFor(run, t, f);
            && (f in c.needsBackup <==> forall o :: o in items ==> o.path != key)
            && forall i :: 0 <= i < |items| && items[i].path == key && (forall j :: i < j < |items| ==> items[j].path != key) ==>
                 var differs := items[i].size != f.size || (run.md5Checks && items[i].md5 != f.md5);
                 && (f in c.needsReupload <==> differs)
                 && (!differs ==> items[i] in c.already)
  {
    var c, key := Check(run, t), KeyFor(run, t, f);
    hide *;
    CheckExact(run, items, t);
    forall i: nat ensures Held(items, key, i) <==> i < |items| && items[i].path == key && forall j :: i < j < |items| ==> items[j].path != key {
      HeldLast(items, key, i);
    }
    if exists o :: o in items && o.path == key {
      var n := LastUnder(items, key);
    }
    InLists(run, items, t, f, c);
    forall i: nat, j: nat | Held(items, key, i) && Held(items, key, j) ensures i == j { OneHeld(items, key, i, j); }
  }

  lemma LastUnder(items: seq<ManifestObject>, key: string) returns (i: nat)
    requires exists o :: o in items && o.path == key
    ensures i < |items| && items[i].path == key && forall j :: i < j < |items| ==> items[j].path != key
  {
    i := |items| - 1;
    while items[i].path != key
      invariant i < |items| && exists k :: 0 <= k <= i && items[k].path == key
      invariant forall j :: i < j < |items| ==> items[j].path != key
      decreases i
    {
      i := i - 1;
    }
  }

  /** Where a file of the table is found among the lists. */
  lemma InLists(run: Run, items: seq<ManifestObject>, t: Table, f: SnapFile, c: Checked)
    requires f in t.files && f.name != "manifest.json" && f.name != "schema.cql" && run.mode.Differential?
    requires c.needsBackup == NewIn(run, items, t) && c.needsReupload == ChangedIn(run, items, t)
    requires KeptAs(run, items, t, KeptIn(run, items, t), c.already)
    ensures f in c.needsBackup <==> forall i: nat :: !Held(items, KeyFor(run, t, f), i)
    ensures f in c.needsReupload <==>
            exists i: nat :: Held(items, KeyFor(run, t, f), i) && i < |items| && (items[i].size != f.size || (run.md5Checks && items[i].md5 != f.md5))
    ensures forall i: nat :: Held(items, KeyFor(run, t, f), i) && i < |items| && items[i].size == f.size && (run.md5Checks ==> items[i].md5 == f.md5)
              ==> exists o :: o in c.already && exists j: nat :: Held(items, KeyFor(run, t, f), j) && j < |items| && o == items[j]
  {
    hide Held, KeyFor;
    forall i: nat ensures Held(items, KeyFor(run, t, f), i) ==> i < |items| { HeldParts(items, KeyFor(run, t, f), i); }
    forall i: nat | Held(items, KeyFor(run, t, f), i) && i < |items| && items[i].size == f.size && (run.md5Checks ==> items[i].md5 == f.md5)
      ensures exists o :: o in c.already && exists j: nat :: Held(items, KeyFor(run, t, f), j) && j < |items| && o == items[j]
    {
      assert IsKept(run, items, t, f, items[i]);
      var files := KeptIn(run, items, t);
      assert f in files;
      var k :| 0 <= k < |files| && files[k] == f;
      assert c.already[k] in c.already && IsKept(run, items, t, f, c.already[k]);
    }
  }

  // ---------------------------------------------------------------- the counters

  /** How many files of all tables are chosen, each as often as its table lists it. */
  ghost function Total(tables: seq<Table>, chosen: Table -> set<SnapFile>): nat {
    if tables == [] then 0
    else Total(tables[..|tables| - 1], chosen) + |Picked(tables[|tables| - 1].files, chosen(tables[|tables| - 1]))|
  }

  lemma {:induction false} TotalSame(tables: seq<Table>, a: Table -> set<SnapFile>, b: Table -> set<SnapFile>)
    requires forall t :: t in tables ==> a(t) == b(t)
    ensures Total(tables, a) == Total(tables, b)
  {
    if tables != [] {
      TotalSame(tables[..|tables| - 1], a, b);
    }
  }

  lemma {:induction false} PickedNothing(files: seq<SnapFile>)
    ensures Picked(files, {}) == []
  {
    if files != [] {
      PickedNothing(files[..|files| - 1]);
    }
  }

  lemma {:induction false} TotalNothing(tables: seq<Table>, chosen: Table -> set<SnapFile>)
    requires forall t :: t in tables ==> chosen(t) == {}
    ensures Total(tables, chosen) == 0
  {
    if tables != [] {
      TotalNothing(tables[..|tables| - 1], chosen);
      PickedNothing(tables[|tables| - 1].files);
    }
  }

  /** num_files counts the new and the changed files, replaced the changed ones, kept the others. */
  lemma {:induction false} CountersExact(run: Run, items: seq<ManifestObject>, tables: seq<Table>)
    requires GoodRun(run) && IndexedFrom(run, items) && forall t :: t in tables ==> GoodTableFiles(t)
    ensures |UploadsOf(run, tables)| == Total(tables, t => NewFiles(run, items, t)) + Total(tables, t => ChangedFiles(run, items, t))
    ensures ReplacedCount(run, tables) == Total(tables, t => ChangedFiles(run, items, t))
    ensures KeptCount(run, tables) == Total(tables, t => KeptFiles(run, items, t))
  {
    hide Check, GoodRun, IndexedFrom, GoodTableFiles, NewFiles, ChangedFiles, KeptFiles, IsKept, UploadsFor;
    var a, b, c := t => NewFiles(run, items, t), t => ChangedFiles(run, items, t), t => KeptFiles(run, items, t);
    if tables != [] {
      var rest, t := tables[..|tables| - 1], tables[|tables| - 1];
      assert t in tables;
      CountersExact(run, items, rest);
      CheckExact(run, items, t);
      UploadsForLength(run, t, Check(run, t).needsBackup + Check(run, t).needsReupload);
      assert Total(tables, a) == Total(rest, a) + |NewIn(run, items, t)|;
      assert Total(tables, b) == Total(rest, b) + |ChangedIn(run, items, t)|;
      assert Total(tables, c) == Total(rest, c) + |KeptIn(run, items, t)|;
    }
  }
}
