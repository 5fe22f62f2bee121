/**
 download_data: recreating the files of a backup below a destination, table by table.
 Downloading what a backup uploaded puts every eligible snapshot file back in its place.
 */
module Download {
  import opened Text
  import opened ObjectStorage
  import opened Layout
  import opened TableKeys
  import opened PoolIndex
  import opened Snapshots
  import opened Manifests
  import opened Verify

  /** The destination: table folders made so far, files with their content, and hidden folders below the tables. */
  datatype Local = Local(folders: set<string>, files: map<string, Body>, hidden: set<string>)

  function Folder(dest: string, sec: Section): string { dest + "/" + sec.keyspace + "/" + sec.columnfamily }

  function Target(folder: string, path: string): string { PathMaybeWithParent(folder, ParsePath(path)) }

  predicate Wanted(fqtns: set<string>, keyspace: string, table: string) {
    fqtns == {} || keyspace + "." + table in fqtns
  }

  /** download_blobs; None is an object that does not exist. */
  function Fetch(st: Store, folder: string, objects: seq<ManifestObject>, files: map<string, Body>): Option<map<string, Body>> {
    if objects == [] then Some(files)
    else
      match Fetch(st, folder, objects[..|objects| - 1], files)
      case None => None
      case Some(sofar) =>
        var path := objects[|objects| - 1].path;
        if path in st then Some(sofar[Target(folder, path) := st[path].body]) else None
  }

  /** The hidden folders below a table folder, for secondary indexes. */
  function SubFolders(folder: string, objects: seq<ManifestObject>): set<string> {
    set o | o in objects && "." <= NameUp(ParsePath(o.path), 1) :: folder + "/" + NameUp(ParsePath(o.path), 1)
  }

  /** One section of the manifest; making a folder that exists fails. */
  function FetchSection(st: Store, dest: string, sec: Section, fqtns: set<string>, local: Local): Option<Local> {
    if sec.objects == [] || !Wanted(fqtns, sec.keyspace, sec.columnfamily) then Some(local)
    else if Folder(dest, sec) in local.folders then None
    else
      match Fetch(st, Folder(dest, sec), sec.objects, local.files)
      case None => None
      case Some(files) => Some(Local(local.folders + {Folder(dest, sec)}, files, local.hidden + SubFolders(Folder(dest, sec), sec.objects)))
  }

  function FetchUpTo(st: Store, dest: string, m: Manifest, fqtns: set<string>, n: nat): Option<Local>
    requires n <= |m|
  {
    if n == 0 then Some(Local({}, map[], {}))
    else
      match FetchUpTo(st, dest, m, fqtns, n - 1)
      case None => None
      case Some(local) => FetchSection(st, dest, m[n - 1], fqtns, local)
  }

  /** What is downloaded beside the tables. */
  function Metadata(p: string, id: BackupId): seq<ManifestObject> {
    [ManifestObject(MetaKey(p, id, "manifest.json"), 0, ""), ManifestObject(MetaKey(p, id, "schema.cql"), 0, ""),
     ManifestObject(MetaKey(p, id, "tokenmap.json"), 0, "")]
  }

  /** download_data: the tables, then the metadata. */
  function Downloaded(st: Store, dest: string, p: string, id: BackupId, m: Manifest, fqtns: set<string>): Option<Local> {
    match FetchUpTo(st, dest, m, fqtns, |m|)
    case None => None
    case Some(local) =>
      match Fetch(st, dest, Metadata(p, id), local.files)
      case None => None
      case Some(files) => Some(Local(local.folders, files, local.hidden))
  }

  method FetchBlobs(storage: ObjectStore, folder: string, objects: seq<ManifestObject>, files: map<string, Body>)
    returns (r: Option<map<string, Body>>)
    ensures r == Fetch(storage.blobs, folder, objects, files)
  {
    hide Target;
    var sofar := files;
    var i := 0;
    assert objects[..0] == [];
    while i < |objects|
      invariant 0 <= i <= |objects|
      invariant Fetch(storage.blobs, folder, objects[..i], files) == Some(sofar)
    {
      assert objects[..i + 1][..i] == objects[..i];
      var path := objects[i].path;
      if path !in storage.blobs {
        FetchFails(storage.blobs, folder, objects, files, i + 1);
        return None;
      }
      sofar := sofar[Target(folder, path) := storage.blobs[path].body];
      i := i + 1;
    }
    assert objects[..i] == objects;
    r := Some(sofar);
  }

  lemma {:induction false} FetchFails(st: Store, folder: string, objects: seq<ManifestObject>, files: map<string, Body>, n: nat)
    requires n <= |objects| && Fetch(st, folder, objects[..n], files).None?
    ensures Fetch(st, folder, objects, files).None?
    decreases |objects| - n
  {
    hide Target;
    if n == |objects| {
      assert objects[..n] == objects;
    } else {
      assert objects[..n + 1][..n] == objects[..n];
      FetchFails(st, folder, objects, files, n + 1);
    }
  }

  lemma {:induction false} SectionFails(st: Store, dest: string, m: Manifest, fqtns: set<string>, n: nat, last: nat)
    requires n <= last <= |m| && FetchUpTo(st, dest, m, fqtns, n).None?
    ensures FetchUpTo(st, dest, m, fqtns, last).None?
  {
    hide FetchSection;
    if n < last {
      SectionFails(st, dest, m, fqtns, n, last - 1);
    }
  }

  /** download_data for a backup with the given manifest, into an empty destination. */
  method DownloadData(storage: ObjectStore, dest: string, p: string, id: BackupId, m: Manifest, fqtns: set<string>) returns (r: Option<Local>)
    ensures r == Downloaded(storage.blobs, dest, p, id, m, fqtns)
  {
    var local := Local({}, map[], {});
    var i := 0;
    hide Fetch, Folder, Wanted, SubFolders, Metadata;
    while i < |m|
      invariant 0 <= i <= |m|
      invariant FetchUpTo(storage.blobs, dest, m, fqtns, i) == Some(local)
    {
      var sec := m[i];
      if sec.objects != [] && Wanted(fqtns, sec.keyspace, sec.columnfamily) {
        if Folder(dest, sec) in local.folders {
          SectionFails(storage.blobs, dest, m, fqtns, i + 1, |m|);
          return None;
        }
        var files := FetchBlobs(storage, Folder(dest, sec), sec.objects, local.files);
        if files.None? {
          SectionFails(storage.blobs, dest, m, fqtns, i + 1, |m|);
          return None;
        }
        local := Local(local.folders + {Folder(dest, sec)}, files.value, local.hidden + SubFolders(Folder(dest, sec), sec.objects));
      }
      i := i + 1;
    }
    var files := FetchBlobs(storage, dest, Metadata(p, id), local.files);
    if files.None? { return None; }
    r := Some(Local(local.folders, files.value, local.hidden));
  }

  // ---------------------------------------------------------------- where the files go

  /** destination/keyspace/table/[subfolder/]name. */
  function Placed(dest: string, t: Table, f: SnapFile): string {
    dest + "/" + Relative(t.keyspace, t.folder, f.sub, f.name)
  }

  lemma StoredNames(parts: seq<string>, sub: Option<string>, name: string)
    requires parts != []
    ensures var path := Path(false, parts + SubParts(sub) + [name]);
            NameUp(path, 0) == name && NameUp(path, 1) == if sub.Some? then sub.value else parts[|parts| - 1]
  {
  }

  /** A stored file is downloaded to its place below the table folder. */
  lemma TargetIsPlace(run: Run, dest: string, t: Table, f: SnapFile, sec: Section)
    requires GoodRun(run) && GoodTableFiles(t) && f in t.files && sec.keyspace == t.keyspace && sec.columnfamily == t.folder
    ensures Target(Folder(dest, sec), KeyFor(run, t, f)) == Placed(dest, t, f)
  {
    assert GoodFile(f);
    KeyForShape(run, t, f);
    DataPartsGood(run);
    var data := DataParts(run.p, run.id, run.mode);
    var parts := data + ([t.keyspace, t.folder] + SubParts(f.sub) + [f.name]);
    ParseJoined(parts);
    assert parts == data + [t.keyspace, t.folder] + SubParts(f.sub) + [f.name];
    StoredNames(data + [t.keyspace, t.folder], f.sub, f.name);
    SpecialFolders(t.folder, f.sub);
    RelativeSteps(t.keyspace, t.folder, f.sub, f.name);
    hide KeyFor, ParsePath, NameUp, Special, Relative, DataParts, GoodRun;
    if f.sub.Some? {
      Regroup4(dest, t.keyspace, t.folder, f.sub.value, f.name);
    } else {
      Regroup3(dest, t.keyspace, t.folder, f.name);
    }
  }

  lemma PlacesDiffer(dest: string, t: Table, f: SnapFile, u: Table, g: SnapFile)
    requires GoodTableFiles(t) && GoodTableFiles(u) && GoodFile(f) && GoodFile(g)
    requires Placed(dest, t, f) == Placed(dest, u, g)
    ensures t.keyspace == u.keyspace && t.folder == u.folder && f.sub == g.sub && f.name == g.name
  {
    var a, b := Relative(t.keyspace, t.folder, f.sub, f.name), Relative(u.keyspace, u.folder, g.sub, g.name);
    assert Placed(dest, t, f)[|dest + "/"|..] == a && Placed(dest, u, g)[|dest + "/"|..] == b;
    var p, q := [t.keyspace, t.folder] + SubParts(f.sub) + [f.name], [u.keyspace, u.folder] + SubParts(g.sub) + [g.name];
    SplitJoin(p, '/');
    SplitJoin(q, '/');
    assert p == q;
    assert p[0] == t.keyspace && q[0] == u.keyspace && p[1] == t.folder && q[1] == u.folder;
    assert p[|p| - 1] == f.name && q[|q| - 1] == g.name;
    if f.sub.Some? { assert p[2] == f.sub.value; }
    if g.sub.Some? { assert q[2] == g.sub.value; }
  }

  // ---------------------------------------------------------------- the round trip

  ghost function Targets(folder: string, objects: seq<ManifestObject>): set<string> {
    set o | o in objects :: Target(folder, o.path)
  }

  /** Two objects with one target are the same stored object. */
  ghost predicate OneSource(folder: string, objects: seq<ManifestObject>) {
    forall a, b :: a in objects && b in objects && Target(folder, a.path) == Target(folder, b.path) ==> a.path == b.path
  }

  /** Every object of a section lands at its target, and nothing else is written. */
  ghost predicate Fetched(st: Store, folder: string, objects: seq<ManifestObject>, before: map<string, Body>, after: map<string, Body>) {
    && after.Keys == before.Keys + Targets(folder, objects)
    && (forall o :: o in objects ==> o.path in st && after[Target(folder, o.path)] == st[o.path].body)
    && (forall k :: k in before && k !in Targets(folder, objects) ==> after[k] == before[k])
  }

  lemma FetchUnfolds(st: Store, folder: string, objects: seq<ManifestObject>, files: map<string, Body>)
    requires objects != []
    ensures var rest, last := objects[..|objects| - 1], objects[|objects| - 1];
            var sofar := Fetch(st, folder, rest, files);
            Fetch(st, folder, objects, files)
            == if sofar.Some? && last.path in st then Some(sofar.value[Target(folder, last.path) := st[last.path].body]) else None
  {
    hide Target;
  }

  lemma TargetsSplit(folder: string, objects: seq<ManifestObject>)
    requires objects != []
    ensures Targets(folder, objects) == Targets(folder, objects[..|objects| - 1]) + {Target(folder, objects[|objects| - 1].path)}
    ensures forall o :: o in objects <==> o in objects[..|objects| - 1] || o == objects[|objects| - 1]
  {
    hide Target;
    var rest, last := objects[..|objects| - 1], objects[|objects| - 1];
    assert last in objects;
    assert forall o :: o in objects <==> o in rest || o == last;
  }

  lemma SameSource(folder: string, objects: seq<ManifestObject>, a: ManifestObject, b: ManifestObject)
    requires OneSource(folder, objects) && a in objects && b in objects
    ensures Target(folder, a.path) == Target(folder, b.path) ==> a.path == b.path
  {
    hide Target;
  }

  lemma FetchedParts(st: Store, folder: string, objects: seq<ManifestObject>, before: map<string, Body>, after: map<string, Body>)
    ensures Fetched(st, folder, objects, before, after) <==>
            && after.Keys == before.Keys + Targets(folder, objects)
            && (forall o :: o in objects ==> Target(folder, o.path) in after && o.path in st && after[Target(folder, o.path)] == st[o.path].body)
            && (forall k :: k in before && k !in Targets(folder, objects) ==> k in after && after[k] == before[k])
  {
    forall o | o in objects ensures Target(folder, o.path) in Targets(folder, objects) { TargetIn(folder, objects, o); }
    hide Target, Targets;
  }

  /** One more object. */
  lemma FetchedStep(st: Store, folder: string, objects: seq<ManifestObject>, before: map<string, Body>, mid: map<string, Body>)
    requires objects != [] && OneSource(folder, objects) && objects[|objects| - 1].path in st
    requires Fetched(st, folder, objects[..|objects| - 1], before, mid)
    ensures var last := objects[|objects| - 1]; Fetched(st, folder, objects, before, mid[Target(folder, last.path) := st[last.path].body])
  {
    hide *;
    var rest, last := objects[..|objects| - 1], objects[|objects| - 1];
    var after := mid[Target(folder, last.path) := st[last.path].body];
    TargetsSplit(folder, objects);
    FetchedParts(st, folder, rest, before, mid);
    forall o | o in objects ensures Target(folder, o.path) in after && o.path in st && after[Target(folder, o.path)] == st[o.path].body {
      SameSource(folder, objects, o, last);
    }
    FetchedParts(st, folder, objects, before, after);
  }

  lemma {:induction false} FetchAll(st: Store, folder: string, objects: seq<ManifestObject>, files: map<string, Body>)
    requires OneSource(folder, objects) && forall o :: o in objects ==> o.path in st
    ensures Fetch(st, folder, objects, files).Some?
    ensures Fetched(st, folder, objects, files, Fetch(st, folder, objects, files).value)
  {
    hide Target, Targets, Fetched;
    if objects == [] {
      FetchedNothing(st, folder, files);
    } else {
      var rest := objects[..|objects| - 1];
      assert forall o :: o in rest ==> o in objects;
      assert objects[|objects| - 1] in objects;
      FetchAll(st, folder, rest, files);
      FetchUnfolds(st, folder, objects, files);
      FetchedStep(st, folder, objects, files, Fetch(st, folder, rest, files).value);
    }
  }

  lemma FetchedNothing(st: Store, folder: string, files: map<string, Body>)
    ensures Fetched(st, folder, [], files, files)
  {
    hide Target;
  }

  /** k is the place of the wanted, eligible file f of table t. */
  ghost predicate IsPlace(dest: string, fqtns: set<string>, t: Table, f: SnapFile, k: string) {
    f in t.files && Eligible(f) && Wanted(fqtns, t.keyspace, t.folder) && k == Placed(dest, t, f)
  }

  ghost predicate PlaceUpTo(dest: string, tables: seq<Table>, fqtns: set<string>, n: nat, i: nat, f: SnapFile, k: string) {
    i < n && i < |tables| && IsPlace(dest, fqtns, tables[i], f, k)
  }

  /** Only the places of wanted files of the first n tables exist. */
  ghost predicate NothingElse(dest: string, tables: seq<Table>, fqtns: set<string>, n: nat, files: map<string, Body>) {
    forall k :: k in files ==> exists i: nat, f :: PlaceUpTo(dest, tables, fqtns, n, i, f, k)
  }

  /** Every wanted file of the first n tables is in its place, with the content stored for it. */
  ghost predicate InPlace(run: Run, st: Store, dest: string, tables: seq<Table>, fqtns: set<string>, n: nat, files: map<string, Body>) {
    forall i: nat, f, k :: PlaceUpTo(dest, tables, fqtns, n, i, f, k) ==>
      k in files && KeyFor(run, tables[i], f) in st && files[k] == st[KeyFor(run, tables[i], f)].body
  }

  function TableFolder(dest: string, t: Table): string { dest + "/" + t.keyspace + "/" + t.folder }

  ghost predicate FoldersFrom(dest: string, tables: seq<Table>, n: nat, folders: set<string>) {
    forall folder :: folder in folders ==> exists i: nat :: i < n && i < |tables| && folder == TableFolder(dest, tables[i])
  }

  ghost predicate Restored(run: Run, st: Store, dest: string, tables: seq<Table>, fqtns: set<string>, n: nat, local: Local) {
    && NothingElse(dest, tables, fqtns, n, local.files)
    && InPlace(run, st, dest, tables, fqtns, n, local.files)
    && FoldersFrom(dest, tables, n, local.folders)
  }

  /** Snapshot directories are distinct. */
  ghost predicate DistinctTables(tables: seq<Table>) {
    forall i, j :: 0 <= i < j < |tables| ==> tables[i].keyspace != tables[j].keyspace || tables[i].folder != tables[j].folder
  }

  ghost predicate GoodTables(tables: seq<Table>) {
    DistinctTables(tables) && forall t :: t in tables ==> GoodTableFiles(t)
  }

  /** The eligible files of a table are in the store. */
  ghost predicate Stored(run: Run, st: Store, t: Table) {
    forall f :: f in t.files && Eligible(f) ==> KeyFor(run, t, f) in st
  }

  // -- one table

  /** What a section of the manifest says about its table, and where its objects go. */
  ghost predicate Lands(run: Run, st: Store, dest: string, t: Table, o: ManifestObject, f: SnapFile) {
    && f in t.files && Eligible(f) && o.path == KeyFor(run, t, f) && o.path in st
    && Target(TableFolder(dest, t), o.path) == Placed(dest, t, f)
  }

  lemma ObjectLands(run: Run, st: Store, dest: string, tables: seq<Table>, t: Table, o: ManifestObject, f: SnapFile)
    requires GoodRun(run) && GoodTableFiles(t) && Stored(run, st, t) && Records(run, tables, o, t, f)
    ensures Lands(run, st, dest, t, o, f)
  {
    RecordsUse(run, tables, o, t, f);
    hide GoodRun, GoodTableFiles, Records, Eligible, KeyFor, Placed, Target;
    TargetIsPlace(run, dest, t, f, Section(t.keyspace, t.folder, []));
  }

  lemma SectionLands(run: Run, items: seq<ManifestObject>, st: Store, dest: string, t: Table)
    requires GoodRun(run) && IndexedFrom(run, items) && GoodTableFiles(t) && Stored(run, st, t)
    ensures forall o :: o in SectionFor(run, t).objects ==> exists f :: Lands(run, st, dest, t, o, f)
    ensures forall f :: f in t.files && Eligible(f) ==> exists o :: o in SectionFor(run, t).objects && Lands(run, st, dest, t, o, f)
  {
    hide *;
    SectionRecords(run, items, [t], t);
    forall o | o in SectionFor(run, t).objects ensures exists f :: Lands(run, st, dest, t, o, f) {
      var f :| Records(run, [t], o, t, f);
      ObjectLands(run, st, dest, [t], t, o, f);
    }
    forall f | f in t.files && Eligible(f) ensures exists o :: o in SectionFor(run, t).objects && Lands(run, st, dest, t, o, f) {
      var o :| o in SectionFor(run, t).objects && Records(run, [t], o, t, f);
      ObjectLands(run, st, dest, [t], t, o, f);
    }
  }

  lemma LandsUse(run: Run, st: Store, dest: string, t: Table, o: ManifestObject, f: SnapFile)
    requires Lands(run, st, dest, t, o, f)
    ensures f in t.files && Eligible(f) && o.path == KeyFor(run, t, f) && o.path in st
    ensures Target(TableFolder(dest, t), o.path) == Placed(dest, t, f)
  {
    hide Eligible, KeyFor, Placed, Target, TableFolder;
  }

  lemma LandApart(run: Run, st: Store, dest: string, t: Table, a: ManifestObject, f: SnapFile, b: ManifestObject, g: SnapFile)
    requires GoodTableFiles(t) && Lands(run, st, dest, t, a, f) && Lands(run, st, dest, t, b, g)
    requires Target(TableFolder(dest, t), a.path) == Target(TableFolder(dest, t), b.path)
    ensures a.path == b.path
  {
    hide GoodFile, Eligible, Placed, Target, TableFolder, KeyFor;
    PlacesDiffer(dest, t, f, t, g);
    SameKey(run, t, f, g);
  }

  lemma SameKey(run: Run, t: Table, f: SnapFile, g: SnapFile)
    requires f.sub == g.sub && f.name == g.name
    ensures KeyFor(run, t, f) == KeyFor(run, t, g)
  {
  }

  ghost predicate AllLand(run: Run, st: Store, dest: string, t: Table, objects: seq<ManifestObject>) {
    && (forall o :: o in objects ==> exists f :: Lands(run, st, dest, t, o, f))
    && (forall f :: f in t.files && Eligible(f) ==> exists o :: o in objects && Lands(run, st, dest, t, o, f))
  }

  lemma LandedHaveOneSource(run: Run, st: Store, dest: string, t: Table, objects: seq<ManifestObject>)
    requires GoodTableFiles(t) && AllLand(run, st, dest, t, objects)
    ensures OneSource(TableFolder(dest, t), objects) && forall o :: o in objects ==> o.path in st
  {
    hide GoodTableFiles, Eligible, Lands, Target, TableFolder;
    forall a, b | a in objects && b in objects && Target(TableFolder(dest, t), a.path) == Target(TableFolder(dest, t), b.path)
      ensures a.path == b.path
    {
      var f :| Lands(run, st, dest, t, a, f);
      var g :| Lands(run, st, dest, t, b, g);
      LandApart(run, st, dest, t, a, f, b, g);
    }
    forall o | o in objects ensures o.path in st {
      var f :| Lands(run, st, dest, t, o, f);
      LandsUse(run, st, dest, t, o, f);
    }
  }

  /** The files of one wanted table arrive; other files stay as they were. */
  ghost predicate TableAdded(run: Run, st: Store, dest: string, t: Table, before: map<string, Body>, after: map<string, Body>) {
    && (forall k :: k in after ==> k in before || exists f :: f in t.files && Eligible(f) && k == Placed(dest, t, f))
    && (forall f :: f in t.files && Eligible(f) ==>
          Placed(dest, t, f) in after && KeyFor(run, t, f) in st && after[Placed(dest, t, f)] == st[KeyFor(run, t, f)].body)
    && (forall k :: k in before && (forall f :: f in t.files && Eligible(f) ==> k != Placed(dest, t, f)) ==> k in after && after[k] == before[k])
  }

  lemma TargetMember(folder: string, objects: seq<ManifestObject>, k: string) returns (o: ManifestObject)
    requires k in Targets(folder, objects)
    ensures o in objects && k == Target(folder, o.path)
  {
    hide Target;
    o :| o in objects && k == Target(folder, o.path);
  }

  lemma FetchedAddsTable(run: Run, st: Store, dest: string, t: Table, objects: seq<ManifestObject>, before: map<string, Body>, after: map<string, Body>)
    requires AllLand(run, st, dest, t, objects) && Fetched(st, TableFolder(dest, t), objects, before, after)
    ensures TableAdded(run, st, dest, t, before, after)
  {
    hide Eligible, Lands, Target, TableFolder, Targets, KeyFor, Placed;
    var folder := TableFolder(dest, t);
    forall k | k in Targets(folder, objects) ensures exists f :: f in t.files && Eligible(f) && k == Placed(dest, t, f) {
      var o := TargetMember(folder, objects, k);
      var f :| Lands(run, st, dest, t, o, f);
      LandsUse(run, st, dest, t, o, f);
    }
    forall f | f in t.files && Eligible(f)
      ensures Placed(dest, t, f) in after && KeyFor(run, t, f) in st && after[Placed(dest, t, f)] == st[KeyFor(run, t, f)].body
    {
      var o :| o in objects && Lands(run, st, dest, t, o, f);
      LandsUse(run, st, dest, t, o, f);
      TargetIn(folder, objects, o);
    }
  }

  lemma TargetIn(folder: string, objects: seq<ManifestObject>, o: ManifestObject)
    requires o in objects
    ensures Target(folder, o.path) in Targets(folder, objects)
  {
    hide Target;
  }

  // -- one more table

  lemma FoldersDiffer(dest: string, t: Table, u: Table)
    requires '/' !in t.keyspace && '/' !in u.keyspace && TableFolder(dest, t) == TableFolder(dest, u)
    ensures t.keyspace == u.keyspace && t.folder == u.folder
  {
    var x, y := t.keyspace + ['/'] + t.folder, u.keyspace + ['/'] + u.folder;
    assert TableFolder(dest, t) == dest + "/" + x && TableFolder(dest, u) == dest + "/" + y;
    assert (dest + "/" + x)[|dest + "/"|..] == x && (dest + "/" + y)[|dest + "/"|..] == y;
    PrefixCancel(t.keyspace, t.folder, u.keyspace, u.folder, '/');
    PrefixCancel(u.keyspace, u.folder, t.keyspace, t.folder, '/');
    assert t.folder == u.folder[..|t.folder|] == u.folder;
  }

  lemma NewFolder(dest: string, tables: seq<Table>, n: nat, folders: set<string>)
    requires n < |tables| && GoodTables(tables) && FoldersFrom(dest, tables, n, folders)
    ensures TableFolder(dest, tables[n]) !in folders
    ensures FoldersFrom(dest, tables, n + 1, folders + {TableFolder(dest, tables[n])})
  {
    hide TableFolder, GoodFile;
    if TableFolder(dest, tables[n]) in folders {
      var i: nat :| i < n && i < |tables| && TableFolder(dest, tables[n]) == TableFolder(dest, tables[i]);
      assert tables[n] in tables && tables[i] in tables;
      FoldersDiffer(dest, tables[n], tables[i]);
    }
  }

  /** Files of different tables never share a place. */
  lemma NoClash(dest: string, tables: seq<Table>, n: nat, i: nat, f: SnapFile, g: SnapFile)
    requires i < n < |tables| && GoodTables(tables) && f in tables[i].files && g in tables[n].files
    ensures Placed(dest, tables[i], f) != Placed(dest, tables[n], g)
  {
    assert tables[n] in tables && tables[i] in tables;
    hide Placed, GoodFile;
    if Placed(dest, tables[i], f) == Placed(dest, tables[n], g) {
      PlacesDiffer(dest, tables[i], f, tables[n], g);
    }
  }

  lemma PlaceStep(dest: string, tables: seq<Table>, fqtns: set<string>, n: nat, i: nat, f: SnapFile, k: string)
    requires n < |tables|
    ensures PlaceUpTo(dest, tables, fqtns, n + 1, i, f, k)
            <==> PlaceUpTo(dest, tables, fqtns, n, i, f, k) || (i == n && IsPlace(dest, fqtns, tables[n], f, k))
  {
    hide IsPlace;
  }

  lemma PlaceUse(dest: string, fqtns: set<string>, t: Table, f: SnapFile, k: string)
    ensures IsPlace(dest, fqtns, t, f, k) <==> f in t.files && Eligible(f) && Wanted(fqtns, t.keyspace, t.folder) && k == Placed(dest, t, f)
  {
    hide Eligible, Wanted, Placed;
  }

  lemma NothingElseGrows(run: Run, st: Store, dest: string, tables: seq<Table>, fqtns: set<string>, n: nat, m: nat, before: map<string, Body>, after: map<string, Body>)
    requires n < |tables| && m == n + 1 && NothingElse(dest, tables, fqtns, n, before) && Wanted(fqtns, tables[n].keyspace, tables[n].folder)
    requires TableAdded(run, st, dest, tables[n], before, after)
    ensures NothingElse(dest, tables, fqtns, m, after)
  {
    hide Eligible, Wanted, Placed, KeyFor, PlaceUpTo, IsPlace;
    forall k | k in after ensures exists i: nat, f :: PlaceUpTo(dest, tables, fqtns, m, i, f, k) {
      if k in before {
        var i: nat, f :| PlaceUpTo(dest, tables, fqtns, n, i, f, k);
        PlaceStep(dest, tables, fqtns, n, i, f, k);
      } else {
        var f :| f in tables[n].files && Eligible(f) && k == Placed(dest, tables[n], f);
        PlaceUse(dest, fqtns, tables[n], f, k);
        PlaceStep(dest, tables, fqtns, n, n, f, k);
      }
    }
  }

  lemma EarlierStays(dest: string, tables: seq<Table>, fqtns: set<string>, n: nat, i: nat, f: SnapFile, k: string)
    requires n < |tables| && GoodTables(tables) && PlaceUpTo(dest, tables, fqtns, n, i, f, k)
    ensures forall g :: g in tables[n].files && Eligible(g) ==> k != Placed(dest, tables[n], g)
  {
    hide Eligible, Wanted, Placed, GoodTables;
    forall g | g in tables[n].files && Eligible(g) ensures k != Placed(dest, tables[n], g) {
      NoClash(dest, tables, n, i, f, g);
    }
  }

  lemma InPlaceGrows(run: Run, st: Store, dest: string, tables: seq<Table>, fqtns: set<string>, n: nat, m: nat, before: map<string, Body>, after: map<string, Body>)
    requires n < |tables| && m == n + 1 && GoodTables(tables) && InPlace(run, st, dest, tables, fqtns, n, before)
    requires TableAdded(run, st, dest, tables[n], before, after)
    ensures InPlace(run, st, dest, tables, fqtns, m, after)
  {
    hide Eligible, Wanted, Placed, KeyFor, PlaceUpTo, IsPlace, GoodTables;
    forall i: nat, f, k | PlaceUpTo(dest, tables, fqtns, m, i, f, k)
      ensures i < |tables| && k in after && KeyFor(run, tables[i], f) in st && after[k] == st[KeyFor(run, tables[i], f)].body
    {
      PlaceIn(dest, tables, fqtns, m, i, f, k);
      PlaceStep(dest, tables, fqtns, n, i, f, k);
      PlaceUse(dest, fqtns, tables[n], f, k);
      if PlaceUpTo(dest, tables, fqtns, n, i, f, k) {
        EarlierStays(dest, tables, fqtns, n, i, f, k);
      }
    }
  }

  lemma RestoredSkips(run: Run, st: Store, dest: string, tables: seq<Table>, fqtns: set<string>, n: nat, local: Local)
    requires n < |tables| && Restored(run, st, dest, tables, fqtns, n, local)
    requires !Wanted(fqtns, tables[n].keyspace, tables[n].folder) || forall f :: f in tables[n].files ==> !Eligible(f)
    ensures Restored(run, st, dest, tables, fqtns, n + 1, local)
  {
    hide KeyFor, Eligible, Placed, Wanted, PlaceUpTo, TableFolder, IsPlace;
    forall k, f, i: nat ensures PlaceUpTo(dest, tables, fqtns, n + 1, i, f, k) <==> PlaceUpTo(dest, tables, fqtns, n, i, f, k) {
      PlaceStep(dest, tables, fqtns, n, i, f, k);
      PlaceUse(dest, fqtns, tables[n], f, k);
    }
    SameRestored(run, st, dest, tables, fqtns, n, n + 1, local);
  }

  lemma SameRestored(run: Run, st: Store, dest: string, tables: seq<Table>, fqtns: set<string>, n: nat, m: nat, local: Local)
    requires n < |tables| && m == n + 1 && Restored(run, st, dest, tables, fqtns, n, local)
    requires forall k, f, i: nat :: PlaceUpTo(dest, tables, fqtns, m, i, f, k) <==> PlaceUpTo(dest, tables, fqtns, n, i, f, k)
    ensures Restored(run, st, dest, tables, fqtns, m, local)
  {
    hide KeyFor, PlaceUpTo, TableFolder;
    forall k | k in local.files ensures exists i: nat, f :: PlaceUpTo(dest, tables, fqtns, m, i, f, k) {
      var i: nat, f :| PlaceUpTo(dest, tables, fqtns, n, i, f, k);
      assert PlaceUpTo(dest, tables, fqtns, m, i, f, k);
    }
  }

  lemma SectionFetches(st: Store, dest: string, t: Table, sec: Section, fqtns: set<string>, local: Local)
    requires sec.keyspace == t.keyspace && sec.columnfamily == t.folder
    ensures (sec.objects == [] || !Wanted(fqtns, t.keyspace, t.folder)) ==> FetchSection(st, dest, sec, fqtns, local) == Some(local)
    ensures sec.objects != [] && Wanted(fqtns, t.keyspace, t.folder) && TableFolder(dest, t) !in local.folders
            && Fetch(st, TableFolder(dest, t), sec.objects, local.files).Some? ==>
              FetchSection(st, dest, sec, fqtns, local)
              == Some(Local(local.folders + {TableFolder(dest, t)}, Fetch(st, TableFolder(dest, t), sec.objects, local.files).value,
                            local.hidden + SubFolders(TableFolder(dest, t), sec.objects)))
  {
    hide Fetch, Wanted, SubFolders;
  }

  /** Restoring one more table. */
  lemma RestoreTable(run: Run, items: seq<ManifestObject>, st: Store, dest: string, tables: seq<Table>, fqtns: set<string>, n: nat, local: Local)
    requires GoodRun(run) && IndexedFrom(run, items) && GoodTables(tables)
    requires n < |tables| && Stored(run, st, tables[n]) && Restored(run, st, dest, tables, fqtns, n, local)
    ensures var r := FetchSection(st, dest, SectionFor(run, tables[n]), fqtns, local);
            r.Some? && Restored(run, st, dest, tables, fqtns, n + 1, r.value)
  {
    var t, sec := tables[n], SectionFor(run, tables[n]);
    assert GoodTableFiles(t) by { assert t in tables; }
    hide *;
    SectionHeads(run, t);
    SectionLands(run, items, st, dest, t);
    SectionFetches(st, dest, t, sec, fqtns, local);
    if sec.objects == [] || !Wanted(fqtns, t.keyspace, t.folder) {
      RestoredSkips(run, st, dest, tables, fqtns, n, local);
    } else {
      RestoredParts(run, st, dest, tables, fqtns, n, local);
      NewFolder(dest, tables, n, local.folders);
      AllLandMake(run, st, dest, t, sec.objects);
      LandedHaveOneSource(run, st, dest, t, sec.objects);
      FetchAll(st, TableFolder(dest, t), sec.objects, local.files);
      var files := Fetch(st, TableFolder(dest, t), sec.objects, local.files).value;
      FetchedAddsTable(run, st, dest, t, sec.objects, local.files, files);
      NothingElseGrows(run, st, dest, tables, fqtns, n, n + 1, local.files, files);
      InPlaceGrows(run, st, dest, tables, fqtns, n, n + 1, local.files, files);
      RestoredParts(run, st, dest, tables, fqtns, n + 1, Local(local.folders + {TableFolder(dest, t)}, files, local.hidden + SubFolders(TableFolder(dest, t), sec.objects)));
    }
  }

  lemma AllLandMake(run: Run, st: Store, dest: string, t: Table, objects: seq<ManifestObject>)
    ensures AllLand(run, st, dest, t, objects) <==>
            && (forall o :: o in objects ==> exists f :: Lands(run, st, dest, t, o, f))
            && (forall f :: f in t.files && Eligible(f) ==> exists o :: o in objects && Lands(run, st, dest, t, o, f))
  {
    hide Lands, Eligible;
  }

  lemma RestoredParts(run: Run, st: Store, dest: string, tables: seq<Table>, fqtns: set<string>, n: nat, local: Local)
    ensures Restored(run, st, dest, tables, fqtns, n, local) <==>
            && NothingElse(dest, tables, fqtns, n, local.files)
            && InPlace(run, st, dest, tables, fqtns, n, local.files)
            && FoldersFrom(dest, tables, n, local.folders)
  {
    hide NothingElse, InPlace, FoldersFrom;
  }

  lemma RestoredNothing(run: Run, st: Store, dest: string, tables: seq<Table>, fqtns: set<string>)
    ensures Restored(run, st, dest, tables, fqtns, 0, Local({}, map[], {}))
  {
    hide IsPlace, KeyFor, TableFolder;
  }

  lemma {:induction false} RestoreTables(run: Run, items: seq<ManifestObject>, st: Store, dest: string, tables: seq<Table>, fqtns: set<string>, n: nat)
    requires GoodRun(run) && IndexedFrom(run, items) && GoodTables(tables) && n <= |tables|
    requires forall t :: t in tables ==> Stored(run, st, t)
    ensures var r := FetchUpTo(st, dest, ManifestOf(run, tables), fqtns, n);
            r.Some? && Restored(run, st, dest, tables, fqtns, n, r.value)
  {
    hide GoodRun, IndexedFrom, GoodTables, Stored, ManifestOf, Restored, FetchSection;
    if n == 0 {
      RestoredNothing(run, st, dest, tables, fqtns);
    } else {
      RestoreTables(run, items, st, dest, tables, fqtns, n - 1);
      ManifestSection(run, tables, n - 1);
      assert Stored(run, st, tables[n - 1]) by { assert tables[n - 1] in tables; }
      RestoreTable(run, items, st, dest, tables, fqtns, n - 1, FetchUpTo(st, dest, ManifestOf(run, tables), fqtns, n - 1).value);
    }
  }

  /**
   Downloading a backup whose objects are all in the store succeeds, recreates every wanted eligible
   file at destination/keyspace/table/[subfolder/]name with the stored content, and creates nothing else.
   */
  lemma DownloadRestores(run: Run, items: seq<ManifestObject>, st: Store, dest: string, tables: seq<Table>, fqtns: set<string>)
    requires GoodRun(run) && IndexedFrom(run, items) && GoodTables(tables)
    requires forall t :: t in tables ==> Stored(run, st, t)
    ensures var r := FetchUpTo(st, dest, ManifestOf(run, tables), fqtns, |tables|);
            && r.Some?
            && (forall k :: k in r.value.files <==> exists i: nat, f :: PlaceUpTo(dest, tables, fqtns, |tables|, i, f, k))
            && InPlace(run, st, dest, tables, fqtns, |tables|, r.value.files)
  {
    hide *;
    RestoreTables(run, items, st, dest, tables, fqtns, |tables|);
    var local := FetchUpTo(st, dest, ManifestOf(run, tables), fqtns, |tables|).value;
    RestoredParts(run, st, dest, tables, fqtns, |tables|, local);
    ExactlyPlaces(run, st, dest, tables, fqtns, |tables|, local.files);
  }

  lemma ExactlyPlaces(run: Run, st: Store, dest: string, tables: seq<Table>, fqtns: set<string>, n: nat, files: map<string, Body>)
    requires NothingElse(dest, tables, fqtns, n, files) && InPlace(run, st, dest, tables, fqtns, n, files)
    ensures forall k :: k in files <==> exists i: nat, f :: PlaceUpTo(dest, tables, fqtns, n, i, f, k)
  {
    hide PlaceUpTo, KeyFor;
  }

  lemma InPlaceUse(run: Run, st: Store, dest: string, tables: seq<Table>, fqtns: set<string>, n: nat, files: map<string, Body>, i: nat, f: SnapFile, k: string)
    requires InPlace(run, st, dest, tables, fqtns, n, files) && PlaceUpTo(dest, tables, fqtns, n, i, f, k)
    ensures i < |tables| && k in files && KeyFor(run, tables[i], f) in st && files[k] == st[KeyFor(run, tables[i], f)].body
  {
    PlaceIn(dest, tables, fqtns, n, i, f, k);
    hide KeyFor, PlaceUpTo;
  }

  // -- from a snapshot, through the store, back to a directory

  lemma FreshFile(run: Run, items: seq<ManifestObject>, tables: seq<Table>, before: Store, now: nat, st: Store, t: Table, f: SnapFile)
    requires ReadyRun(run, items, tables, before) && FreshBackup(run, tables, before, now, st)
    requires t in tables && f in t.files && Eligible(f)
    ensures var k := KeyFor(run, t, f);
            && k in st && st[k].size == f.size
            && (if ToUpload(run, t, f) then st[k].body == Raw(f.data) else k in before && st[k] == before[k] && (run.md5Checks ==> st[k].md5 == f.md5))
  {
    if Judge(run, t, f).Present? && run.md5Checks { PresentDigest(run, t, f); }
    EligibleVerdict(run, t, f);
    assert GoodTableFiles(t) && GoodFile(f);
    FileStored(run, items, tables, before, now, t, f);
    KeyUnderData(run, t, f);
    hide KeyFor, DataPath, PutAll, UploadsOf, ManifestOf, GoodRun, IndexedFrom, Judge, MetaKey, ToUpload, Eligible, GoodTableFiles;
  }

  lemma PresentDigest(run: Run, t: Table, f: SnapFile)
    requires Judge(run, t, f).Present? && run.md5Checks
    ensures Judge(run, t, f).obj.md5 == f.md5
  {
    hide SanitizeLocal, Find, LocalPath;
  }

  lemma FullUploads(run: Run, t: Table, f: SnapFile)
    requires run.mode.Full? && Eligible(f)
    ensures ToUpload(run, t, f)
  {
  }

  /** What comes back for a file: its own content if this backup uploaded it, or the object that the pool held for it. */
  ghost predicate Returned(run: Run, before: Store, t: Table, f: SnapFile, body: Body) {
    var key := KeyFor(run, t, f);
    if ToUpload(run, t, f) then body == Raw(f.data)
    else run.mode.Differential? && key in before && before[key].size == f.size && (run.md5Checks ==> before[key].md5 == f.md5) && body == before[key].body
  }

  lemma ReturnedParts(run: Run, before: Store, t: Table, f: SnapFile, body: Body)
    ensures var key := KeyFor(run, t, f);
            Returned(run, before, t, f, body) <==>
            if ToUpload(run, t, f) then body == Raw(f.data)
            else run.mode.Differential? && key in before && before[key].size == f.size && (run.md5Checks ==> before[key].md5 == f.md5) && body == before[key].body
  {
    hide KeyFor, ToUpload;
  }

  /** Every wanted file is in its place, with what the backup stored or found for it. */
  ghost predicate ContentBack(run: Run, before: Store, dest: string, tables: seq<Table>, fqtns: set<string>, files: map<string, Body>) {
    forall i: nat, f, k :: PlaceUpTo(dest, tables, fqtns, |tables|, i, f, k) ==> k in files && Returned(run, before, tables[i], f, files[k])
  }

  /**
   Backing up a snapshot and downloading it again gives the snapshot back: the files restored are exactly
   the wanted eligible ones, each with its own content if the backup uploaded it (all of them in full mode),
   and with that of the pool's object of the same name and size if it kept that, digest included when digests are compared.
   */
  lemma BackupThenDownload(run: Run, items: seq<ManifestObject>, tables: seq<Table>, before: Store, now: nat, st: Store, dest: string, fqtns: set<string>)
    requires ReadyRun(run, items, tables, before) && FreshBackup(run, tables, before, now, st) && DistinctTables(tables)
    ensures var r := FetchUpTo(st, dest, ManifestOf(run, tables), fqtns, |tables|);
            && r.Some?
            && (forall k :: k in r.value.files <==> exists i: nat, f :: PlaceUpTo(dest, tables, fqtns, |tables|, i, f, k))
            && ContentBack(run, before, dest, tables, fqtns, r.value.files)
  {
    hide *;
    ReadyUse(run, items, tables, before);
    forall t, f | t in tables && f in t.files && Eligible(f)
      ensures KeyFor(run, t, f) in st && Returned(run, before, t, f, st[KeyFor(run, t, f)].body)
    {
      FreshFile(run, items, tables, before, now, st, t, f);
      if run.mode.Full? { FullUploads(run, t, f); }
      ReturnedParts(run, before, t, f, st[KeyFor(run, t, f)].body);
    }
    GoodTablesParts(tables);
    forall t | t in tables ensures Stored(run, st, t) { StoredParts(run, st, t); }
    DownloadRestores(run, items, st, dest, tables, fqtns);
    var files := FetchUpTo(st, dest, ManifestOf(run, tables), fqtns, |tables|).value.files;
    forall i: nat, f, k | PlaceUpTo(dest, tables, fqtns, |tables|, i, f, k)
      ensures i < |tables| && k in files && Returned(run, before, tables[i], f, files[k])
    {
      PlaceIn(dest, tables, fqtns, |tables|, i, f, k);
      InPlaceUse(run, st, dest, tables, fqtns, |tables|, files, i, f, k);
    }
    ContentBackMake(run, before, dest, tables, fqtns, files);
  }

  lemma GoodTablesParts(tables: seq<Table>)
    ensures GoodTables(tables) <==> DistinctTables(tables) && forall t :: t in tables ==> GoodTableFiles(t)
  {
    hide DistinctTables, GoodTableFiles;
  }

  lemma StoredParts(run: Run, st: Store, t: Table)
    ensures Stored(run, st, t) <==> forall f :: f in t.files && Eligible(f) ==> KeyFor(run, t, f) in st
  {
    hide KeyFor, Eligible;
  }

  lemma ContentBackMake(run: Run, before: Store, dest: string, tables: seq<Table>, fqtns: set<string>, files: map<string, Body>)
    requires forall i: nat, f, k :: PlaceUpTo(dest, tables, fqtns, |tables|, i, f, k) ==>
               i < |tables| && k in files && Returned(run, before, tables[i], f, files[k])
    ensures ContentBack(run, before, dest, tables, fqtns, files)
  {
    hide PlaceUpTo, Returned;
  }

  lemma PlaceIn(dest: string, tables: seq<Table>, fqtns: set<string>, n: nat, i: nat, f: SnapFile, k: string)
    requires PlaceUpTo(dest, tables, fqtns, n, i, f, k)
    ensures i < |tables| && tables[i] in tables && f in tables[i].files && Eligible(f)
  {
    hide Eligible, Wanted, Placed;
  }

  // -- the hidden folders

  lemma KeyParent(run: Run, t: Table, f: SnapFile)
    requires GoodRun(run) && GoodTableFiles(t) && f in t.files
    ensures NameUp(ParsePath(KeyFor(run, t, f)), 1) == if f.sub.Some? then f.sub.value else t.folder
    ensures "." <= NameUp(ParsePath(KeyFor(run, t, f)), 1) <==> f.sub.Some?
  {
    assert GoodFile(f);
    KeyForShape(run, t, f);
    DataPartsGood(run);
    var data := DataParts(run.p, run.id, run.mode);
    var parts := data + ([t.keyspace, t.folder] + SubParts(f.sub) + [f.name]);
    ParseJoined(parts);
    assert parts == data + [t.keyspace, t.folder] + SubParts(f.sub) + [f.name];
    StoredNames(data + [t.keyspace, t.folder], f.sub, f.name);
    assert t.folder[0] != '.';
    hide KeyFor, ParsePath, NameUp, DataParts, GoodRun;
  }

  /** The hidden folders made for a table are exactly those its eligible files are in. */
  lemma SubFoldersExact(run: Run, items: seq<ManifestObject>, st: Store, dest: string, t: Table)
    requires GoodRun(run) && IndexedFrom(run, items) && GoodTableFiles(t) && Stored(run, st, t)
    ensures forall x :: x in SubFolders(TableFolder(dest, t), SectionFor(run, t).objects)
              <==> exists f :: f in t.files && Eligible(f) && f.sub.Some? && x == TableFolder(dest, t) + "/" + f.sub.value
  {
    hide *;
    SectionLands(run, items, st, dest, t);
    var folder, objects := TableFolder(dest, t), SectionFor(run, t).objects;
    forall x | x in SubFolders(folder, objects) ensures exists f :: f in t.files && Eligible(f) && f.sub.Some? && x == folder + "/" + f.sub.value {
      var o := SubFolderOf(folder, objects, x);
      var f :| Lands(run, st, dest, t, o, f);
      LandsUse(run, st, dest, t, o, f);
      KeyParent(run, t, f);
    }
    forall x | exists f :: f in t.files && Eligible(f) && f.sub.Some? && x == folder + "/" + f.sub.value ensures x in SubFolders(folder, objects) {
      var f :| f in t.files && Eligible(f) && f.sub.Some? && x == folder + "/" + f.sub.value;
      var o :| o in objects && Lands(run, st, dest, t, o, f);
      LandsUse(run, st, dest, t, o, f);
      KeyParent(run, t, f);
      SubFolderIn(folder, objects, o);
    }
  }

  lemma SubFolderOf(folder: string, objects: seq<ManifestObject>, x: string) returns (o: ManifestObject)
    requires x in SubFolders(folder, objects)
    ensures o in objects && "." <= NameUp(ParsePath(o.path), 1) && x == folder + "/" + NameUp(ParsePath(o.path), 1)
  {
    hide NameUp, ParsePath;
    o :| o in objects && "." <= NameUp(ParsePath(o.path), 1) && x == folder + "/" + NameUp(ParsePath(o.path), 1);
  }

  lemma SubFolderIn(folder: string, objects: seq<ManifestObject>, o: ManifestObject)
    requires o in objects && "." <= NameUp(ParsePath(o.path), 1)
    ensures folder + "/" + NameUp(ParsePath(o.path), 1) in SubFolders(folder, objects)
  {
    hide NameUp, ParsePath;
  }

  // -- the metadata beside the tables

  lemma MetaJoined(p: string, id: BackupId, file: string)
    requires SimplePrefix(p)
    ensures MetaKey(p, id, file) == Join((if p == "" then [] else [p[..|p| - 1]]) + [id.fqdn, id.name, "meta", file], '/')
  {
    var tail := [id.fqdn, id.name, "meta", file];
    JoinFour(id.fqdn, id.name, "meta", file);
    assert MetaKey(p, id, file) == p + Join(tail, '/') by { RegroupMetaKey(p, id.fqdn, id.name, file); }
    if p == "" {
      assert [] + tail == tail;
    } else {
      JoinConcat([p[..|p| - 1]], tail, '/');
      assert p == p[..|p| - 1] + ['/'];
      hide *;
      assert p + Join(tail, '/') == p[..|p| - 1] + ['/'] + Join(tail, '/');
    }
  }

  lemma RegroupMetaKey(p: string, h: string, n: string, file: string)
    ensures p + h + "/" + n + "/meta/" + file == p + (h + "/" + n + "/" + "meta" + "/" + file)
  {
    assert "/meta/" == "/" + "meta" + "/";
  }

  /** Metadata files go straight below the destination. */
  lemma MetaTarget(p: string, id: BackupId, dest: string, file: string)
    requires SimplePrefix(p) && Component(id.fqdn) && Component(id.name) && Component(file)
    ensures Target(dest, MetaKey(p, id, file)) == dest + "/" + file
  {
    var parts := (if p == "" then [] else [p[..|p| - 1]]) + [id.fqdn, id.name, "meta", file];
    MetaJoined(p, id, file);
    assert Component("meta") && !Special("meta") by { assert "meta"[0] == 'm' && |"meta"| < |"nodes"|; }
    ParseJoined(parts);
    assert parts[|parts| - 1] == file && parts[|parts| - 2] == "meta";
    hide MetaKey, ParsePath, Special, Join;
  }

  function MetaPlaces(dest: string): set<string> { {dest + "/manifest.json", dest + "/schema.cql", dest + "/tokenmap.json"} }

  ghost predicate MetaStored(st: Store, p: string, id: BackupId) {
    MetaKey(p, id, "manifest.json") in st && MetaKey(p, id, "schema.cql") in st && MetaKey(p, id, "tokenmap.json") in st
  }

  lemma MetaNames()
    ensures Component("manifest.json") && Component("schema.cql") && Component("tokenmap.json")
  {
    assert '/' !in "manifest.json" && '/' !in "schema.cql" && '/' !in "tokenmap.json";
    assert |"manifest.json"| > 1 && |"schema.cql"| > 1 && |"tokenmap.json"| > 1;
  }

  lemma SlashName(dest: string, file: string)
    ensures (dest + "/" + file)[|dest| + 1..] == file
  {
  }

  lemma ThreeFetched(st: Store, dest: string, a: ManifestObject, b: ManifestObject, c: ManifestObject, files: map<string, Body>)
    requires a.path in st && b.path in st && c.path in st
    requires Target(dest, a.path) != Target(dest, b.path) && Target(dest, b.path) != Target(dest, c.path) && Target(dest, a.path) != Target(dest, c.path)
    ensures var r := Fetch(st, dest, [a, b, c], files);
            && r.Some? && r.value.Keys == files.Keys + {Target(dest, a.path), Target(dest, b.path), Target(dest, c.path)}
            && r.value[Target(dest, a.path)] == st[a.path].body && r.value[Target(dest, b.path)] == st[b.path].body
            && r.value[Target(dest, c.path)] == st[c.path].body
            && (forall k :: k in files && k !in {Target(dest, a.path), Target(dest, b.path), Target(dest, c.path)} ==> r.value[k] == files[k])
  {
    hide Target, Fetch;
    var objects := [a, b, c];
    assert forall o :: o in objects <==> o == a || o == b || o == c;
    FetchAll(st, dest, objects, files);
    assert Targets(dest, objects) == {Target(dest, a.path), Target(dest, b.path), Target(dest, c.path)};
  }

  lemma MetaPlacesApart(dest: string)
    ensures dest + "/manifest.json" == dest + "/" + "manifest.json" && dest + "/schema.cql" == dest + "/" + "schema.cql"
    ensures dest + "/tokenmap.json" == dest + "/" + "tokenmap.json"
    ensures dest + "/manifest.json" != dest + "/schema.cql" && dest + "/schema.cql" != dest + "/tokenmap.json"
    ensures dest + "/manifest.json" != dest + "/tokenmap.json"
  {
    assert "/manifest.json"[1] == 'm' && "/schema.cql"[1] == 's' && "/tokenmap.json"[1] == 't';
    assert (dest + "/manifest.json")[|dest| + 1] == 'm' && (dest + "/schema.cql")[|dest| + 1] == 's' && (dest + "/tokenmap.json")[|dest| + 1] == 't';
  }

  /** Downloading the metadata adds exactly the three files. */
  lemma MetadataAdds(st: Store, dest: string, p: string, id: BackupId, files: map<string, Body>)
    requires SimplePrefix(p) && Component(id.fqdn) && Component(id.name) && MetaStored(st, p, id)
    ensures var r := Fetch(st, dest, Metadata(p, id), files);
            && r.Some? && r.value.Keys == files.Keys + MetaPlaces(dest)
            && dest + "/manifest.json" in r.value && r.value[dest + "/manifest.json"] == st[MetaKey(p, id, "manifest.json")].body
            && dest + "/schema.cql" in r.value && r.value[dest + "/schema.cql"] == st[MetaKey(p, id, "schema.cql")].body
            && dest + "/tokenmap.json" in r.value && r.value[dest + "/tokenmap.json"] == st[MetaKey(p, id, "tokenmap.json")].body
            && (forall k :: k in files && k !in MetaPlaces(dest) ==> r.value[k] == files[k])
  {
    MetaNames();
    MetaPlacesApart(dest);
    hide MetaKey, Target, Fetch, Component, SimplePrefix;
    MetaTarget(p, id, dest, "manifest.json");
    MetaTarget(p, id, dest, "schema.cql");
    MetaTarget(p, id, dest, "tokenmap.json");
    ThreeFetched(st, dest, ManifestObject(MetaKey(p, id, "manifest.json"), 0, ""), ManifestObject(MetaKey(p, id, "schema.cql"), 0, ""),
                 ManifestObject(MetaKey(p, id, "tokenmap.json"), 0, ""), files);
  }

  /** Table files never lie directly below the destination. */
  lemma PlaceNotMeta(dest: string, t: Table, f: SnapFile)
    requires GoodTableFiles(t) && GoodFile(f)
    ensures Placed(dest, t, f) !in MetaPlaces(dest)
  {
    MetaNames();
    var rel := Relative(t.keyspace, t.folder, f.sub, f.name);
    RelativeHasSlash(t, f);
    assert Placed(dest, t, f) == dest + "/" + rel;
    SlashName(dest, rel);
    SlashName(dest, "manifest.json");
    SlashName(dest, "schema.cql");
    SlashName(dest, "tokenmap.json");
    assert dest + "/manifest.json" == dest + "/" + "manifest.json" && dest + "/schema.cql" == dest + "/" + "schema.cql"
        && dest + "/tokenmap.json" == dest + "/" + "tokenmap.json";
    hide Relative, Placed;
  }

  lemma RelativeHasSlash(t: Table, f: SnapFile)
    ensures '/' in Relative(t.keyspace, t.folder, f.sub, f.name)
  {
    RelativeSteps(t.keyspace, t.folder, f.sub, f.name);
    hide Relative;
  }

  /** Section i has objects and was asked for. */
  predicate Asked(m: Manifest, fqtns: set<string>, i: nat) {
    i < |m| && m[i].objects != [] && (fqtns == {} || m[i].keyspace + "." + m[i].columnfamily in fqtns)
  }

  /** The folder of a section asked for among the first n. */
  ghost predicate IsFolder(dest: string, m: Manifest, fqtns: set<string>, n: nat, x: string) {
    exists i: nat :: i < n && Asked(m, fqtns, i) && x == dest + "/" + m[i].keyspace + "/" + m[i].columnfamily
  }

  /** A folder below it whose name starts with a dot, in which an object of the section lies. */
  ghost predicate IsHidden(dest: string, m: Manifest, fqtns: set<string>, n: nat, x: string) {
    exists i: nat, o ::
      && i < n && Asked(m, fqtns, i) && o in m[i].objects && "." <= NameUp(ParsePath(o.path), 1)
      && x == dest + "/" + m[i].keyspace + "/" + m[i].columnfamily + "/" + NameUp(ParsePath(o.path), 1)
  }

  lemma FolderStep(dest: string, m: Manifest, fqtns: set<string>, n: nat, x: string)
    requires 0 < n <= |m|
    ensures IsFolder(dest, m, fqtns, n, x) <==>
            IsFolder(dest, m, fqtns, n - 1, x) || (Asked(m, fqtns, n - 1) && x == dest + "/" + m[n - 1].keyspace + "/" + m[n - 1].columnfamily)
    ensures IsHidden(dest, m, fqtns, n, x) <==>
            || IsHidden(dest, m, fqtns, n - 1, x)
            || (Asked(m, fqtns, n - 1)
                && exists o :: o in m[n - 1].objects && "." <= NameUp(ParsePath(o.path), 1)
                               && x == dest + "/" + m[n - 1].keyspace + "/" + m[n - 1].columnfamily + "/" + NameUp(ParsePath(o.path), 1))
  {
    hide Asked, ParsePath, NameUp;
  }

  lemma SectionFolders(st: Store, dest: string, m: Manifest, fqtns: set<string>, n: nat, local: Local, x: string)
    requires 0 < n <= |m| && FetchSection(st, dest, m[n - 1], fqtns, local).Some?
    ensures var r := FetchSection(st, dest, m[n - 1], fqtns, local).value;
            && (x in r.folders <==>
                  x in local.folders || (Asked(m, fqtns, n - 1) && x == dest + "/" + m[n - 1].keyspace + "/" + m[n - 1].columnfamily))
            && (x in r.hidden <==>
                  || x in local.hidden
                  || (Asked(m, fqtns, n - 1)
                      && exists o :: o in m[n - 1].objects && "." <= NameUp(ParsePath(o.path), 1)
                                     && x == dest + "/" + m[n - 1].keyspace + "/" + m[n - 1].columnfamily + "/" + NameUp(ParsePath(o.path), 1)))
  {
    hide Fetch, ParsePath, NameUp;
  }

  lemma {:induction false} FoldersExact(st: Store, dest: string, m: Manifest, fqtns: set<string>, n: nat, x: string)
    requires n <= |m| && FetchUpTo(st, dest, m, fqtns, n).Some?
    ensures var r := FetchUpTo(st, dest, m, fqtns, n).value;
            (x in r.folders <==> IsFolder(dest, m, fqtns, n, x)) && (x in r.hidden <==> IsHidden(dest, m, fqtns, n, x))
  {
    if n == 0 {
      hide ParsePath, NameUp;
    } else {
      hide FetchSection, IsFolder, IsHidden, Asked, ParsePath, NameUp;
      FoldersExact(st, dest, m, fqtns, n - 1, x);
      SectionFolders(st, dest, m, fqtns, n, FetchUpTo(st, dest, m, fqtns, n - 1).value, x);
      FolderStep(dest, m, fqtns, n, x);
    }
  }

  /**
   download_data as a whole: it succeeds when the tables can be fetched and the metadata is stored, makes the
   folders of exactly the sections asked for and the hidden folders their objects lie in, and adds to the
   tables' files exactly manifest.json, schema.cql and tokenmap.json with the contents stored under meta.
   */
  lemma DownloadedExactly(st: Store, dest: string, p: string, id: BackupId, m: Manifest, fqtns: set<string>)
    requires SimplePrefix(p) && Component(id.fqdn) && Component(id.name) && MetaStored(st, p, id)
    requires FetchUpTo(st, dest, m, fqtns, |m|).Some?
    ensures var tables := FetchUpTo(st, dest, m, fqtns, |m|).value.files;
            var r := Downloaded(st, dest, p, id, m, fqtns);
            && r.Some? && r.value.files.Keys == tables.Keys + MetaPlaces(dest)
            && r.value.files[dest + "/manifest.json"] == st[MetaKey(p, id, "manifest.json")].body
            && r.value.files[dest + "/schema.cql"] == st[MetaKey(p, id, "schema.cql")].body
            && r.value.files[dest + "/tokenmap.json"] == st[MetaKey(p, id, "tokenmap.json")].body
            && (forall k :: k in tables && k !in MetaPlaces(dest) ==> r.value.files[k] == tables[k])
            && (forall x :: x in r.value.folders <==> IsFolder(dest, m, fqtns, |m|, x))
            && (forall x :: x in r.value.hidden <==> IsHidden(dest, m, fqtns, |m|, x))
  {
    MetadataAdds(st, dest, p, id, FetchUpTo(st, dest, m, fqtns, |m|).value.files);
    hide FetchUpTo, Fetch, Metadata, MetaKey, IsFolder, IsHidden;
    var local := FetchUpTo(st, dest, m, fqtns, |m|).value;
    forall x ensures (x in local.folders <==> IsFolder(dest, m, fqtns, |m|, x)) && (x in local.hidden <==> IsHidden(dest, m, fqtns, |m|, x)) {
      FoldersExact(st, dest, m, fqtns, |m|, x);
    }
  }
}
