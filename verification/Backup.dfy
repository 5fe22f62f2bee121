/**
 do_backup: listing the pool, uploading, writing the manifest and the finish entries. What verifying and
 downloading rely on holds of the store it leaves behind.
 */
module Backup {
  import opened Text
  import opened IndexNames
  import opened ObjectStorage
  import opened Layout
  import opened TableKeys
  import opened PoolIndex
  import opened Snapshots
  import opened Manifests
  import opened Verify
  import opened Protocol
  import opened Invariant
  import opened ProtocolSafety
  import opened Download

  /** The listing of the pool that a backup starts from; a full backup makes none. */
  function Listed(st: Store, mode: Mode, order: seq<string>): seq<ManifestObject> {
    if mode.Differential? then Items(st, order) else []
  }

  function RunOf(p: string, id: BackupId, mode: Mode, root: seq<string>, tag: string, md5Checks: bool, items: seq<ManifestObject>): Run {
    Run(p, id, mode, root, tag, IndexOf(items), md5Checks)
  }

  /** One text or document written with its size in bytes. */
  function Written(st: Store, key: string, body: Body, size: Body -> nat, now: nat): Store { st[key := Blob(size(body), now, "", body)] }

  function LatestKey(p: string, fqdn: string, file: string): string { Render(p, Latest(fqdn, file)) }

  /** The store after do_backup, given the one before. */
  function BackedUp(st: Store, run: Run, tables: seq<Table>, now: nat, tokenmap: string, size: Body -> nat): Store {
    var m := ManifestOf(run, tables);
    var st1 := Written(PutAll(st, UploadsOf(run, tables), now), MetaKey(run.p, run.id, "manifest.json"), Doc(m), size, now);
    var st2 := Written(st1, IndexedKey(run.p, run.id, IndexNames.Manifest, 0), Doc(m), size, now);
    var st3 := Written(st2, IndexedKey(run.p, run.id, Finished, now), Raw(Decimal(now)), size, now);
    var st4 := Written(st3, LatestKey(run.p, run.id.fqdn, "tokenmap.json"), Raw(tokenmap), size, now);
    Written(st4, LatestKey(run.p, run.id.fqdn, "backup_name.txt"), Raw(run.id.name), size, now)
  }

  /** do_backup on a snapshot; order is the one the driver listed the pool in. */
  method DoBackup(storage: ObjectStore, p: string, id: BackupId, mode: Mode, root: seq<string>, tag: string, tables: seq<Table>,
                  md5Checks: bool, now: nat, tokenmap: string, size: Body -> nat)
    returns (numFiles: nat, replaced: nat, kept: nat, ghost order: seq<string>)
    modifies storage
    ensures mode.Differential? ==> Enumerates(order, ListBlobs(old(storage.blobs), PoolPath(p, id.fqdn) + "/"))
    ensures var run := RunOf(p, id, mode, root, tag, md5Checks, Listed(old(storage.blobs), mode, order));
            && storage.blobs == BackedUp(old(storage.blobs), run, tables, now, tokenmap, size)
            && numFiles == |UploadsOf(run, tables)| && replaced == ReplacedCount(run, tables) && kept == KeptCount(run, tables)
  {
    hide PutAll, UploadsOf, ManifestOf, MetaKey, IndexedKey, LatestKey, IndexOf;
    var items := [];
    order := [];
    if mode.Differential? {
      var names := storage.ListAll(PoolPath(p, id.fqdn) + "/");
      order := names;
      items := Items(storage.blobs, names);
    }
    var index := ListFilesPerTable(items);
    var run := Run(p, id, mode, root, tag, index, md5Checks);
    var manifest;
    manifest, numFiles, replaced, kept := BackupSnapshots(storage, run, tables, now);
    var body := Doc(manifest);
    storage.Put(MetaKey(p, id, "manifest.json"), Blob(size(body), now, "", body));
    storage.Put(IndexedKey(p, id, IndexNames.Manifest, 0), Blob(size(body), now, "", body));
    storage.Put(IndexedKey(p, id, Finished, now), Blob(size(Raw(Decimal(now))), now, "", Raw(Decimal(now))));
    storage.Put(LatestKey(p, id.fqdn, "tokenmap.json"), Blob(size(Raw(tokenmap)), now, "", Raw(tokenmap)));
    storage.Put(LatestKey(p, id.fqdn, "backup_name.txt"), Blob(size(Raw(id.name)), now, "", Raw(id.name)));
  }

  // ---------------------------------------------------------------- the store it leaves behind

  /** What a caller of do_backup provides: names of the site, a store written by the protocol, an ordinary snapshot. */
  ghost predicate Callable(s: Site, st: Store, run: Run, tables: seq<Table>, order: seq<string>) {
    && GoodSite(s) && AllKnown(s, st) && InSite(s, run.id) && run.p == s.p
    && |run.root| >= 1 && GoodTag(run.tag) && OneFilePerPlace(tables) && (forall t :: t in tables ==> GoodTableFiles(t))
    && run.index == IndexOf(Listed(st, run.mode, order))
    && (run.mode.Differential? ==> Enumerates(order, ListBlobs(st, PoolPath(run.p, run.id.fqdn) + "/")))
  }

  lemma CallableUse(s: Site, st: Store, run: Run, tables: seq<Table>, order: seq<string>)
    requires Callable(s, st, run, tables, order)
    ensures GoodSite(s) && AllKnown(s, st) && InSite(s, run.id) && run.p == s.p
    ensures |run.root| >= 1 && GoodTag(run.tag) && OneFilePerPlace(tables) && (forall t :: t in tables ==> GoodTableFiles(t))
    ensures run.index == IndexOf(Listed(st, run.mode, order))
    ensures run.mode.Differential? ==> Enumerates(order, ListBlobs(st, PoolPath(run.p, run.id.fqdn) + "/"))
  {
    hide GoodSite, AllKnown, InSite, GoodTag, OneFilePerPlace, GoodTableFiles, IndexOf, Listed, Enumerates;
  }

  lemma ListedStored(st: Store, mode: Mode, order: seq<string>)
    requires forall i :: 0 <= i < |order| ==> order[i] in st
    ensures ItemsStored(st, Listed(st, mode, order))
  {
  }

  lemma EnumeratedStored(st: Store, order: seq<string>, prefix: string)
    requires Enumerates(order, ListBlobs(st, prefix))
    ensures forall i :: 0 <= i < |order| ==> order[i] in st
  {
  }

  /** The run of a backup on a good site is ready: its index comes from the pool as it is. */
  lemma RunIsReady(s: Site, st: Store, run: Run, tables: seq<Table>, order: seq<string>)
    requires Callable(s, st, run, tables, order)
    ensures ReadyRun(run, Listed(st, run.mode, order), tables, st)
  {
    hide *;
    CallableUse(s, st, run, tables, order);
    SiteComponents(s, run.id);
    InSiteHost(s, run.id);
    RunMakes(run);
    if run.mode.Differential? {
      ItemsAreKnown(s, st, order, run.id.fqdn);
      EnumeratedStored(st, order, PoolPath(run.p, run.id.fqdn) + "/");
      ListedStored(st, run.mode, order);
    } else {
      ListedStored(st, run.mode, []);
    }
    ListedItems(st, run.mode, order);
    ReadyMake(run, Listed(st, run.mode, order), tables, st);
  }

  lemma InSiteHost(s: Site, id: BackupId)
    requires InSite(s, id)
    ensures id.fqdn in s.hosts
  {
  }

  lemma RunMakes(run: Run)
    requires SimplePrefix(run.p) && Component(run.id.fqdn) && Component(run.id.name) && run.p != run.id.fqdn + "/"
    requires |run.root| >= 1 && GoodTag(run.tag)
    ensures GoodRun(run)
  {
    hide SimplePrefix, Component, GoodTag;
  }

  lemma ListedItems(st: Store, mode: Mode, order: seq<string>)
    ensures Listed(st, mode, order) == if mode.Differential? then Items(st, order) else []
    ensures mode.Full? ==> Listed(st, mode, order) == Listed(st, mode, [])
  {
  }

  lemma ReadyMake(run: Run, items: seq<ManifestObject>, tables: seq<Table>, st: Store)
    requires GoodRun(run) && run.index == IndexOf(items) && (forall o :: o in items ==> PoolObject(run.p, run.id.fqdn, o.path))
    requires ItemsStored(st, items) && OneFilePerPlace(tables) && forall t :: t in tables ==> GoodTableFiles(t)
    ensures ReadyRun(run, items, tables, st)
  {
    hide GoodRun, IndexOf, PoolObject, ItemsStored, OneFilePerPlace, GoodTableFiles;
  }

  /** None of the keys written after the data lies in the data folder. */
  lemma OutsideData(s: Site, id: BackupId, mode: Mode, f: KeyForm)
    requires GoodSite(s) && InSite(s, id) && ValidForm(s, f) && !f.Pool? && (f.Own? ==> "meta/" <= f.rest)
    ensures !(DataPath(s.p, id, mode) <= Render(s.p, f))
  {
    hide Render, GoodSite, BackupPath, PoolPath;
    var k := Render(s.p, f);
    if mode.Differential? {
      InSiteHost(s, id);
      PoolPathReaches(s, id.fqdn, f);
      assert DataPath(s.p, id, mode) == PoolPath(s.p, id.fqdn);
    } else {
      BackupPathReaches(s, id, f);
      assert DataPath(s.p, id, mode) == BackupPath(s.p, id) + "/data";
      if DataPath(s.p, id, mode) <= k {
        assert BackupPath(s.p, id) <= k;
        OwnBelowMeta(s, id, f);
      }
    }
  }

  lemma OwnBelowMeta(s: Site, id: BackupId, f: KeyForm)
    requires f.Own? && f.id == id && "meta/" <= f.rest
    ensures !(BackupPath(s.p, id) + "/data" <= Render(s.p, f))
  {
    var base := BackupPath(s.p, id);
    assert Render(s.p, f) == base + "/" + f.rest;
    hide BackupPath, Render;
    var a, b := base + "/data", base + "/" + f.rest;
    assert f.rest[0] == "meta/"[0] == 'm';
    assert a[|base| + 1] == 'd' && b[|base| + 1] == f.rest[0];
  }

  lemma LatestRenders(p: string, fqdn: string, file: string)
    ensures LatestKey(p, fqdn, file) == Render(p, Latest(fqdn, file))
  {
  }

  lemma MetaForm(s: Site, id: BackupId)
    requires InSite(s, id)
    ensures var f := Meta(id, "manifest.json");
            ValidForm(s, f) && f.Own? && "meta/" <= f.rest && Render(s.p, f) == MetaKey(s.p, id, "manifest.json")
  {
    MetaRenders(s.p, id, "manifest.json");
    hide Render, MetaKey;
  }

  lemma EntryForm(s: Site, id: BackupId, kind: Kind, ts: nat)
    requires InSite(s, id)
    ensures ValidForm(s, Entry(id, kind, ts)) && Render(s.p, Entry(id, kind, ts)) == IndexedKey(s.p, id, kind, ts)
  {
    EntryRenders(s.p, Entry(id, kind, ts));
    hide Render, IndexedKey;
  }

  lemma LatestForm(s: Site, fqdn: string, file: string)
    ensures ValidForm(s, Latest(fqdn, file))
  {
  }

  /** What is written after the data changes nothing in the data folder, and the manifest is there. */
  lemma DataStays(st: Store, run: Run, tables: seq<Table>, now: nat, tokenmap: string, size: Body -> nat)
    requires var d := DataPath(run.p, run.id, run.mode);
             && !(d <= MetaKey(run.p, run.id, "manifest.json"))
             && !(d <= IndexedKey(run.p, run.id, IndexNames.Manifest, 0)) && !(d <= IndexedKey(run.p, run.id, Finished, now))
             && !(d <= LatestKey(run.p, run.id.fqdn, "tokenmap.json")) && !(d <= LatestKey(run.p, run.id.fqdn, "backup_name.txt"))
    requires var key := MetaKey(run.p, run.id, "manifest.json");
             && key != IndexedKey(run.p, run.id, IndexNames.Manifest, 0) && key != IndexedKey(run.p, run.id, Finished, now)
             && key != LatestKey(run.p, run.id.fqdn, "tokenmap.json") && key != LatestKey(run.p, run.id.fqdn, "backup_name.txt")
    ensures FreshBackup(run, tables, st, now, BackedUp(st, run, tables, now, tokenmap, size))
  {
    hide PutAll, UploadsOf, ManifestOf, MetaKey, IndexedKey, LatestKey, DataPath;
  }

  lemma ManifestApart(s: Site, id: BackupId, kind: Kind, ts: nat, file: string)
    requires GoodSite(s) && InSite(s, id)
    ensures MetaKey(s.p, id, "manifest.json") != IndexedKey(s.p, id, kind, ts)
    ensures MetaKey(s.p, id, "manifest.json") != LatestKey(s.p, id.fqdn, file)
  {
    hide *;
    MetaForm(s, id);
    EntryForm(s, id, kind, ts);
    LatestForm(s, id.fqdn, file);
    LatestRenders(s.p, id.fqdn, file);
    EntryKeysDiffer(s, id, kind, ts, Meta(id, "manifest.json"));
    MetaBelongs(id, "manifest.json");
    BelongsOwn(Meta(id, "manifest.json"), id, file);
    ForeignKeysDiffer(s, Latest(id.fqdn, file), Meta(id, "manifest.json"), id);
  }

  lemma BelongsOwn(f: KeyForm, id: BackupId, file: string)
    requires f.Own? && f.id == id
    ensures BelongsTo(f, id) && !BelongsTo(Latest(id.fqdn, file), id)
  {
  }

  /**
   On a good site do_backup leaves the store that verifying and downloading start from: the run was ready,
   the manifest is the run's, and the data folder holds what it held before and the uploads.
   */
  lemma DoBackupIsFresh(s: Site, st: Store, run: Run, tables: seq<Table>, order: seq<string>, now: nat, tokenmap: string, size: Body -> nat)
    requires Callable(s, st, run, tables, order)
    ensures ReadyRun(run, Listed(st, run.mode, order), tables, st)
    ensures FreshBackup(run, tables, st, now, BackedUp(st, run, tables, now, tokenmap, size))
  {
    hide *;
    RunIsReady(s, st, run, tables, order);
    CallableUse(s, st, run, tables, order);
    var id := run.id;
    MetaForm(s, id);
    EntryForm(s, id, IndexNames.Manifest, 0);
    EntryForm(s, id, Finished, now);
    LatestForm(s, id.fqdn, "tokenmap.json");
    LatestForm(s, id.fqdn, "backup_name.txt");
    LatestRenders(s.p, id.fqdn, "tokenmap.json");
    LatestRenders(s.p, id.fqdn, "backup_name.txt");
    OutsideData(s, id, run.mode, Meta(id, "manifest.json"));
    OutsideData(s, id, run.mode, Entry(id, IndexNames.Manifest, 0));
    OutsideData(s, id, run.mode, Entry(id, Finished, now));
    OutsideData(s, id, run.mode, Latest(id.fqdn, "tokenmap.json"));
    OutsideData(s, id, run.mode, Latest(id.fqdn, "backup_name.txt"));
    ManifestApart(s, id, IndexNames.Manifest, 0, "tokenmap.json");
    ManifestApart(s, id, Finished, now, "backup_name.txt");
    DataStays(st, run, tables, now, tokenmap, size);
  }

  /** Verifying right after do_backup reports exactly the empty files. */
  lemma DoBackupVerifies(s: Site, st: Store, run: Run, tables: seq<Table>, order: seq<string>, now: nat, tokenmap: string, size: Body -> nat, md5Checks: bool)
    requires Callable(s, st, run, tables, order) && NewName(run, st)
    ensures var after := BackedUp(st, run, tables, now, tokenmap, size);
            forall x :: x in ValidateManifest(after, run.p, run.id, run.mode, md5Checks) <==> x.Missing? && EmptyFile(run, tables, x.path)
  {
    hide *;
    DoBackupIsFresh(s, st, run, tables, order, now, tokenmap, size);
    FreshBackupVerifies(run, Listed(st, run.mode, order), tables, st, now, BackedUp(st, run, tables, now, tokenmap, size), md5Checks);
  }

  /** Downloading right after do_backup gives the snapshot back, from what it uploaded and what it kept. */
  lemma DoBackupDownloads(s: Site, st: Store, run: Run, tables: seq<Table>, order: seq<string>, now: nat, tokenmap: string, size: Body -> nat,
                          dest: string, fqtns: set<string>)
    requires Callable(s, st, run, tables, order) && DistinctTables(tables)
    ensures var r := FetchUpTo(BackedUp(st, run, tables, now, tokenmap, size), dest, ManifestOf(run, tables), fqtns, |tables|);
            && r.Some?
            && (forall k :: k in r.value.files <==> exists i: nat, f :: PlaceUpTo(dest, tables, fqtns, |tables|, i, f, k))
            && ContentBack(run, st, dest, tables, fqtns, r.value.files)
  {
    hide *;
    DoBackupIsFresh(s, st, run, tables, order, now, tokenmap, size);
    BackupThenDownload(run, Listed(st, run.mode, order), tables, st, now, BackedUp(st, run, tables, now, tokenmap, size), dest, fqtns);
  }
}
