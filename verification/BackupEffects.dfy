/**
 What do_backup does to the whole store and what it reports: every blob it writes, everything it leaves
 alone, its counters, and that the index shows the backup as finished afterwards.
 */
module BackupEffects {
  import opened Text
  import opened IndexNames
  import opened ObjectStorage
  import opened Layout
  import opened NodeListing
  import opened TableKeys
  import opened PoolIndex
  import opened Snapshots
  import opened Manifests
  import opened PoolCheck
  import opened Verify
  import opened Protocol
  import opened Invariant
  import opened ProtocolSafety
  import opened Backup
  import Content

  // ---------------------------------------------------------------- the counters

  /** A file the pool has nothing for. */
  ghost function Missing(run: Run, st: Store, t: Table): set<SnapFile> {
    set f | f in t.files && f.name != "manifest.json" && f.name != "schema.cql" && KeyFor(run, t, f) !in st
  }

  /** A file whose object in the pool has another size or, where digests are checked, another digest. */
  ghost function Differing(run: Run, st: Store, t: Table): set<SnapFile> {
    set f | f in t.files && f.name != "manifest.json" && f.name != "schema.cql" && KeyFor(run, t, f) in st
            && (st[KeyFor(run, t, f)].size != f.size || (run.md5Checks && st[KeyFor(run, t, f)].md5 != f.md5))
  }

  /** A file the pool has as it is. */
  ghost function Same(run: Run, st: Store, t: Table): set<SnapFile> {
    set f | f in t.files && f.name != "manifest.json" && f.name != "schema.cql" && KeyFor(run, t, f) in st
            && st[KeyFor(run, t, f)].size == f.size && (run.md5Checks ==> st[KeyFor(run, t, f)].md5 == f.md5)
  }

  ghost function AllFiles(t: Table): set<SnapFile> {
    set f | f in t.files && f.name != "manifest.json" && f.name != "schema.cql"
  }

  /** On a contiguous listing of the pool, what it holds for a key is what the store has. */
  lemma HeldIsStored(st: Store, order: seq<string>, prefix: string, key: string, i: nat)
    requires Enumerates(order, ListBlobs(st, prefix)) && prefix <= key && Contiguous(Items(st, order))
    ensures Held(Items(st, order), key, i) <==> key in st && i < |order| && order[i] == key
    ensures key in st ==> exists j: nat :: j < |order| && order[j] == key
    ensures key in st && i < |order| && order[i] == key ==> Items(st, order)[i] == ManifestObject(key, st[key].size, st[key].md5)
  {
    HeldLast(Items(st, order), key, i);
    hide Contiguous, Held;
    if key in st { assert key in order; }
  }

  lemma KindsStored(run: Run, st: Store, order: seq<string>, t: Table)
    requires GoodRun(run) && GoodTableFiles(t) && run.mode.Differential?
    requires Enumerates(order, ListBlobs(st, PoolPath(run.p, run.id.fqdn) + "/")) && Contiguous(Items(st, order))
    ensures NewFiles(run, Items(st, order), t) == Missing(run, st, t)
    ensures ChangedFiles(run, Items(st, order), t) == Differing(run, st, t)
    ensures KeptFiles(run, Items(st, order), t) == Same(run, st, t)
  {
    hide *;
    var items := Items(st, order);
    forall f | f in t.files
      ensures f in NewFiles(run, items, t) <==> f in Missing(run, st, t)
      ensures f in ChangedFiles(run, items, t) <==> f in Differing(run, st, t)
      ensures f in KeptFiles(run, items, t) <==> f in Same(run, st, t)
    {
      var key := KeyFor(run, t, f);
      KeyInPool(run, t, f);
      FilesExact(run, items, t, f);
      KindParts(run, items, t, f);
      StoredParts(run, st, t, f);
      forall i: nat
        ensures Held(items, key, i) <==> key in st && i < |order| && order[i] == key
        ensures key in st ==> exists j: nat :: j < |order| && order[j] == key
        ensures key in st && i < |order| && order[i] == key ==> i < |items| && items[i] == ManifestObject(key, st[key].size, st[key].md5)
      {
        HeldIsStored(st, order, PoolPath(run.p, run.id.fqdn) + "/", key, i);
        ItemsLength(st, order);
      }
      if key in st {
        var j: nat :| j < |order| && order[j] == key;
        assert Held(items, key, j);
        assert IsKept(run, items, t, f, items[j]) <==> f in Same(run, st, t);
      }
    }
    SubsetsOfFiles(run, items, st, t);
  }

  lemma ItemsLength(st: Store, order: seq<string>)
    ensures |Items(st, order)| == |order|
  {
  }

  lemma SubsetsOfFiles(run: Run, items: seq<ManifestObject>, st: Store, t: Table)
    ensures forall f :: f in NewFiles(run, items, t) || f in ChangedFiles(run, items, t) || f in KeptFiles(run, items, t) ==> f in t.files
    ensures forall f :: f in Missing(run, st, t) || f in Differing(run, st, t) || f in Same(run, st, t) ==> f in t.files
  {
    hide IsNew, IsChanged, IsKept, KeyFor;
  }

  lemma StoredParts(run: Run, st: Store, t: Table, f: SnapFile)
    ensures var eligible := f.name != "manifest.json" && f.name != "schema.cql";
            var key := KeyFor(run, t, f);
            && (f in Missing(run, st, t) <==> f in t.files && eligible && key !in st)
            && (f in Differing(run, st, t) <==>
                  f in t.files && eligible && key in st && (st[key].size != f.size || (run.md5Checks && st[key].md5 != f.md5)))
            && (f in Same(run, st, t) <==>
                  f in t.files && eligible && key in st && st[key].size == f.size && (run.md5Checks ==> st[key].md5 == f.md5))
  {
    hide KeyFor;
  }

  lemma KeyInPool(run: Run, t: Table, f: SnapFile)
    requires GoodRun(run) && GoodTableFiles(t) && f in t.files && run.mode.Differential?
    ensures PoolPath(run.p, run.id.fqdn) + "/" <= KeyFor(run, t, f)
  {
    KeyForShape(run, t, f);
    assert DataPath(run.p, run.id, run.mode) == PoolPath(run.p, run.id.fqdn);
    hide KeyFor, Relative, PoolPath, DataPath;
  }

  lemma FullKinds(run: Run, items: seq<ManifestObject>, t: Table)
    requires run.mode.Full?
    ensures NewFiles(run, items, t) == AllFiles(t) && ChangedFiles(run, items, t) == {} && KeptFiles(run, items, t) == {}
  {
    hide Held, KeyFor;
  }

  /**
   The three counters of do_backup, told from the store it began with: a full backup counts every eligible
   file as uploaded; a differential one, on a contiguous listing, those the pool lacked and those it had
   differently as uploaded, the latter as replaced, and those it had as they are as kept.
   */
  lemma DoBackupCounts(s: Site, st: Store, run: Run, tables: seq<Table>, order: seq<string>)
    requires Callable(s, st, run, tables, order) && (run.mode.Differential? ==> Contiguous(Items(st, order)))
    ensures run.mode.Full? ==> |UploadsOf(run, tables)| == Total(tables, t => AllFiles(t)) && ReplacedCount(run, tables) == KeptCount(run, tables) == 0
    ensures run.mode.Differential? ==>
              && |UploadsOf(run, tables)| == Total(tables, t => Missing(run, st, t)) + Total(tables, t => Differing(run, st, t))
              && ReplacedCount(run, tables) == Total(tables, t => Differing(run, st, t))
              && KeptCount(run, tables) == Total(tables, t => Same(run, st, t))
  {
    hide *;
    var items := Backup.Listed(st, run.mode, order);
    RunIsReady(s, st, run, tables, order);
    CallableUse(s, st, run, tables, order);
    ReadyUse(run, items, tables, st);
    ListedItems(st, run.mode, order);
    CountersExact(run, items, tables);
    if run.mode.Full? {
      forall t | t in tables
        ensures NewFiles(run, items, t) == AllFiles(t) && ChangedFiles(run, items, t) == {} && KeptFiles(run, items, t) == {} { FullKinds(run, items, t); }
      TotalSame(tables, t => NewFiles(run, items, t), t => AllFiles(t));
      TotalNothing(tables, t => ChangedFiles(run, items, t));
      TotalNothing(tables, t => KeptFiles(run, items, t));
    } else {
      forall t | t in tables
        ensures NewFiles(run, items, t) == Missing(run, st, t) && ChangedFiles(run, items, t) == Differing(run, st, t)
        ensures KeptFiles(run, items, t) == Same(run, st, t)
      {
        KindsStored(run, st, order, t);
      }
      TotalSame(tables, t => NewFiles(run, items, t), t => Missing(run, st, t));
      TotalSame(tables, t => ChangedFiles(run, items, t), t => Differing(run, st, t));
      TotalSame(tables, t => KeptFiles(run, items, t), t => Same(run, st, t));
    }
  }

  // ---------------------------------------------------------------- every blob it writes

  ghost predicate Holds(st: Store, key: string, body: Body, size: Body -> nat, now: nat) {
    key in st && st[key] == Blob(size(body), now, "", body)
  }

  function LatestTokenmap(p: string, fqdn: string): string { p + "index/latest_backup/" + fqdn + "/tokenmap.json" }

  function LatestName(p: string, fqdn: string): string { p + "index/latest_backup/" + fqdn + "/backup_name.txt" }

  lemma LatestIs(p: string, fqdn: string)
    ensures LatestKey(p, fqdn, "tokenmap.json") == LatestTokenmap(p, fqdn) && LatestKey(p, fqdn, "backup_name.txt") == LatestName(p, fqdn)
    ensures LatestTokenmap(p, fqdn) != LatestName(p, fqdn)
  {
    var base := p + "index/latest_backup/" + fqdn + "/";
    assert LatestTokenmap(p, fqdn) == base + "tokenmap.json" && LatestName(p, fqdn) == base + "backup_name.txt";
    assert LatestTokenmap(p, fqdn)[|base|] == 't' && LatestName(p, fqdn)[|base|] == 'b';
  }

  /** The keys of the manifest, the two index entries and the two markers. */
  function Closing(p: string, id: BackupId, now: nat): set<string> {
    {MetaKey(p, id, "manifest.json"), IndexedKey(p, id, IndexNames.Manifest, 0), IndexedKey(p, id, Finished, now),
     LatestTokenmap(p, id.fqdn), LatestName(p, id.fqdn)}
  }

  ghost predicate ClosingHeld(st: Store, run: Run, tables: seq<Table>, now: nat, tokenmap: string, size: Body -> nat) {
    && Holds(st, MetaKey(run.p, run.id, "manifest.json"), Doc(ManifestOf(run, tables)), size, now)
    && Holds(st, IndexedKey(run.p, run.id, IndexNames.Manifest, 0), Doc(ManifestOf(run, tables)), size, now)
    && Holds(st, IndexedKey(run.p, run.id, Finished, now), Raw(Decimal(now)), size, now)
    && Holds(st, LatestTokenmap(run.p, run.id.fqdn), Raw(tokenmap), size, now)
    && Holds(st, LatestName(run.p, run.id.fqdn), Raw(run.id.name), size, now)
  }

  lemma ClosingParts(st: Store, run: Run, tables: seq<Table>, now: nat, tokenmap: string, size: Body -> nat)
    ensures ClosingHeld(st, run, tables, now, tokenmap, size) <==>
            && Holds(st, MetaKey(run.p, run.id, "manifest.json"), Doc(ManifestOf(run, tables)), size, now)
            && Holds(st, IndexedKey(run.p, run.id, IndexNames.Manifest, 0), Doc(ManifestOf(run, tables)), size, now)
            && Holds(st, IndexedKey(run.p, run.id, Finished, now), Raw(Decimal(now)), size, now)
            && Holds(st, LatestTokenmap(run.p, run.id.fqdn), Raw(tokenmap), size, now)
            && Holds(st, LatestName(run.p, run.id.fqdn), Raw(run.id.name), size, now)
  {
    hide Holds, MetaKey, IndexedKey, ManifestOf, LatestTokenmap, LatestName;
  }

  /** The five keys are five. */
  lemma ClosingApart(s: Site, id: BackupId, now: nat)
    requires GoodSite(s) && InSite(s, id)
    ensures var key := MetaKey(s.p, id, "manifest.json");
            var entry, finish := IndexedKey(s.p, id, IndexNames.Manifest, 0), IndexedKey(s.p, id, Finished, now);
            var latest, name := LatestTokenmap(s.p, id.fqdn), LatestName(s.p, id.fqdn);
            && key != entry && key != finish && key != latest && key != name
            && entry != finish && entry != latest && entry != name && finish != latest && finish != name && latest != name
  {
    hide *;
    LatestIs(s.p, id.fqdn);
    EntryForm(s, id, IndexNames.Manifest, 0);
    EntryForm(s, id, Finished, now);
    LatestForm(s, id.fqdn, "tokenmap.json");
    LatestForm(s, id.fqdn, "backup_name.txt");
    LatestRenders(s.p, id.fqdn, "tokenmap.json");
    LatestRenders(s.p, id.fqdn, "backup_name.txt");
    ManifestApart(s, id, IndexNames.Manifest, 0, "tokenmap.json");
    ManifestApart(s, id, Finished, now, "backup_name.txt");
    EntryKeysDiffer(s, id, IndexNames.Manifest, 0, Entry(id, Finished, now));
    EntryKeysDiffer(s, id, IndexNames.Manifest, 0, Latest(id.fqdn, "tokenmap.json"));
    EntryKeysDiffer(s, id, IndexNames.Manifest, 0, Latest(id.fqdn, "backup_name.txt"));
    EntryKeysDiffer(s, id, Finished, now, Latest(id.fqdn, "tokenmap.json"));
    EntryKeysDiffer(s, id, Finished, now, Latest(id.fqdn, "backup_name.txt"));
  }

  /** What the last five writes do. */
  lemma ClosingWritten(st: Store, run: Run, tables: seq<Table>, now: nat, tokenmap: string, size: Body -> nat)
    requires var key := MetaKey(run.p, run.id, "manifest.json");
             var entry, finish := IndexedKey(run.p, run.id, IndexNames.Manifest, 0), IndexedKey(run.p, run.id, Finished, now);
             var latest, name := LatestTokenmap(run.p, run.id.fqdn), LatestName(run.p, run.id.fqdn);
             && key != entry && key != finish && key != latest && key != name
             && entry != finish && entry != latest && entry != name && finish != latest && finish != name && latest != name
    ensures var st', uploaded := BackedUp(st, run, tables, now, tokenmap, size), PutAll(st, UploadsOf(run, tables), now);
            && ClosingHeld(st', run, tables, now, tokenmap, size)
            && forall k :: k !in Closing(run.p, run.id, now) ==> (k in st' <==> k in uploaded) && (k in uploaded ==> st'[k] == uploaded[k])
  {
    LatestIs(run.p, run.id.fqdn);
    hide PutAll, UploadsOf, ManifestOf, MetaKey, IndexedKey, LatestKey, LatestTokenmap, LatestName, Decimal;
  }

  lemma ToUploadExact(run: Run, items: seq<ManifestObject>, t: Table, f: SnapFile)
    requires GoodRun(run) && IndexedFrom(run, items) && GoodTableFiles(t) && f in t.files
    ensures ToUpload(run, t, f) <==> IsNew(run, items, t, f) || IsChanged(run, items, t, f)
  {
    assert GoodFile(f);
    hide GoodRun, IndexedFrom, GoodTable, Judge, IsNew, IsChanged, IsKept;
    JudgeExact(run, items, t, f);
  }

  /** The key is that of a file the backup uploads: one the pool lacks or has differently. */
  ghost predicate UploadedKey(run: Run, items: seq<ManifestObject>, tables: seq<Table>, k: string) {
    exists t, f :: t in tables && f in t.files && (IsNew(run, items, t, f) || IsChanged(run, items, t, f)) && k == KeyFor(run, t, f)
  }

  lemma OtherKeysStay(run: Run, items: seq<ManifestObject>, tables: seq<Table>, st: Store, now: nat, k: string)
    requires GoodRun(run) && IndexedFrom(run, items) && (forall t :: t in tables ==> GoodTableFiles(t)) && !UploadedKey(run, items, tables, k)
    ensures var uploaded := PutAll(st, UploadsOf(run, tables), now);
            (k in uploaded <==> k in st) && (k in st ==> uploaded[k] == st[k])
  {
    UploadsMember(run, tables);
    hide *;
    forall u | u in UploadsOf(run, tables) ensures u.key != k {
      var t, f := UploadedWitness(run, tables, u);
      ToUploadExact(run, items, t, f);
      if u.key == k { KeyUploaded(run, items, tables, t, f); }
    }
    PutAllMisses(st, UploadsOf(run, tables), now, k);
  }

  lemma KeyUploaded(run: Run, items: seq<ManifestObject>, tables: seq<Table>, t: Table, f: SnapFile)
    requires t in tables && f in t.files && (IsNew(run, items, t, f) || IsChanged(run, items, t, f))
    ensures UploadedKey(run, items, tables, KeyFor(run, t, f))
  {
    hide IsNew, IsChanged, KeyFor;
  }

  /**
   The store after do_backup, blob by blob, on a good site: each new or changed file is at its key with its
   size, digest and content, the manifest is in its place and in the index beside the finish entry, the
   markers of the latest backup say which it is and carry its tokenmap, and nothing else has changed.
   */
  lemma DoBackupWrites(s: Site, st: Store, run: Run, tables: seq<Table>, order: seq<string>, now: nat, tokenmap: string, size: Body -> nat)
    requires Callable(s, st, run, tables, order)
    ensures var st', items := BackedUp(st, run, tables, now, tokenmap, size), Backup.Listed(st, run.mode, order);
            && (forall t, f :: t in tables && f in t.files && (IsNew(run, items, t, f) || IsChanged(run, items, t, f)) ==>
                  KeyFor(run, t, f) in st' && st'[KeyFor(run, t, f)] == Blob(f.size, now, f.md5, Raw(f.data)))
            && ClosingHeld(st', run, tables, now, tokenmap, size)
            && (forall k :: k !in Closing(run.p, run.id, now) && !UploadedKey(run, items, tables, k) ==>
                  (k in st' <==> k in st) && (k in st ==> st'[k] == st[k]))
  {
    hide *;
    var st', items := BackedUp(st, run, tables, now, tokenmap, size), Backup.Listed(st, run.mode, order);
    CallableUse(s, st, run, tables, order);
    DoBackupIsFresh(s, st, run, tables, order, now, tokenmap, size);
    ReadyUse(run, items, tables, st);
    ClosingApart(s, run.id, now);
    ClosingWritten(st, run, tables, now, tokenmap, size);
    forall t, f | t in tables && f in t.files && (IsNew(run, items, t, f) || IsChanged(run, items, t, f))
      ensures KeyFor(run, t, f) in st' && st'[KeyFor(run, t, f)] == Blob(f.size, now, f.md5, Raw(f.data))
    {
      ToUploadExact(run, items, t, f);
      UploadsEligible(run, t, f);
      FileIsGood(t, f);
      FileStored(run, items, tables, st, now, t, f);
      KeyUnderData(run, t, f);
      FreshData(run, tables, st, now, st', KeyFor(run, t, f));
    }
    forall k | k !in Closing(run.p, run.id, now) && !UploadedKey(run, items, tables, k)
      ensures (k in st' <==> k in st) && (k in st ==> st'[k] == st[k])
    {
      OtherKeysStay(run, items, tables, st, now, k);
    }
  }

  lemma UploadsEligible(run: Run, t: Table, f: SnapFile)
    requires ToUpload(run, t, f)
    ensures Eligible(f)
  {
    hide SanitizeLocal, Find, LocalPath;
  }

  lemma FreshData(run: Run, tables: seq<Table>, before: Store, now: nat, st: Store, k: string)
    requires FreshBackup(run, tables, before, now, st) && DataPath(run.p, run.id, run.mode) <= k
    ensures var uploaded := PutAll(before, UploadsOf(run, tables), now); (k in st <==> k in uploaded) && (k in st ==> st[k] == uploaded[k])
  {
    hide DataPath, PutAll, UploadsOf, ManifestOf, MetaKey;
  }

  // ---------------------------------------------------------------- the index afterwards

  lemma FormKnown(s: Site, f: KeyForm)
    requires ValidForm(s, f) && (f.Entry? ==> f.kind != Incremental) && (f.Pool? ==> PoolObject(s.p, f.fqdn, Render(s.p, f)))
    ensures Known(s, Render(s.p, f))
  {
    hide Render, PoolObject, ValidForm;
  }

  lemma DataKnown(s: Site, id: BackupId, mode: Mode, path: string)
    requires DataKey(s, id, mode, path)
    ensures Known(s, path)
  {
    hide Render, PoolObject, ValidForm;
    var f :| DataForm(s, id, mode, path, f);
  }

  lemma ClosingMember(p: string, id: BackupId, now: nat, k: string)
    ensures k in Closing(p, id, now) <==>
            || k == MetaKey(p, id, "manifest.json") || k == IndexedKey(p, id, IndexNames.Manifest, 0) || k == IndexedKey(p, id, Finished, now)
            || k == LatestTokenmap(p, id.fqdn) || k == LatestName(p, id.fqdn)
  {
    hide MetaKey, IndexedKey, LatestTokenmap, LatestName;
  }

  lemma ClosingKnown(s: Site, id: BackupId, now: nat, k: string)
    requires GoodSite(s) && InSite(s, id) && k in Closing(s.p, id, now)
    ensures Known(s, k)
  {
    hide *;
    ClosingMember(s.p, id, now, k);
    MetaForm(s, id);
    EntryForm(s, id, IndexNames.Manifest, 0);
    EntryForm(s, id, Finished, now);
    LatestIs(s.p, id.fqdn);
    LatestForm(s, id.fqdn, "tokenmap.json");
    LatestForm(s, id.fqdn, "backup_name.txt");
    LatestRenders(s.p, id.fqdn, "tokenmap.json");
    LatestRenders(s.p, id.fqdn, "backup_name.txt");
    FormKnown(s, Meta(id, "manifest.json"));
    FormKnown(s, Entry(id, IndexNames.Manifest, 0));
    FormKnown(s, Entry(id, Finished, now));
    FormKnown(s, Latest(id.fqdn, "tokenmap.json"));
    FormKnown(s, Latest(id.fqdn, "backup_name.txt"));
  }

  lemma UploadKnown(s: Site, run: Run, items: seq<ManifestObject>, tables: seq<Table>, k: string)
    requires GoodSite(s) && InSite(s, run.id) && run.p == s.p && GoodRun(run) && (forall t :: t in tables ==> GoodTableFiles(t))
    requires UploadedKey(run, items, tables, k)
    ensures Known(s, k) && DataPath(run.p, run.id, run.mode) <= k
  {
    hide GoodSite, InSite, GoodRun, GoodTableFiles, KeyFor, IsNew, IsChanged, DataKey, Known, DataPath;
    var t, f :| t in tables && f in t.files && (IsNew(run, items, t, f) || IsChanged(run, items, t, f)) && k == KeyFor(run, t, f);
    Content.FileIsData(s, run, t, f);
    DataKnown(s, run.id, run.mode, k);
    FileIsGood(t, f);
    KeyUnderData(run, t, f);
  }

  lemma KnownAfter(s: Site, st: Store, run: Run, tables: seq<Table>, order: seq<string>, now: nat, tokenmap: string, size: Body -> nat)
    requires Callable(s, st, run, tables, order)
    ensures AllKnown(s, BackedUp(st, run, tables, now, tokenmap, size))
  {
    hide *;
    var st', items := BackedUp(st, run, tables, now, tokenmap, size), Backup.Listed(st, run.mode, order);
    CallableUse(s, st, run, tables, order);
    RunIsReady(s, st, run, tables, order);
    ReadyUse(run, items, tables, st);
    DoBackupWrites(s, st, run, tables, order, now, tokenmap, size);
    forall k | k in st' ensures Known(s, k) {
      if k in Closing(run.p, run.id, now) {
        ClosingKnown(s, run.id, now, k);
      } else if UploadedKey(run, items, tables, k) {
        UploadKnown(s, run, items, tables, k);
      } else {
        KnownIn(s, st, k);
      }
    }
    KnownAll(s, st');
  }

  lemma KnownIn(s: Site, st: Store, k: string)
    requires AllKnown(s, st) && k in st
    ensures Known(s, k)
  {
    hide Known;
  }

  lemma KnownAll(s: Site, st: Store)
    requires forall k :: k in st ==> Known(s, k)
    ensures AllKnown(s, st)
  {
    hide Known;
  }

  /** A text that is not empty has bytes. */
  ghost predicate Measures(size: Body -> nat) { forall text: string :: text != "" ==> size(Raw(text)) > 0 }

  /** Outside what it writes, a backup's index entries and its schema are as before. */
  lemma EntryStays(s: Site, st: Store, run: Run, tables: seq<Table>, order: seq<string>, now: nat, tokenmap: string, size: Body -> nat, f: KeyForm)
    requires Callable(s, st, run, tables, order) && ValidForm(s, f)
    requires (f.Entry? && f.id == run.id && f.kind != IndexNames.Manifest && f.kind != Finished) || f == Meta(run.id, "schema.cql")
             || (f.Entry? && f.id == run.id && f.kind == Finished && Render(s.p, f) != IndexedKey(s.p, run.id, Finished, now))
    ensures var st' := BackedUp(st, run, tables, now, tokenmap, size);
            (Render(s.p, f) in st' <==> Render(s.p, f) in st) && (Render(s.p, f) in st ==> st'[Render(s.p, f)] == st[Render(s.p, f)])
  {
    hide *;
    var items, k := Backup.Listed(st, run.mode, order), Render(s.p, f);
    CallableUse(s, st, run, tables, order);
    RunIsReady(s, st, run, tables, order);
    ReadyUse(run, items, tables, st);
    DoBackupWrites(s, st, run, tables, order, now, tokenmap, size);
    MetaBelongs(run.id, "schema.cql");
    NotPool(s, run.id, f);
    OutsideData(s, run.id, run.mode, f);
    if UploadedKey(run, items, tables, k) { UploadKnown(s, run, items, tables, k); }
    if k in Closing(run.p, run.id, now) { StaysOpen(s, run.id, now, f); }
  }

  lemma NotPool(s: Site, id: BackupId, f: KeyForm)
    requires f.Entry? || f == Meta(id, "schema.cql")
    ensures !f.Pool? && (f.Own? ==> "meta/" <= f.rest)
  {
  }

  lemma StaysOpen(s: Site, id: BackupId, now: nat, f: KeyForm)
    requires GoodSite(s) && InSite(s, id) && ValidForm(s, f)
    requires (f.Entry? && f.id == id && f.kind != IndexNames.Manifest && f.kind != Finished) || f == Meta(id, "schema.cql")
             || (f.Entry? && f.id == id && f.kind == Finished && Render(s.p, f) != IndexedKey(s.p, id, Finished, now))
    ensures Render(s.p, f) !in Closing(s.p, id, now)
  {
    hide *;
    ClosingMember(s.p, id, now, Render(s.p, f));
    MetaForm(s, id);
    EntryForm(s, id, IndexNames.Manifest, 0);
    EntryForm(s, id, Finished, now);
    LatestIs(s.p, id.fqdn);
    LatestForm(s, id.fqdn, "tokenmap.json");
    LatestForm(s, id.fqdn, "backup_name.txt");
    LatestRenders(s.p, id.fqdn, "tokenmap.json");
    LatestRenders(s.p, id.fqdn, "backup_name.txt");
    MetaBelongs(id, "schema.cql");
    if f.Entry? {
      EntryIs(f);
      EntryKeysDiffer(s, id, f.kind, f.ts, Meta(id, "manifest.json"));
      EntryKeysDiffer(s, id, f.kind, f.ts, Latest(id.fqdn, "tokenmap.json"));
      EntryKeysDiffer(s, id, f.kind, f.ts, Latest(id.fqdn, "backup_name.txt"));
      EntryKeysDiffer(s, id, IndexNames.Manifest, 0, f);
      if f.kind != Finished { EntryKeysDiffer(s, id, Finished, now, f); }
    } else {
      EntryKeysDiffer(s, id, IndexNames.Manifest, 0, f);
      EntryKeysDiffer(s, id, Finished, now, f);
      SchemaApart(s, id);
    }
  }

  lemma EntryIs(f: KeyForm)
    requires f.Entry?
    ensures f == Entry(f.id, f.kind, f.ts)
  {
  }

  lemma SchemaApart(s: Site, id: BackupId)
    requires GoodSite(s) && InSite(s, id)
    ensures var k := Render(s.p, Meta(id, "schema.cql"));
            k != Render(s.p, Meta(id, "manifest.json")) && k != LatestKey(s.p, id.fqdn, "tokenmap.json") && k != LatestKey(s.p, id.fqdn, "backup_name.txt")
  {
    HeadFilesDiffer();
    MetaFilesDiffer(id, "schema.cql", "manifest.json");
    OwnKeysDiffer(s.p, id, "meta/" + "schema.cql", "meta/" + "manifest.json");
    hide Render, GoodSite;
    OwnIsValid(s, id, "schema.cql");
    MetaBelongs(id, "schema.cql");
    LatestRenders(s.p, id.fqdn, "tokenmap.json");
    LatestRenders(s.p, id.fqdn, "backup_name.txt");
    ForeignKeysDiffer(s, Latest(id.fqdn, "tokenmap.json"), Meta(id, "schema.cql"), id);
    ForeignKeysDiffer(s, Latest(id.fqdn, "backup_name.txt"), Meta(id, "schema.cql"), id);
  }

  lemma SameStamp(s: Site, id: BackupId, a: nat, b: nat)
    requires GoodSite(s) && InSite(s, id) && IndexedKey(s.p, id, Finished, a) == IndexedKey(s.p, id, Finished, b)
    ensures a == b
  {
    hide IndexKey;
    TimestampRoundTrip(s.p, id.name, Finished, id.fqdn, a);
    TimestampRoundTrip(s.p, id.name, Finished, id.fqdn, b);
  }

  lemma NonEmptyListed(s: Site, st: Store, f: KeyForm)
    requires GoodSite(s) && f.Entry? && ValidForm(s, f) && Render(s.p, f) in st && st[Render(s.p, f)].size > 0
    ensures Render(s.p, f) in ListObjects(st, IndexRoot(s.p))
  {
    hide Render, GoodSite, IndexRoot, ValidForm;
    IndexRootReaches(s, f);
  }

  lemma ListedStored(st: Store, prefix: string, k: string)
    requires k in ListObjects(st, prefix)
    ensures k in st && st[k].size > 0
  {
  }

  lemma FinishedAt(s: Site, st: Store, nb: NodeBackup, now: nat)
    requires GoodSite(s) && ReadsBack(s, st, nb) && IndexedKey(s.p, nb.id, Finished, now) in ListObjects(st, IndexRoot(s.p))
    requires forall ts :: IndexedKey(s.p, nb.id, Finished, ts) in st ==> ts == now
    ensures nb.finished == Some(now)
  {
    hide IndexedKey, IndexRoot, MetaKey, GoodSite;
  }

  /**
   do_backup finishes the backup: if the index held its start entries, its schema was stored and it had no
   finish entry, then every listing afterwards, of the host or of all, in any driver order, shows it as
   finished at the moment do_backup wrote.
   */
  lemma DoBackupFinishes(s: Site, st: Store, run: Run, tables: seq<Table>, order: seq<string>, now: nat, tokenmap: string, size: Body -> nat,
                         index: seq<string>, fqdn: Option<string>)
    requires Callable(s, st, run, tables, order) && Measures(size) && (fqdn == None || fqdn == Some(run.id.fqdn))
    requires IndexedKey(s.p, run.id, Tokenmap, 0) in ListObjects(st, IndexRoot(s.p)) && NodeListing.Exists(st, s.p, run.id)
    requires forall ts :: IndexedKey(s.p, run.id, Finished, ts) !in st
    requires Enumerates(index, ListObjects(BackedUp(st, run, tables, now, tokenmap, size), IndexRoot(s.p)))
    ensures var r := ListNodeBackups(BackedUp(st, run, tables, now, tokenmap, size), s.p, index, fqdn);
            r.Listed? && exists nb :: nb in r.backups && nb.id == run.id && nb.finished == Some(now)
  {
    hide *;
    var st', id := BackedUp(st, run, tables, now, tokenmap, size), run.id;
    CallableUse(s, st, run, tables, order);
    KnownAfter(s, st, run, tables, order, now, tokenmap, size);
    DoBackupWrites(s, st, run, tables, order, now, tokenmap, size);
    ClosingParts(st', run, tables, now, tokenmap, size);
    FinishHeld(s, st', id, now, size);
    EntryForm(s, id, Tokenmap, 0);
    EntryStays(s, st, run, tables, order, now, tokenmap, size, Entry(id, Tokenmap, 0));
    ListedStored(st, IndexRoot(s.p), IndexedKey(s.p, id, Tokenmap, 0));
    NonEmptyListed(s, st', Entry(id, Tokenmap, 0));
    OwnIsValid(s, id, "schema.cql");
    SchemaExists(s, st, id);
    SchemaExists(s, st', id);
    StoredMeans(s, st, Meta(id, "schema.cql"));
    StoredMeans(s, st', Meta(id, "schema.cql"));
    EntryStays(s, st, run, tables, order, now, tokenmap, size, Meta(id, "schema.cql"));
    forall ts | IndexedKey(s.p, id, Finished, ts) in st' ensures ts == now {
      EntryForm(s, id, Finished, ts);
      if IndexedKey(s.p, id, Finished, ts) == IndexedKey(s.p, id, Finished, now) {
        SameStamp(s, id, ts, now);
      } else {
        EntryStays(s, st, run, tables, order, now, tokenmap, size, Entry(id, Finished, ts));
      }
    }
    KnownIndex(s, st');
    GoodTellsApart(s, st');
    ListingRoundTrip(s, st', index, fqdn);
    SelectedBy(s.p, id, fqdn);
    var nb :| nb in ListNodeBackups(st', s.p, index, fqdn).backups && nb.id == id;
    FinishedAt(s, st', nb, now);
  }

  lemma FinishHeld(s: Site, st: Store, id: BackupId, now: nat, size: Body -> nat)
    requires GoodSite(s) && InSite(s, id) && Measures(size) && Holds(st, IndexedKey(s.p, id, Finished, now), Raw(Decimal(now)), size, now)
    ensures IndexedKey(s.p, id, Finished, now) in ListObjects(st, IndexRoot(s.p))
  {
    EntryForm(s, id, Finished, now);
    hide GoodSite, Render, IndexedKey, IndexRoot, InSite;
    assert Decimal(now) != "";
    NonEmptyListed(s, st, Entry(id, Finished, now));
  }
}
