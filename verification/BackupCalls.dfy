/**
 do_backup as a run of the protocol: one listing of the pool, the uploads one after the other, the manifest,
 the finish entries and the markers of the latest backup.
 */
module BackupCalls {
  import opened Text
  import opened IndexNames
  import opened ObjectStorage
  import opened Layout
  import opened TableKeys
  import opened PoolIndex
  import opened Snapshots
  import opened Manifests
  import opened Verify
  import opened Protocol
  import opened Invariant
  import opened ProtocolSafety
  import opened PurgeCalls
  import opened Backup
  import opened BackupEffects
  import Purge

  // ---------------------------------------------------------------- the listing

  /** What a caller of do_backup provides, in the middle of a run of the protocol: start_backup is through. */
  ghost predicate Ready(s: Site, w: World, id: BackupId, order: seq<string>, root: seq<string>, tag: string, tables: seq<Table>) {
    && GoodSite(s) && Inv(s, w) && id in w.running && w.running[id].Starting?
    && w.running[id].done == |Head(id, w.running[id].mode, w.running[id].started)|
    && Enumerates(order, ListBlobs(w.store, PoolPath(s.p, id.fqdn) + "/"))
    && |root| >= 1 && GoodTag(tag) && OneFilePerPlace(tables) && (forall t :: t in tables ==> GoodTableFiles(t))
    && (forall j :: j in w.sweeps ==> w.sweeps[j].fqdn != id.fqdn)
  }

  function ListingOf(id: BackupId, order: seq<string>, root: seq<string>, tag: string, tables: seq<Table>, md5Checks: bool): Action {
    ListPool(id, order, root, tag, tables, md5Checks)
  }

  /** The run that the do_backup method works with. */
  function CallRun(s: Site, w: World, id: BackupId, order: seq<string>, root: seq<string>, tag: string, md5Checks: bool): Run
    requires id in w.running && w.running[id].Starting?
  {
    var mode := w.running[id].mode;
    RunOf(s.p, id, mode, root, tag, md5Checks, Backup.Listed(w.store, mode, order))
  }

  /** The process once the pool is listed, with the uploads us still to do. */
  ghost predicate Underway(w: World, id: BackupId, run: Run, tables: seq<Table>, us: set<Upload>) {
    && id in w.running && w.running[id].Uploading? && w.running[id].mode == run.mode && w.running[id].pending == us
    && w.running[id].manifest == ManifestOf(run, tables)
  }

  lemma ListingStep(s: Site, w: World, id: BackupId, order: seq<string>, root: seq<string>, tag: string, tables: seq<Table>, md5Checks: bool)
    requires Ready(s, w, id, order, root, tag, tables)
    ensures id in w.running && w.running[id].Starting?
    ensures var a, run := ListingOf(id, order, root, tag, tables, md5Checks), CallRun(s, w, id, order, root, tag, md5Checks);
            && Allowed(s, w, a) && Enabled(s, w, a)
            && var w1 := Apply(s, w, a);
               w1.store == w.store && w1.clock == w.clock && w1.disturbed == w.disturbed && w1.live == w.live
               && Underway(w1, id, run, tables, PendingOf(run, tables))
  {
    hide Inv, GoodSite, Head, Enumerates, ListBlobs, GoodTag, OneFilePerPlace, GoodTableFiles, ManifestOf, PendingOf, KeptOf, IndexOf, Items, Purge.ManifestPaths;
    var a := ListingOf(id, order, root, tag, tables, md5Checks);
    assert Enabled(s, w, a) && NotOverlapping(w, a);
    SequentialAllowed(s, w, a);
    var mode := w.running[id].mode;
    assert RunFor(s, w, a, mode) == CallRun(s, w, id, order, root, tag, md5Checks);
  }

  // ---------------------------------------------------------------- the uploads

  lemma SendOne(s: Site, w: World, id: BackupId, run: Run, tables: seq<Table>, us: set<Upload>, u: Upload)
    requires Underway(w, id, run, tables, us) && u in us
    ensures Allowed(s, w, Send(id, u)) && Enabled(s, w, Send(id, u))
    ensures var w' := Apply(s, w, Send(id, u));
            && w'.store == w.store[u.key := BlobOf(u, w.clock)] && w'.clock == w.clock && w'.disturbed == w.disturbed && w'.live == w.live
            && Underway(w', id, run, tables, us - {u})
  {
    hide BlobOf, ManifestOf;
  }

  function Rest(us: seq<Upload>, n: nat): set<Upload>
    requires n <= |us|
  {
    (set u | u in us) - (set u | u in us[..n])
  }

  lemma RestStep(us: seq<Upload>, n: nat)
    requires n < |us|
    ensures us[..n + 1][..n] == us[..n] && us[..n + 1][n] == us[n]
    ensures Rest(us, n + 1) == Rest(us, n) - {us[n]}
    ensures us[n] in Rest(us, n) <==> us[n] !in us[..n]
  {
    assert us[..n + 1] == us[..n] + [us[n]];
  }

  lemma PutStep(st: Store, us: seq<Upload>, n: nat, now: nat)
    requires n < |us|
    ensures PutAll(st, us[..n + 1], now) == PutAll(st, us[..n], now)[us[n].key := BlobOf(us[n], now)]
  {
    assert us[..n + 1][..n] == us[..n] && us[..n + 1][n] == us[n];
    hide BlobOf;
  }

  /** A file that is in the list twice is uploaded once. */
  lemma PutAgain(st: Store, us: seq<Upload>, n: nat, now: nat)
    requires n < |us| && us[n] in us[..n] && forall u, v :: u in us && v in us && u.key == v.key ==> u == v
    ensures PutAll(st, us[..n + 1], now) == PutAll(st, us[..n], now)
  {
    PutStep(st, us, n, now);
    hide BlobOf, PutAll;
    assert forall u :: u in us[..n] ==> u in us;
    PutAllHits(st, us[..n], now, us[n]);
  }

  lemma {:induction false} SendFirst(s: Site, w: World, id: BackupId, run: Run, tables: seq<Table>, us: seq<Upload>, n: nat) returns (acts: seq<Action>)
    requires n <= |us| && (forall u, v :: u in us && v in us && u.key == v.key ==> u == v)
    requires Underway(w, id, run, tables, set u | u in us)
    ensures ValidRun(s, w, acts)
    ensures var w' := After(s, w, acts);
            && w'.store == PutAll(w.store, us[..n], w.clock) && w'.clock == w.clock && w'.disturbed == w.disturbed && w'.live == w.live
            && Underway(w', id, run, tables, Rest(us, n))
    decreases n
  {
    hide *;
    if n == 0 {
      NoStep(s, w);
      NothingSent(w.store, us, w.clock);
      acts := [];
    } else {
      var before := SendFirst(s, w, id, run, tables, us, n - 1);
      var w1, u := After(s, w, before), us[n - 1];
      RestStep(us, n - 1);
      PutStep(w.store, us, n - 1, w.clock);
      if u in us[..n - 1] {
        PutAgain(w.store, us, n - 1, w.clock);
        assert Rest(us, n - 1) - {u} == Rest(us, n - 1);
        acts := before;
      } else {
        SendOne(s, w1, id, run, tables, Rest(us, n - 1), u);
        OneStep(s, w1, Send(id, u));
        RunsJoin(s, w, before, [Send(id, u)]);
        acts := before + [Send(id, u)];
      }
    }
  }

  lemma NothingSent(st: Store, us: seq<Upload>, now: nat)
    ensures PutAll(st, us[..0], now) == st && Rest(us, 0) == set u | u in us
  {
  }

  lemma EverythingSent(us: seq<Upload>)
    ensures us[..|us|] == us && Rest(us, |us|) == {}
  {
  }

  // ---------------------------------------------------------------- the closing writes

  lemma PublishOne(s: Site, w: World, id: BackupId, run: Run, tables: seq<Table>, bytes: nat)
    requires Underway(w, id, run, tables, {}) && bytes > 0
    ensures Allowed(s, w, Publish(id, bytes)) && Enabled(s, w, Publish(id, bytes))
    ensures var w' := Apply(s, w, Publish(id, bytes));
            && w'.store == w.store[Render(s.p, Meta(id, "manifest.json")) := Blob(bytes, w.clock, "", Doc(ManifestOf(run, tables)))]
            && w'.clock == w.clock && id in w'.running && w'.running[id] == Finishing(run.mode, ManifestOf(run, tables), 0, w.clock)
            && (id !in w.disturbed ==> id in w'.live && w'.live[id].manifest == ManifestOf(run, tables) && w'.live[id].mode == run.mode)
  {
    hide Render, Meta, ManifestOf;
  }

  lemma TailOne(s: Site, w: World, id: BackupId, mode: Mode, m: Manifest, n: nat, finished: nat, bytes: nat, data: string)
    requires id in w.running && w.running[id] == Finishing(mode, m, n, finished) && n < 4 && bytes > 0
    ensures Allowed(s, w, WriteTail(id, bytes, data)) && Enabled(s, w, WriteTail(id, bytes, data))
    ensures var w' := Apply(s, w, WriteTail(id, bytes, data));
            && w'.store == w.store[Render(s.p, Protocol.Tail(id, finished)[n]) := Blob(bytes, w.clock, "", if n == 0 then Doc(m) else Raw(data))]
            && w'.clock == w.clock && w'.live == w.live && id in w'.running && w'.running[id] == Finishing(mode, m, n + 1, finished)
  {
    hide Render;
  }

  lemma TailKeys(s: Site, id: BackupId, finished: nat)
    ensures var tail := Protocol.Tail(id, finished);
            && Render(s.p, tail[0]) == IndexedKey(s.p, id, IndexNames.Manifest, 0) && Render(s.p, tail[1]) == IndexedKey(s.p, id, Finished, finished)
            && Render(s.p, tail[2]) == LatestKey(s.p, id.fqdn, "tokenmap.json") && Render(s.p, tail[3]) == LatestKey(s.p, id.fqdn, "backup_name.txt")
    ensures Render(s.p, Meta(id, "manifest.json")) == MetaKey(s.p, id, "manifest.json")
  {
    MetaRenders(s.p, id, "manifest.json");
    EntryRenders(s.p, Entry(id, IndexNames.Manifest, 0));
    EntryRenders(s.p, Entry(id, Finished, finished));
    LatestRenders(s.p, id.fqdn, "tokenmap.json");
    LatestRenders(s.p, id.fqdn, "backup_name.txt");
    hide Render, IndexedKey, MetaKey, LatestKey;
  }

  /** None of the blobs written last is empty. */
  ghost predicate Weighs(size: Body -> nat, m: Manifest, tokenmap: string, name: string, now: nat) {
    size(Doc(m)) > 0 && size(Raw(Decimal(now))) > 0 && size(Raw(tokenmap)) > 0 && size(Raw(name)) > 0
  }

  function Closed(st: Store, run: Run, tables: seq<Table>, now: nat, tokenmap: string, size: Body -> nat): Store {
    var m := ManifestOf(run, tables);
    st[MetaKey(run.p, run.id, "manifest.json") := Blob(size(Doc(m)), now, "", Doc(m))]
      [IndexedKey(run.p, run.id, IndexNames.Manifest, 0) := Blob(size(Doc(m)), now, "", Doc(m))]
      [IndexedKey(run.p, run.id, Finished, now) := Blob(size(Raw(Decimal(now))), now, "", Raw(Decimal(now)))]
      [LatestKey(run.p, run.id.fqdn, "tokenmap.json") := Blob(size(Raw(tokenmap)), now, "", Raw(tokenmap))]
      [LatestKey(run.p, run.id.fqdn, "backup_name.txt") := Blob(size(Raw(run.id.name)), now, "", Raw(run.id.name))]
  }

  lemma ClosedUnfolds(st: Store, run: Run, tables: seq<Table>, now: nat, tokenmap: string, size: Body -> nat)
    ensures var m := ManifestOf(run, tables);
            var st1 := st[MetaKey(run.p, run.id, "manifest.json") := Blob(size(Doc(m)), now, "", Doc(m))];
            var st2 := st1[IndexedKey(run.p, run.id, IndexNames.Manifest, 0) := Blob(size(Doc(m)), now, "", Doc(m))];
            var st3 := st2[IndexedKey(run.p, run.id, Finished, now) := Blob(size(Raw(Decimal(now))), now, "", Raw(Decimal(now)))];
            var st4 := st3[LatestKey(run.p, run.id.fqdn, "tokenmap.json") := Blob(size(Raw(tokenmap)), now, "", Raw(tokenmap))];
            Closed(st, run, tables, now, tokenmap, size)
            == st4[LatestKey(run.p, run.id.fqdn, "backup_name.txt") := Blob(size(Raw(run.id.name)), now, "", Raw(run.id.name))]
  {
    hide MetaKey, IndexedKey, LatestKey, ManifestOf, Decimal;
  }

  lemma ClosedIsBackedUp(st: Store, run: Run, tables: seq<Table>, now: nat, tokenmap: string, size: Body -> nat)
    ensures Closed(PutAll(st, UploadsOf(run, tables), now), run, tables, now, tokenmap, size) == BackedUp(st, run, tables, now, tokenmap, size)
  {
    hide MetaKey, IndexedKey, LatestKey, ManifestOf, PutAll, UploadsOf, Decimal;
  }

  /** The two index entries. */
  lemma EntriesRun(s: Site, w: World, id: BackupId, mode: Mode, m: Manifest, now: nat, a: nat, b: nat) returns (acts: seq<Action>)
    requires id in w.running && w.running[id] == Finishing(mode, m, 0, now) && a > 0 && b > 0
    ensures ValidRun(s, w, acts)
    ensures var w' := After(s, w, acts);
            && w'.store == w.store[IndexedKey(s.p, id, IndexNames.Manifest, 0) := Blob(a, w.clock, "", Doc(m))]
                                  [IndexedKey(s.p, id, Finished, now) := Blob(b, w.clock, "", Raw(Decimal(now)))]
            && w'.clock == w.clock && w'.live == w.live && id in w'.running && w'.running[id] == Finishing(mode, m, 2, now)
  {
    hide *;
    TailKeys(s, id, now);
    var first, second := WriteTail(id, a, ""), WriteTail(id, b, Decimal(now));
    TailOne(s, w, id, mode, m, 0, now, a, "");
    OneStep(s, w, first);
    var w1 := Apply(s, w, first);
    TailOne(s, w1, id, mode, m, 1, now, b, Decimal(now));
    OneStep(s, w1, second);
    RunsJoin(s, w, [first], [second]);
    acts := [first] + [second];
  }

  /** The two markers of the latest backup. */
  lemma MarkersRun(s: Site, w: World, id: BackupId, mode: Mode, m: Manifest, now: nat, a: nat, b: nat, tokenmap: string) returns (acts: seq<Action>)
    requires id in w.running && w.running[id] == Finishing(mode, m, 2, now) && a > 0 && b > 0
    ensures ValidRun(s, w, acts)
    ensures var w' := After(s, w, acts);
            && w'.store == w.store[LatestKey(s.p, id.fqdn, "tokenmap.json") := Blob(a, w.clock, "", Raw(tokenmap))]
                                  [LatestKey(s.p, id.fqdn, "backup_name.txt") := Blob(b, w.clock, "", Raw(id.name))]
            && w'.clock == w.clock && w'.live == w.live && id in w'.running && w'.running[id] == Finishing(mode, m, 4, now)
  {
    hide *;
    TailKeys(s, id, now);
    var first, second := WriteTail(id, a, tokenmap), WriteTail(id, b, id.name);
    TailOne(s, w, id, mode, m, 2, now, a, tokenmap);
    OneStep(s, w, first);
    var w1 := Apply(s, w, first);
    TailOne(s, w1, id, mode, m, 3, now, b, id.name);
    OneStep(s, w1, second);
    RunsJoin(s, w, [first], [second]);
    acts := [first] + [second];
  }

  /** The five writes at the end. */
  lemma CloseRun(s: Site, w: World, id: BackupId, run: Run, tables: seq<Table>, tokenmap: string, size: Body -> nat) returns (acts: seq<Action>)
    requires Underway(w, id, run, tables, {}) && run.p == s.p && run.id == id && Weighs(size, ManifestOf(run, tables), tokenmap, id.name, w.clock)
    ensures ValidRun(s, w, acts)
    ensures var w' := After(s, w, acts);
            && w'.store == Closed(w.store, run, tables, w.clock, tokenmap, size)
            && id in w'.running && w'.running[id] == Finishing(run.mode, ManifestOf(run, tables), 4, w.clock)
            && (id !in w.disturbed ==> id in w'.live && w'.live[id].manifest == ManifestOf(run, tables) && w'.live[id].mode == run.mode)
  {
    var m, now := ManifestOf(run, tables), w.clock;
    assert size(Doc(m)) > 0 && size(Raw(Decimal(now))) > 0 && size(Raw(tokenmap)) > 0 && size(Raw(id.name)) > 0;
    hide *;
    TailKeys(s, id, now);
    ClosedUnfolds(w.store, run, tables, now, tokenmap, size);
    var publish := Publish(id, size(Doc(m)));
    PublishOne(s, w, id, run, tables, size(Doc(m)));
    OneStep(s, w, publish);
    var w1 := Apply(s, w, publish);
    var entries := EntriesRun(s, w1, id, run.mode, m, now, size(Doc(m)), size(Raw(Decimal(now))));
    RunsJoin(s, w, [publish], entries);
    var w2 := After(s, w1, entries);
    var markers := MarkersRun(s, w2, id, run.mode, m, now, size(Raw(tokenmap)), size(Raw(id.name)), tokenmap);
    RunsJoin(s, w, [publish] + entries, markers);
    acts := [publish] + entries + markers;
  }

  // ---------------------------------------------------------------- the whole call

  lemma ReadyParts(s: Site, w: World, id: BackupId, order: seq<string>, root: seq<string>, tag: string, tables: seq<Table>)
    requires Ready(s, w, id, order, root, tag, tables)
    ensures GoodSite(s) && Inv(s, w) && id in w.running && w.running[id].Starting?
    ensures Enumerates(order, ListBlobs(w.store, PoolPath(s.p, id.fqdn) + "/"))
    ensures |root| >= 1 && GoodTag(tag) && OneFilePerPlace(tables) && (forall t :: t in tables ==> GoodTableFiles(t))
  {
    hide GoodSite, Inv, Enumerates, ListBlobs, GoodTag, OneFilePerPlace, GoodTableFiles, Head;
  }

  lemma CallRunParts(s: Site, w: World, id: BackupId, order: seq<string>, root: seq<string>, tag: string, md5Checks: bool)
    requires id in w.running && w.running[id].Starting?
    ensures var run, mode := CallRun(s, w, id, order, root, tag, md5Checks), w.running[id].mode;
            && run.p == s.p && run.id == id && run.mode == mode && run.root == root && run.tag == tag
            && run.index == IndexOf(Backup.Listed(w.store, mode, order))
            && run == RunOf(s.p, id, mode, root, tag, md5Checks, Backup.Listed(w.store, mode, order))
  {
    hide IndexOf, Backup.Listed;
  }

  lemma CallableMake(s: Site, st: Store, run: Run, tables: seq<Table>, order: seq<string>)
    requires GoodSite(s) && AllKnown(s, st) && InSite(s, run.id) && run.p == s.p
    requires |run.root| >= 1 && GoodTag(run.tag) && OneFilePerPlace(tables) && (forall t :: t in tables ==> GoodTableFiles(t))
    requires run.index == IndexOf(Backup.Listed(st, run.mode, order))
    requires Enumerates(order, ListBlobs(st, PoolPath(run.p, run.id.fqdn) + "/"))
    ensures Callable(s, st, run, tables, order)
  {
    hide GoodSite, AllKnown, InSite, GoodTag, OneFilePerPlace, GoodTableFiles, IndexOf, Backup.Listed, Enumerates;
  }

  lemma PendingIs(run: Run, tables: seq<Table>)
    ensures PendingOf(run, tables) == set u | u in UploadsOf(run, tables)
  {
    hide UploadsOf;
  }

  /**
   do_backup, called when start_backup is through and no sweep of its host is under way, is a run of the
   protocol that leaves exactly the store of the do_backup method, whatever other backups and purges are
   under way; a backup that no purge has disturbed is then among the survivors, with the manifest of its run.
   */
  lemma DoBackupRun(s: Site, w: World, id: BackupId, order: seq<string>, root: seq<string>, tag: string, tables: seq<Table>, md5Checks: bool,
                    tokenmap: string, size: Body -> nat) returns (acts: seq<Action>)
    requires Ready(s, w, id, order, root, tag, tables)
    requires Weighs(size, ManifestOf(CallRun(s, w, id, order, root, tag, md5Checks), tables), tokenmap, id.name, w.clock)
    ensures ValidRun(s, w, acts)
    ensures var run, w' := CallRun(s, w, id, order, root, tag, md5Checks), After(s, w, acts);
            && run == RunOf(s.p, id, w.running[id].mode, root, tag, md5Checks, Backup.Listed(w.store, w.running[id].mode, order))
            && w'.store == BackedUp(w.store, run, tables, w.clock, tokenmap, size)
            && (id !in w.disturbed ==> id in w'.live && w'.live[id].manifest == ManifestOf(run, tables) && w'.live[id].mode == run.mode)
            && Inv(s, w') && SurvivorsIntact(s, w')
  {
    hide *;
    ReadyParts(s, w, id, order, root, tag, tables);
    var run, a := CallRun(s, w, id, order, root, tag, md5Checks), ListingOf(id, order, root, tag, tables, md5Checks);
    CallRunParts(s, w, id, order, root, tag, md5Checks);
    InvParts(s, w);
    RunInSite(s, w, id);
    CallableMake(s, w.store, run, tables, order);
    RunIsReady(s, w.store, run, tables, order);
    var us := UploadsOf(run, tables);
    OneUploadPerKey(run, Backup.Listed(w.store, run.mode, order), tables, w.store);
    ListingStep(s, w, id, order, root, tag, tables, md5Checks);
    OneStep(s, w, a);
    PendingIs(run, tables);
    var w1 := Apply(s, w, a);
    var sends := SendFirst(s, w1, id, run, tables, us, |us|);
    EverythingSent(us);
    var w2 := After(s, w1, sends);
    RunsJoin(s, w, [a], sends);
    var closing := CloseRun(s, w2, id, run, tables, tokenmap, size);
    RunsJoin(s, w, [a] + sends, closing);
    ClosedIsBackedUp(w.store, run, tables, w.clock, tokenmap, size);
    acts := [a] + sends + closing;
    InvOverRuns(s, w, acts);
    InvIsSafe(s, After(s, w, acts));
  }

  lemma OneUploadPerKey(run: Run, items: seq<ManifestObject>, tables: seq<Table>, st: Store)
    requires ReadyRun(run, items, tables, st)
    ensures forall u, v :: u in UploadsOf(run, tables) && v in UploadsOf(run, tables) && u.key == v.key ==> u == v
  {
    hide *;
    Verify.ReadyParts(run, items, tables, st);
    UploadsMember(run, tables);
    forall u, v | u in UploadsOf(run, tables) && v in UploadsOf(run, tables) && u.key == v.key ensures u == v {
      SameKeySameUpload(run, tables, u, v);
    }
  }
}
