/**
 The invariant of the protocol and what single writes and deletions do to it.
 */
module Invariant {
  import opened Text
  import opened IndexNames
  import opened ObjectStorage
  import opened Layout
  import opened NodeListing
  import opened Purge
  import opened PurgeIsolation
  import opened TableKeys
  import opened PoolIndex
  import opened Snapshots
  import opened Manifests
  import opened Protocol

  // ---------------------------------------------------------------- the invariant

  predicate Stored(s: Site, st: Store, f: KeyForm) { Render(s.p, f) in st }

  predicate StoredNonEmpty(s: Site, st: Store, f: KeyForm) { Stored(s, st, f) && st[Render(s.p, f)].size > 0 }

  predicate WrittenHead(s: Site, st: Store, f: KeyForm) {
    Stored(s, st, f) && (f.Entry? && !f.kind.Schema? ==> StoredNonEmpty(s, st, f))
  }

  /** The first n writes of start_backup are in the store. */
  ghost predicate HeadDone(s: Site, st: Store, id: BackupId, mode: Mode, started: nat, n: nat) {
    && n <= |Head(id, mode, started)|
    && forall j :: 0 <= j < n ==> WrittenHead(s, st, Head(id, mode, started)[j])
  }

  /** A path a backup's manifest may name: its own data folder, or its host's pool. */
  ghost predicate DataForm(s: Site, id: BackupId, mode: Mode, path: string, f: KeyForm) {
    && ValidForm(s, f) && path == Render(s.p, f)
    && (if mode.Full? then f.Own? && f.id == id && "data/" <= f.rest
        else f.Pool? && f.fqdn == id.fqdn && PoolObject(s.p, id.fqdn, path))
  }

  ghost predicate DataKey(s: Site, id: BackupId, mode: Mode, path: string) { exists f :: DataForm(s, id, mode, path, f) }

  ghost predicate LiveOk(s: Site, st: Store, id: BackupId, c: Complete) {
    && InSite(s, id)
    && HeadDone(s, st, id, c.mode, c.started, |Head(id, c.mode, c.started)|)
    && StoredNonEmpty(s, st, Meta(id, "manifest.json"))
    && st[Render(s.p, Meta(id, "manifest.json"))].body == Doc(c.manifest)
    && (forall path :: path in ManifestPaths(c.manifest) ==> path in st && DataKey(s, id, c.mode, path))
  }

  ghost predicate UploadingOk(s: Site, st: Store, clock: nat, id: BackupId, proc: Process)
    requires proc.Uploading?
  {
    && HeadDone(s, st, id, proc.mode, proc.started, |Head(id, proc.mode, proc.started)|)
    && proc.began <= clock
    && (forall path :: path in ManifestPaths(proc.manifest) ==> DataKey(s, id, proc.mode, path))
    && (forall path :: path in ManifestPaths(proc.manifest) ==>
          IsPending(proc.pending, path) || (path in st && (path in proc.kept || st[path].mtime >= proc.began)))
    && (forall u :: u in proc.pending ==> DataKey(s, id, proc.mode, u.key))
  }

  ghost predicate RunningOk(s: Site, st: Store, clock: nat, live: map<BackupId, Complete>, id: BackupId, proc: Process) {
    && InSite(s, id)
    && match proc
       case Starting(mode, done, started) => id !in live && HeadDone(s, st, id, mode, started, done)
       case Uploading(_, _, _, _, _, _, _) => id !in live && UploadingOk(s, st, clock, id, proc)
       case Finishing(_, _, _, _) => id in live
  }

  /** Every key was written by a backup of the site, and pool keys are uploaded files. */
  ghost predicate Known(s: Site, k: string) {
    exists f :: ValidForm(s, f) && k == Render(s.p, f) && (f.Entry? ==> f.kind != Incremental)
                && (f.Pool? ==> PoolObject(s.p, f.fqdn, k))
  }

  ghost predicate AllKnown(s: Site, st: Store) { forall k :: k in st ==> Known(s, k) }

  /** Manifests are JSON documents, and neither they nor finish entries are ever empty. */
  ghost predicate Sized(s: Site, st: Store) {
    && (forall id :: InSite(s, id) && Stored(s, st, Meta(id, "manifest.json")) ==>
          StoredNonEmpty(s, st, Meta(id, "manifest.json")) && st[Render(s.p, Meta(id, "manifest.json"))].body.Doc?)
    && (forall id, kind, ts :: InSite(s, id) && (kind == IndexNames.Manifest || kind == Finished) && Stored(s, st, Entry(id, kind, ts))
          ==> StoredNonEmpty(s, st, Entry(id, kind, ts)))
  }

  /** Index entries follow the schema; manifests and finish entries belong to the backups that may have them. */
  ghost predicate Settled(s: Site, st: Store, known: set<BackupId>, id: BackupId) {
    && (forall kind, ts :: StoredNonEmpty(s, st, Entry(id, kind, ts)) ==> Stored(s, st, Meta(id, "schema.cql")))
    && (Stored(s, st, Meta(id, "manifest.json")) ==> id in known)
    && (forall kind, ts :: (kind == IndexNames.Manifest || kind == Finished) && Stored(s, st, Entry(id, kind, ts)) ==> id in known)
  }

  /** Manifests are those of live backups, or leftovers under a name in use again. */
  function MayHave(w: World): set<BackupId> { w.live.Keys + w.stale }

  ghost predicate AllSettled(s: Site, w: World) {
    forall id :: InSite(s, id) && id !in w.disturbed ==> Settled(s, w.store, MayHave(w), id)
  }

  ghost predicate LivesOk(s: Site, w: World) {
    forall id :: id in w.live ==> id !in w.disturbed && LiveOk(s, w.store, id, w.live[id])
  }

  /** A disturbed run still writes only where its backup may write. */
  ghost predicate Roaming(s: Site, id: BackupId, proc: Process) {
    && InSite(s, id)
    && (proc.Uploading? ==>
          && (forall path :: path in ManifestPaths(proc.manifest) ==> DataKey(s, id, proc.mode, path))
          && (forall u :: u in proc.pending ==> DataKey(s, id, proc.mode, u.key)))
  }

  ghost predicate RunOk(s: Site, w: World, id: BackupId, proc: Process) {
    if id in w.disturbed then Roaming(s, id, proc) else RunningOk(s, w.store, w.clock, w.live, id, proc)
  }

  ghost predicate RunsOk(s: Site, w: World) { forall id :: id in w.running ==> RunOk(s, w, id, w.running[id]) }

  ghost predicate OwnKey(s: Site, id: BackupId, k: string) {
    exists f :: ValidForm(s, f) && BelongsTo(f, id) && k == Render(s.p, f)
  }

  ghost predicate PoolKey(s: Site, h: string, k: string) {
    exists f :: ValidForm(s, f) && f.Pool? && f.fqdn == h && k == Render(s.p, f)
  }

  /** A quiet purge will delete everything of its backup. */
  ghost predicate Thorough(s: Site, st: Store, job: PurgeJob) {
    match job
    case Deleting(id, todo, _) =>
      forall f :: ValidForm(s, f) && f.Own? && f.id == id && StoredNonEmpty(s, st, f) ==> Render(s.p, f) in todo
    case Unlisting(id, todo, _) =>
      && (forall f :: ValidForm(s, f) && f.Own? && f.id == id ==> !StoredNonEmpty(s, st, f))
      && (forall f :: ValidForm(s, f) && f.Entry? && f.id == id && StoredNonEmpty(s, st, f) ==> Render(s.p, f) in todo)
  }

  ghost predicate PurgeOk(s: Site, w: World, job: PurgeJob) {
    && InSite(s, job.id) && job.id in w.disturbed
    && (forall k :: k in job.todo ==> OwnKey(s, job.id, k))
    && (job.quiet ==> job.id !in w.running && Thorough(s, w.store, job))
  }

  ghost predicate PurgesOk(s: Site, w: World) { forall j :: j in w.purges ==> PurgeOk(s, w, w.purges[j]) }

  /** Some backup that no purge has disturbed relies on the object: its manifest names it, or will. */
  ghost predicate ReliesOn(w: World, id: BackupId, k: string) {
    || (id in w.live && k in ManifestPaths(w.live[id].manifest))
    || (id in w.running && id !in w.disturbed && w.running[id].Uploading? && k in ManifestPaths(w.running[id].manifest))
  }

  ghost predicate ReliedOn(w: World, k: string) { exists id :: ReliesOn(w, id, k) }

  ghost predicate SweepOk(s: Site, w: World, job: SweepJob) {
    job.fqdn in s.hosts && forall k :: k in job.todo ==> PoolKey(s, job.fqdn, k) && !ReliedOn(w, k)
  }

  ghost predicate SweepsOk(s: Site, w: World) { forall j :: j in w.sweeps ==> SweepOk(s, w, w.sweeps[j]) }

  ghost predicate Inv(s: Site, w: World) {
    && AllKnown(s, w.store) && Sized(s, w.store) && AllSettled(s, w) && LivesOk(s, w)
    && RunsOk(s, w) && PurgesOk(s, w) && SweepsOk(s, w)
  }

  // -- taking the invariant apart

  lemma InvParts(s: Site, w: World)
    ensures Inv(s, w) <==>
            && AllKnown(s, w.store) && Sized(s, w.store) && AllSettled(s, w) && LivesOk(s, w)
            && RunsOk(s, w) && PurgesOk(s, w) && SweepsOk(s, w)
  {
    hide AllKnown, Sized, AllSettled, LivesOk, RunsOk, PurgesOk, SweepsOk;
  }

  lemma SettledParts(s: Site, w: World)
    ensures AllSettled(s, w) <==> forall id :: InSite(s, id) && id !in w.disturbed ==> Settled(s, w.store, w.live.Keys + w.stale, id)
  {
    hide Settled, InSite;
  }

  lemma LiveParts(s: Site, w: World)
    ensures LivesOk(s, w) <==> forall id :: id in w.live ==> id !in w.disturbed && LiveOk(s, w.store, id, w.live[id])
  {
    hide LiveOk;
  }

  lemma RunsParts(s: Site, w: World)
    ensures RunsOk(s, w) <==>
            && (forall id :: id in w.running && id in w.disturbed ==> Roaming(s, id, w.running[id]))
            && (forall id :: id in w.running && id !in w.disturbed ==> RunningOk(s, w.store, w.clock, w.live, id, w.running[id]))
  {
    hide Roaming, RunningOk;
  }

  lemma PurgesParts(s: Site, w: World)
    ensures PurgesOk(s, w) <==> forall j :: j in w.purges ==> PurgeOk(s, w, w.purges[j])
  {
    hide PurgeOk;
  }

  lemma PurgeParts(s: Site, w: World, job: PurgeJob)
    ensures PurgeOk(s, w, job) <==>
            && InSite(s, job.id) && job.id in w.disturbed
            && (forall k :: k in job.todo ==> OwnKey(s, job.id, k))
            && (job.quiet ==> job.id !in w.running && Thorough(s, w.store, job))
  {
    hide OwnKey, Thorough, InSite;
  }

  lemma SweepsParts(s: Site, w: World)
    ensures SweepsOk(s, w) <==>
            forall j :: j in w.sweeps ==>
              w.sweeps[j].fqdn in s.hosts && forall k :: k in w.sweeps[j].todo ==> PoolKey(s, w.sweeps[j].fqdn, k) && !ReliedOn(w, k)
  {
    hide PoolKey, ReliedOn;
  }

  lemma LiveInSite(s: Site, st: Store, id: BackupId, c: Complete)
    requires LiveOk(s, st, id, c)
    ensures InSite(s, id)
  {
    hide HeadDone, DataKey, StoredNonEmpty;
  }

  lemma RunInSite(s: Site, w: World, id: BackupId)
    requires RunsOk(s, w) && id in w.running
    ensures InSite(s, id)
  {
    hide UploadingOk, HeadDone;
    assert RunOk(s, w, id, w.running[id]);
  }

  // ---------------------------------------------------------------- adding a blob

  lemma MetaFilesDiffer(id: BackupId, a: string, b: string)
    requires a != b
    ensures Meta(id, a) != Meta(id, b)
  {
    assert ("meta/" + a)[5..] == a && ("meta/" + b)[5..] == b;
  }

  lemma HeadFilesDiffer()
    ensures "schema.cql" != "manifest.json" && "tokenmap.json" != "manifest.json"
    ensures "server_version.json" != "manifest.json" && "differential" != "manifest.json"
  {
    assert "tokenmap.json"[0] == 't' && "manifest.json"[0] == 'm';
  }

  lemma HeadForms(id: BackupId, mode: Mode, started: nat, j: nat)
    requires j < |Head(id, mode, started)|
    ensures var f := Head(id, mode, started)[j];
            && BelongsTo(f, id)
            && f != Meta(id, "manifest.json")
            && (f.Entry? ==> f.kind != Incremental && f.kind != IndexNames.Manifest && f.kind != Finished)
            && (f.Entry? ==> j > 0)
  {
    HeadFilesDiffer();
    MetaFilesDiffer(id, "schema.cql", "manifest.json");
    MetaFilesDiffer(id, "tokenmap.json", "manifest.json");
    MetaFilesDiffer(id, "server_version.json", "manifest.json");
    MetaFilesDiffer(id, "differential", "manifest.json");
    MetaBelongs(id, "schema.cql");
    MetaBelongs(id, "tokenmap.json");
    MetaBelongs(id, "server_version.json");
    MetaBelongs(id, "differential");
    hide Meta;
  }

  lemma MetaBelongs(id: BackupId, file: string)
    ensures Meta(id, file).Own? && Meta(id, file).id == id
  {
  }

  /** A write of the protocol leaves the first writes of every backup in place. */
  lemma PutKeepsHead(s: Site, st: Store, id: BackupId, mode: Mode, started: nat, n: nat, f: KeyForm, b: Blob)
    requires GoodSite(s) && InSite(s, id) && ValidForm(s, f) && HeadDone(s, st, id, mode, started, n)
    requires f.Entry? && f.id == id ==> b.size > 0 || f.kind.Schema?
    ensures HeadDone(s, st[Render(s.p, f) := b], id, mode, started, n)
  {
    var st' := st[Render(s.p, f) := b];
    forall j | 0 <= j < n ensures WrittenHead(s, st', Head(id, mode, started)[j]) {
      var g := Head(id, mode, started)[j];
      HeadForms(id, mode, started, j);
      hide Head, Render, GoodSite;
      assert WrittenHead(s, st, g);
      if g.Entry? && !g.kind.Schema? {
        if !BelongsTo(f, id) {
          ForeignKeysDiffer(s, f, g, id);
        } else if !f.Entry? || f.kind.Schema? {
          EntryKeysDiffer(s, id, g.kind, g.ts, f);
        }
      }
    }
  }

  lemma PutKeepsLive(s: Site, st: Store, id: BackupId, c: Complete, f: KeyForm, b: Blob)
    requires GoodSite(s) && ValidForm(s, f) && LiveOk(s, st, id, c)
    requires !(f.Own? && f.id == id)
    requires f.Entry? && f.id == id ==> b.size > 0
    ensures LiveOk(s, st[Render(s.p, f) := b], id, c)
  {
    hide Head, Render, GoodSite, HeadDone, DataKey, Meta;
    PutKeepsHead(s, st, id, c.mode, c.started, |Head(id, c.mode, c.started)|, f, b);
    var g := Own(id, "meta/" + "manifest.json");
    assert Meta(id, "manifest.json") == g by { MetaIsOwn(id, "manifest.json"); }
    if f.Entry? && f.id == id {
      EntryKeysDiffer(s, id, f.kind, f.ts, g);
    } else {
      ForeignKeysDiffer(s, f, g, id);
    }
  }

  lemma MetaIsOwn(id: BackupId, file: string)
    ensures Meta(id, file) == Own(id, "meta/" + file)
  {
  }

  lemma PutKeepsUploading(s: Site, st: Store, clock: nat, id: BackupId, proc: Process, f: KeyForm, b: Blob)
    requires GoodSite(s) && InSite(s, id) && ValidForm(s, f) && proc.Uploading? && UploadingOk(s, st, clock, id, proc)
    requires f.Entry? && f.id == id ==> b.size > 0 || f.kind.Schema?
    requires b.mtime == clock
    ensures UploadingOk(s, st[Render(s.p, f) := b], clock, id, proc)
  {
    PutKeepsHead(s, st, id, proc.mode, proc.started, |Head(id, proc.mode, proc.started)|, f, b);
    hide Head, Render, GoodSite, HeadDone, DataKey, IsPending;
  }

  lemma PutKeepsKnown(s: Site, st: Store, f: KeyForm, b: Blob)
    requires AllKnown(s, st) && ValidForm(s, f) && (f.Entry? ==> f.kind != Incremental)
    requires f.Pool? ==> PoolObject(s.p, f.fqdn, Render(s.p, f))
    ensures AllKnown(s, st[Render(s.p, f) := b])
  {
    hide Render, PoolObject, ValidForm;
    assert Known(s, Render(s.p, f));
  }

  /** A write leaves a backup's part of the store settled when entries come after the schema and the finish after the manifest. */
  lemma PutKeepsSettled(s: Site, st: Store, known: set<BackupId>, f: KeyForm, b: Blob, id: BackupId)
    requires GoodSite(s) && ValidForm(s, f) && InSite(s, id) && Settled(s, st, known, id)
    requires f.Entry? && f.id == id ==> Stored(s, st, Meta(id, "schema.cql"))
    requires f == Meta(id, "manifest.json") ==> id in known
    requires f.Entry? && f.id == id && (f.kind == IndexNames.Manifest || f.kind == Finished) ==> id in known
    ensures Settled(s, st[Render(s.p, f) := b], known, id)
  {
    hide Render, GoodSite, Meta;
    var st' := st[Render(s.p, f) := b];
    forall kind, ts | StoredNonEmpty(s, st', Entry(id, kind, ts)) ensures Stored(s, st', Meta(id, "schema.cql")) {
      if Render(s.p, Entry(id, kind, ts)) == Render(s.p, f) {
        SameEntryOwner(s, id, kind, ts, f);
      }
    }
    if Stored(s, st', Meta(id, "manifest.json")) && Render(s.p, Meta(id, "manifest.json")) == Render(s.p, f) {
      SameManifestOwner(s, id, f);
    }
    forall kind, ts | (kind == IndexNames.Manifest || kind == Finished) && Stored(s, st', Entry(id, kind, ts)) ensures id in known {
      if Render(s.p, Entry(id, kind, ts)) == Render(s.p, f) {
        SameEntryOwner(s, id, kind, ts, f);
      }
    }
  }

  /** A key that is an entry of a backup has that backup as its owner. */
  lemma SameEntryOwner(s: Site, id: BackupId, kind: Kind, ts: nat, f: KeyForm)
    requires GoodSite(s) && InSite(s, id) && ValidForm(s, f)
    requires Render(s.p, Entry(id, kind, ts)) == Render(s.p, f)
    ensures f.Entry? && f.id == id && f.kind == kind
  {
    hide Render, GoodSite;
    if !(f.Entry? && f.kind == kind) {
      EntryKeysDiffer(s, id, kind, ts, f);
    } else if !BelongsTo(f, id) {
      ForeignKeysDiffer(s, f, Entry(id, kind, ts), id);
    }
  }

  /** A key that is a backup's manifest is written as nothing else. */
  lemma SameManifestOwner(s: Site, id: BackupId, f: KeyForm)
    requires GoodSite(s) && InSite(s, id) && ValidForm(s, f)
    requires Render(s.p, Meta(id, "manifest.json")) == Render(s.p, f)
    ensures f == Meta(id, "manifest.json")
  {
    hide Render, GoodSite;
    var g := Meta(id, "manifest.json");
    if !BelongsTo(f, id) {
      ForeignKeysDiffer(s, f, g, id);
    } else if f.Entry? {
      EntryKeysDiffer(s, id, f.kind, f.ts, g);
    } else {
      OwnKeysDiffer(s.p, id, f.rest, g.rest);
    }
  }

  lemma PutKeepsSized(s: Site, st: Store, f: KeyForm, b: Blob)
    requires GoodSite(s) && ValidForm(s, f) && Sized(s, st)
    requires f.Own? && f == Meta(f.id, "manifest.json") ==> b.size > 0 && b.body.Doc?
    requires f.Entry? && (f.kind == IndexNames.Manifest || f.kind == Finished) ==> b.size > 0
    ensures Sized(s, st[Render(s.p, f) := b])
  {
    hide Render, GoodSite, Meta;
    var st' := st[Render(s.p, f) := b];
    forall id | InSite(s, id) && Stored(s, st', Meta(id, "manifest.json"))
      ensures StoredNonEmpty(s, st', Meta(id, "manifest.json")) && st'[Render(s.p, Meta(id, "manifest.json"))].body.Doc?
    {
      if Render(s.p, Meta(id, "manifest.json")) == Render(s.p, f) {
        SameManifestOwner(s, id, f);
        MetaIsOwn(id, "manifest.json");
      }
    }
    forall id, kind, ts | InSite(s, id) && (kind == IndexNames.Manifest || kind == Finished) && Stored(s, st', Entry(id, kind, ts))
      ensures StoredNonEmpty(s, st', Entry(id, kind, ts))
    {
      if Render(s.p, Entry(id, kind, ts)) == Render(s.p, f) {
        SameEntryOwner(s, id, kind, ts, f);
      }
    }
  }

  /** A write of another backup, or outside all backups, adds nothing a thorough purge would miss. */
  lemma PutKeepsThorough(s: Site, st: Store, f: KeyForm, b: Blob, job: PurgeJob)
    requires GoodSite(s) && ValidForm(s, f) && InSite(s, job.id) && !BelongsTo(f, job.id) && Thorough(s, st, job)
    ensures Thorough(s, st[Render(s.p, f) := b], job)
  {
    hide Render, GoodSite;
    forall g | ValidForm(s, g) && BelongsTo(g, job.id) ensures Render(s.p, g) != Render(s.p, f) {
      ForeignKeysDiffer(s, f, g, job.id);
    }
  }

  // ---------------------------------------------------------------- removing blobs

  /** What a removal keeps of one backup: all the keys that belong to it. */
  ghost predicate KeepsOwn(s: Site, st: Store, st': Store, id: BackupId) {
    forall f :: ValidForm(s, f) && BelongsTo(f, id) && Stored(s, st, f) ==>
      Stored(s, st', f) && st'[Render(s.p, f)] == st[Render(s.p, f)]
  }

  ghost predicate Shrinks(st: Store, st': Store) {
    forall k :: k in st' ==> k in st && st'[k] == st[k]
  }

  lemma ShrinkKeepsHead(s: Site, st: Store, st': Store, id: BackupId, mode: Mode, started: nat, n: nat)
    requires InSite(s, id) && HeadDone(s, st, id, mode, started, n) && KeepsOwn(s, st, st', id)
    ensures HeadDone(s, st', id, mode, started, n)
  {
    forall j | 0 <= j < n ensures WrittenHead(s, st', Head(id, mode, started)[j]) {
      HeadForms(id, mode, started, j);
      hide Head, Render;
      assert WrittenHead(s, st, Head(id, mode, started)[j]);
    }
  }

  lemma ShrinkKeepsLive(s: Site, st: Store, st': Store, id: BackupId, c: Complete)
    requires LiveOk(s, st, id, c) && KeepsOwn(s, st, st', id)
    requires forall path :: path in ManifestPaths(c.manifest) ==> path in st'
    ensures LiveOk(s, st', id, c)
  {
    hide Head, Render, HeadDone, DataKey;
    ShrinkKeepsHead(s, st, st', id, c.mode, c.started, |Head(id, c.mode, c.started)|);
    assert BelongsTo(Meta(id, "manifest.json"), id);
  }

  lemma ShrinkKeepsUploading(s: Site, st: Store, st': Store, clock: nat, id: BackupId, proc: Process)
    requires InSite(s, id) && proc.Uploading? && UploadingOk(s, st, clock, id, proc) && KeepsOwn(s, st, st', id) && Shrinks(st, st')
    requires forall path :: path in ManifestPaths(proc.manifest) && path in st && (path in proc.kept || st[path].mtime >= proc.began) ==> path in st'
    ensures UploadingOk(s, st', clock, id, proc)
  {
    hide Head, Render, HeadDone, DataKey, KeepsOwn;
    ShrinkKeepsHead(s, st, st', id, proc.mode, proc.started, |Head(id, proc.mode, proc.started)|);
  }

  lemma ShrinkKeepsKnown(s: Site, st: Store, st': Store)
    requires AllKnown(s, st) && Shrinks(st, st')
    ensures AllKnown(s, st')
  {
    hide Known;
  }

  /** A name whose deletion hurts nobody: it belongs to a disturbed backup, or no manifest names it. */
  ghost predicate Harmless(s: Site, w: World, k: string) {
    || (exists id :: id in w.disturbed && InSite(s, id) && OwnKey(s, id, k))
    || (exists h :: PoolKey(s, h, k) && !ReliedOn(w, k))
  }

  lemma HarmlessSpares(s: Site, w: World, k: string, g: KeyForm, id: BackupId)
    requires GoodSite(s) && Harmless(s, w, k) && ValidForm(s, g) && BelongsTo(g, id) && InSite(s, id) && id !in w.disturbed
    ensures k != Render(s.p, g)
  {
    hide Render, GoodSite, InSite, ReliedOn;
    if exists o :: o in w.disturbed && InSite(s, o) && OwnKey(s, o, k) {
      var o :| o in w.disturbed && InSite(s, o) && OwnKey(s, o, k);
      var f :| ValidForm(s, f) && BelongsTo(f, o) && k == Render(s.p, f);
      ForeignKeysDiffer(s, f, g, id);
    } else {
      var h :| PoolKey(s, h, k) && !ReliedOn(w, k);
      var f :| ValidForm(s, f) && f.Pool? && f.fqdn == h && k == Render(s.p, f);
      ForeignKeysDiffer(s, f, g, id);
    }
  }

  lemma HarmlessUnrelied(s: Site, w: World, k: string, id: BackupId, mode: Mode)
    requires GoodSite(s) && Harmless(s, w, k) && InSite(s, id) && id !in w.disturbed && DataKey(s, id, mode, k)
    ensures !ReliedOn(w, k)
  {
    hide Render, GoodSite, InSite, ReliedOn, PoolObject;
    var g :| DataForm(s, id, mode, k, g);
    if exists o :: o in w.disturbed && InSite(s, o) && OwnKey(s, o, k) {
      var o :| o in w.disturbed && InSite(s, o) && OwnKey(s, o, k);
      var f :| ValidForm(s, f) && BelongsTo(f, o) && k == Render(s.p, f);
      ForeignKeysDiffer(s, g, f, o);
    }
  }

  ghost predicate AllHarmless(s: Site, w: World, gone: set<string>) { forall k :: k in gone ==> Harmless(s, w, k) }

  lemma GoneKeepsOwn(s: Site, w: World, gone: set<string>, id: BackupId)
    requires GoodSite(s) && AllHarmless(s, w, gone) && InSite(s, id) && id !in w.disturbed
    ensures KeepsOwn(s, w.store, w.store - gone, id)
  {
    hide Render, GoodSite, InSite, Harmless, BelongsTo, ValidForm;
    forall f | ValidForm(s, f) && BelongsTo(f, id) && Stored(s, w.store, f)
      ensures Stored(s, w.store - gone, f) && (w.store - gone)[Render(s.p, f)] == w.store[Render(s.p, f)]
    {
      if Render(s.p, f) in gone { HarmlessSpares(s, w, Render(s.p, f), f, id); }
    }
  }

  lemma LivePaths(s: Site, st: Store, id: BackupId, c: Complete)
    requires LiveOk(s, st, id, c)
    ensures forall path :: path in ManifestPaths(c.manifest) ==> path in st && DataKey(s, id, c.mode, path)
  {
    hide HeadDone, DataKey, StoredNonEmpty, ManifestPaths;
  }

  lemma GoneKeepsLive(s: Site, w: World, gone: set<string>, id: BackupId)
    requires GoodSite(s) && AllHarmless(s, w, gone) && id in w.live && id !in w.disturbed && LiveOk(s, w.store, id, w.live[id])
    ensures LiveOk(s, w.store - gone, id, w.live[id])
  {
    hide *;
    LiveInSite(s, w.store, id, w.live[id]);
    GoneKeepsOwn(s, w, gone, id);
    LivePaths(s, w.store, id, w.live[id]);
    forall path | path in ManifestPaths(w.live[id].manifest) ensures path in w.store - gone {
      LiveRelies(w, id, path);
      if path in gone {
        HarmlessIn(s, w, gone, path);
        HarmlessUnrelied(s, w, path, id, w.live[id].mode);
      }
    }
    ShrinkKeepsLive(s, w.store, w.store - gone, id, w.live[id]);
  }

  lemma HarmlessIn(s: Site, w: World, gone: set<string>, k: string)
    requires AllHarmless(s, w, gone) && k in gone
    ensures Harmless(s, w, k)
  {
    hide Harmless;
  }

  lemma LiveRelies(w: World, id: BackupId, k: string)
    requires id in w.live && k in ManifestPaths(w.live[id].manifest)
    ensures ReliedOn(w, k)
  {
    hide ManifestPaths;
    assert ReliesOn(w, id, k);
  }

  lemma UploadRelies(w: World, id: BackupId, k: string)
    requires id in w.running && id !in w.disturbed && w.running[id].Uploading? && k in ManifestPaths(w.running[id].manifest)
    ensures ReliedOn(w, k)
  {
    hide ManifestPaths;
    assert ReliesOn(w, id, k);
  }

  lemma UploadPaths(s: Site, st: Store, clock: nat, id: BackupId, proc: Process)
    requires proc.Uploading? && UploadingOk(s, st, clock, id, proc)
    ensures forall path :: path in ManifestPaths(proc.manifest) ==> DataKey(s, id, proc.mode, path)
  {
    hide HeadDone, DataKey, ManifestPaths, IsPending;
  }

  lemma GoneKeepsRunning(s: Site, w: World, gone: set<string>, id: BackupId)
    requires GoodSite(s) && AllHarmless(s, w, gone) && id in w.running && id !in w.disturbed
    requires RunningOk(s, w.store, w.clock, w.live, id, w.running[id])
    ensures RunningOk(s, w.store - gone, w.clock, w.live, id, w.running[id])
  {
    var proc, st' := w.running[id], w.store - gone;
    assert InSite(s, id);
    assert Shrinks(w.store, st');
    GoneKeepsOwn(s, w, gone, id);
    hide GoodSite, AllHarmless, InSite, HeadDone, UploadingOk, KeepsOwn, Shrinks, ManifestPaths, DataKey;
    match proc {
      case Starting(mode, done, started) =>
        ShrinkKeepsHead(s, w.store, st', id, mode, started, done);
      case Uploading(mode, _, _, _, _, manifest, _) =>
        UploadPaths(s, w.store, w.clock, id, proc);
        forall path | path in ManifestPaths(manifest) && path in w.store ensures path in st' {
          UploadRelies(w, id, path);
          if path in gone {
            HarmlessIn(s, w, gone, path);
            HarmlessUnrelied(s, w, path, id, mode);
          }
        }
        ShrinkKeepsUploading(s, w.store, st', w.clock, id, proc);
      case Finishing(_, _, _, _) =>
    }
  }

  lemma GoneKeepsSettled(s: Site, st: Store, st': Store, known: set<BackupId>, id: BackupId)
    requires InSite(s, id) && Settled(s, st, known, id) && KeepsOwn(s, st, st', id) && Shrinks(st, st')
    ensures Settled(s, st', known, id)
  {
    MetaBelongs(id, "schema.cql");
    hide Render, Meta;
    forall kind, ts | StoredNonEmpty(s, st', Entry(id, kind, ts)) ensures Stored(s, st', Meta(id, "schema.cql")) {
      assert StoredNonEmpty(s, st, Entry(id, kind, ts));
    }
    forall kind, ts | (kind == IndexNames.Manifest || kind == Finished) && Stored(s, st', Entry(id, kind, ts)) ensures id in known {
      assert Stored(s, st, Entry(id, kind, ts));
    }
  }

  lemma ShrinkKeepsSized(s: Site, st: Store, st': Store)
    requires Sized(s, st) && Shrinks(st, st')
    ensures Sized(s, st')
  {
    hide Render, Meta;
    forall id, kind, ts | InSite(s, id) && (kind == IndexNames.Manifest || kind == Finished) && Stored(s, st', Entry(id, kind, ts))
      ensures StoredNonEmpty(s, st', Entry(id, kind, ts))
    {
      assert Stored(s, st, Entry(id, kind, ts));
    }
  }

  lemma ShrinkKeepsThorough(s: Site, st: Store, st': Store, job: PurgeJob)
    requires Thorough(s, st, job) && Shrinks(st, st')
    ensures Thorough(s, st', job)
  {
    hide Render;
    forall f | StoredNonEmpty(s, st', f) ensures StoredNonEmpty(s, st, f) {}
  }

  lemma GoneShrinks(st: Store, gone: set<string>)
    ensures Shrinks(st, st - gone)
  {
  }

  /** Deleting harmless names keeps the invariant. */
  lemma RemoveKeeps(s: Site, w: World, gone: set<string>)
    requires GoodSite(s) && Inv(s, w) && AllHarmless(s, w, gone)
    ensures Inv(s, w.(store := w.store - gone))
  {
    hide *;
    var w' := w.(store := w.store - gone);
    InvParts(s, w);
    GoneShrinks(w.store, gone);
    ShrinkKeepsKnown(s, w.store, w'.store);
    ShrinkKeepsSized(s, w.store, w'.store);
    SettledParts(s, w);
    forall id | InSite(s, id) && id !in w.disturbed ensures Settled(s, w'.store, w.live.Keys + w.stale, id) {
      GoneKeepsOwn(s, w, gone, id);
      GoneKeepsSettled(s, w.store, w'.store, w.live.Keys + w.stale, id);
    }
    SettledParts(s, w');
    LiveParts(s, w);
    forall id | id in w.live ensures LiveOk(s, w'.store, id, w.live[id]) { GoneKeepsLive(s, w, gone, id); }
    LiveParts(s, w');
    RunsParts(s, w);
    forall id | id in w.running && id !in w.disturbed ensures RunningOk(s, w'.store, w.clock, w.live, id, w.running[id]) {
      GoneKeepsRunning(s, w, gone, id);
    }
    RunsParts(s, w');
    PurgesParts(s, w);
    forall j | j in w.purges ensures PurgeOk(s, w', w.purges[j]) {
      PurgeParts(s, w, w.purges[j]);
      if w.purges[j].quiet { ShrinkKeepsThorough(s, w.store, w'.store, w.purges[j]); }
      PurgeParts(s, w', w.purges[j]);
    }
    PurgesParts(s, w');
    SweepsParts(s, w);
    forall k ensures ReliedOn(w', k) <==> ReliedOn(w, k) { SameRelied(w, w', k); }
    SweepsParts(s, w');
    InvParts(s, w');
  }

  lemma SameRelied(w: World, w': World, k: string)
    requires w'.live == w.live && w'.running == w.running && w'.disturbed == w.disturbed
    ensures ReliedOn(w', k) <==> ReliedOn(w, k)
  {
    hide ManifestPaths;
    forall id ensures ReliesOn(w', id, k) <==> ReliesOn(w, id, k) {}
  }
}
