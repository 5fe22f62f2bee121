/**
 The invariant every step keeps, and what it says about whole runs: no surviving backup ever
 loses an object, and a manifest is never visible before everything it relies on.
 */
module ProtocolSafety {
  import opened Text
  import opened IndexNames
  import opened ObjectStorage
  import opened Layout
  import opened NodeListing
  import opened Purge
  import opened PurgeIsolation
  import opened TableKeys
  import opened PoolIndex
  import opened Snapshots
  import opened Manifests
  import opened Protocol
  import opened Invariant

  // ---------------------------------------------------------------- one write of one backup

  /** What a backup may write: its own keys, its host's pool, the latest-backup marker. */
  ghost predicate Writable(s: Site, me: BackupId, f: KeyForm) {
    && ValidForm(s, f) && (BelongsTo(f, me) || f.Pool? || f.Latest?)
    && (f.Entry? ==> f.kind != Incremental)
    && (f.Pool? ==> PoolObject(s.p, f.fqdn, Render(s.p, f)))
  }

  lemma PutKeepsRunning(s: Site, st: Store, clock: nat, live: map<BackupId, Complete>, live': map<BackupId, Complete>,
                        me: BackupId, id: BackupId, proc: Process, f: KeyForm, b: Blob)
    requires GoodSite(s) && id != me && Writable(s, me, f) && b.mtime == clock && RunningOk(s, st, clock, live, id, proc)
    requires id in live <==> id in live'
    ensures RunningOk(s, st[Render(s.p, f) := b], clock, live', id, proc)
  {
    hide GoodSite, Render, HeadDone, UploadingOk, PoolObject;
    match proc {
      case Starting(mode, done, started) => PutKeepsHead(s, st, id, mode, started, done, f, b);
      case Uploading(_, _, _, _, _, _, _) => PutKeepsUploading(s, st, clock, id, proc, f, b);
      case Finishing(_, _, _, _) =>
    }
  }

  /** What the rest of the system needs of a write: the entry comes after the schema, the finish after the manifest. */
  ghost predicate InOrder(s: Site, w: World, me: BackupId, f: KeyForm, b: Blob, live': map<BackupId, Complete>) {
    && Writable(s, me, f) && b.mtime == w.clock
    && (f.Entry? && me !in w.disturbed ==> Stored(s, w.store, Meta(me, "schema.cql")))
    && (f == Meta(me, "manifest.json") ==> b.size > 0 && b.body.Doc? && (me !in w.disturbed ==> me in live'))
    && (f.Entry? && (f.kind == IndexNames.Manifest || f.kind == Finished) ==> b.size > 0 && (me !in w.disturbed ==> me in live'))
    && (me in w.live ==> me in live')
    && (forall id :: id != me ==> (id in live' <==> id in w.live) && (id in live' ==> live'[id] == w.live[id]))
  }

  lemma LiveGrows(s: Site, st: Store, known: set<BackupId>, more: set<BackupId>, id: BackupId)
    requires Settled(s, st, known, id) && (id in known ==> id in more)
    ensures Settled(s, st, more, id)
  {
    hide Stored, StoredNonEmpty, Meta;
  }

  lemma WriteStepStore(s: Site, w: World, me: BackupId, f: KeyForm, b: Blob, live': map<BackupId, Complete>)
    requires GoodSite(s) && AllKnown(s, w.store) && Sized(s, w.store) && InOrder(s, w, me, f, b, live')
    ensures var st' := w.store[Render(s.p, f) := b]; AllKnown(s, st') && Sized(s, st')
  {
    hide GoodSite, Render, AllKnown, Sized, PoolObject, Stored, Meta;
    if f.Own? && f == Meta(f.id, "manifest.json") { MetaIsOwn(f.id, "manifest.json"); }
    PutKeepsKnown(s, w.store, f, b);
    PutKeepsSized(s, w.store, f, b);
  }

  lemma WriteStepSettled(s: Site, w: World, me: BackupId, f: KeyForm, b: Blob, live': map<BackupId, Complete>, id: BackupId)
    requires GoodSite(s) && InOrder(s, w, me, f, b, live') && InSite(s, id) && id !in w.disturbed
    requires Settled(s, w.store, w.live.Keys + w.stale, id)
    ensures Settled(s, w.store[Render(s.p, f) := b], live'.Keys + w.stale, id)
  {
    hide GoodSite, Render, Settled, PoolObject, Stored;
    LiveGrows(s, w.store, w.live.Keys + w.stale, live'.Keys + w.stale, id);
    PutKeepsSettled(s, w.store, live'.Keys + w.stale, f, b, id);
  }

  lemma WriteStepLive(s: Site, w: World, me: BackupId, f: KeyForm, b: Blob, live': map<BackupId, Complete>, id: BackupId)
    requires GoodSite(s) && InOrder(s, w, me, f, b, live') && id != me && id in w.live && LiveOk(s, w.store, id, w.live[id])
    ensures id in live' && LiveOk(s, w.store[Render(s.p, f) := b], id, live'[id])
  {
    hide GoodSite, Render, LiveOk, PoolObject, Stored, Meta;
    PutKeepsLive(s, w.store, id, w.live[id], f, b);
  }

  lemma OrderUse(s: Site, w: World, me: BackupId, f: KeyForm, b: Blob, live': map<BackupId, Complete>)
    requires InOrder(s, w, me, f, b, live')
    ensures Writable(s, me, f) && b.mtime == w.clock && ValidForm(s, f) && (forall id :: id != me ==> !BelongsTo(f, id))
    ensures forall id :: id != me ==> (id in live' <==> id in w.live) && (id in live' ==> live'[id] == w.live[id])
  {
    hide Render, PoolObject, Stored, Meta;
  }

  /** A write by one backup, together with what becomes of that backup, keeps the invariant. */
  lemma WriteStep(s: Site, w: World, me: BackupId, f: KeyForm, b: Blob, proc': Process, live': map<BackupId, Complete>)
    requires GoodSite(s) && Inv(s, w) && me in w.running && InOrder(s, w, me, f, b, live')
    requires me in live' ==> me !in w.disturbed && LiveOk(s, w.store[Render(s.p, f) := b], me, live'[me])
    requires me in w.disturbed ==> Roaming(s, me, proc')
    requires me !in w.disturbed ==> RunningOk(s, w.store[Render(s.p, f) := b], w.clock, live', me, proc')
    requires var w' := w.(store := w.store[Render(s.p, f) := b], running := w.running[me := proc'], live := live');
             forall k :: ReliedOn(w', k) ==> ReliedOn(w, k)
    ensures Inv(s, w.(store := w.store[Render(s.p, f) := b], running := w.running[me := proc'], live := live'))
  {
    hide *;
    var w' := w.(store := w.store[Render(s.p, f) := b], running := w.running[me := proc'], live := live');
    InvParts(s, w);
    OrderUse(s, w, me, f, b, live');
    WriteStepStore(s, w, me, f, b, live');
    SettledParts(s, w);
    forall id | InSite(s, id) && id !in w.disturbed ensures Settled(s, w'.store, live'.Keys + w.stale, id) {
      WriteStepSettled(s, w, me, f, b, live', id);
    }
    SettledParts(s, w');
    LiveParts(s, w);
    forall id | id in live' ensures id !in w.disturbed && LiveOk(s, w'.store, id, live'[id]) {
      if id != me { WriteStepLive(s, w, me, f, b, live', id); }
    }
    LiveParts(s, w');
    RunsParts(s, w);
    forall id | id in w'.running && id !in w.disturbed ensures RunningOk(s, w'.store, w.clock, live', id, w'.running[id]) {
      if id != me { PutKeepsRunning(s, w.store, w.clock, w.live, live', me, id, w.running[id], f, b); }
    }
    RunsParts(s, w');
    PurgesParts(s, w);
    forall j | j in w.purges ensures PurgeOk(s, w', w.purges[j]) {
      var job := w.purges[j];
      PurgeParts(s, w, job);
      if job.quiet { PutKeepsThorough(s, w.store, f, b, job); }
      PurgeParts(s, w', job);
    }
    PurgesParts(s, w');
    SweepsParts(s, w);
    SweepsParts(s, w');
    InvParts(s, w');
  }

  /** A step of one backup that neither publishes nor lists adds nothing to what is relied on. */
  lemma NothingNew(w: World, w': World, me: BackupId)
    requires w'.live == w.live && w'.disturbed == w.disturbed && me in w.running && me in w'.running
    requires forall id :: id != me ==> (id in w'.running <==> id in w.running) && (id in w'.running ==> w'.running[id] == w.running[id])
    requires w'.running[me].Uploading? ==> w.running[me].Uploading? && w'.running[me].manifest == w.running[me].manifest
    ensures forall k :: ReliedOn(w', k) ==> ReliedOn(w, k)
  {
    hide ManifestPaths;
    forall k, id | ReliesOn(w', id, k) ensures ReliesOn(w, id, k) {}
  }

  /** The manifest of an upload was relied on before it is published. */
  lemma PublishedNotNew(w: World, w': World, me: BackupId)
    requires w'.disturbed == w.disturbed && me in w.running && w.running[me].Uploading? && me in w'.running && w'.running[me].Finishing?
    requires forall id :: id != me ==> (id in w'.running <==> id in w.running) && (id in w'.running ==> w'.running[id] == w.running[id])
    requires w'.live == if me in w.disturbed then w.live else w.live[me := CompleteFrom(w.running[me])]
    ensures forall k :: ReliedOn(w', k) ==> ReliedOn(w, k)
  {
    hide ManifestPaths;
    forall k, id | ReliesOn(w', id, k) ensures ReliesOn(w, id, k) {}
  }

  lemma SchemaFirst(s: Site, st: Store, id: BackupId, mode: Mode, started: nat, n: nat)
    requires HeadDone(s, st, id, mode, started, n) && n > 0
    ensures Stored(s, st, Meta(id, "schema.cql"))
  {
    hide Meta, Render;
    assert WrittenHead(s, st, Head(id, mode, started)[0]);
  }

  lemma HeadApplies(s: Site, w: World, a: Action)
    requires a.WriteHead? && Enabled(s, w, a)
    ensures a.id in w.running && w.running[a.id].Starting?
    ensures var proc := w.running[a.id];
            var started := StartedAt(w, proc);
            && proc.done < |Head(a.id, proc.mode, started)|
            && (a.size > 0 || MayBeEmpty(Head(a.id, proc.mode, started)[proc.done]))
            && var w1 := w.(store := w.store[Render(s.p, Head(a.id, proc.mode, started)[proc.done]) := Blob(a.size, w.clock, "", Raw(a.data))],
                            running := w.running[a.id := Starting(proc.mode, proc.done + 1, started)], live := w.live);
               Apply(s, w, a) == if proc.done == 0 then Renewed(w1, a.id) else w1
  {
    hide Head, Render;
  }

  lemma RenewedFields(w: World, id: BackupId)
    ensures var w' := Renewed(w, id);
            && w'.store == w.store && w'.clock == w.clock && w'.running == w.running && w'.live == w.live
            && w'.purges == w.purges && w'.sweeps == w.sweeps
            && w'.disturbed <= w.disturbed && (id !in w.disturbed ==> w' == w)
            && (w' != w ==> w' == w.(disturbed := w.disturbed - {id}, stale := w.stale + {id})
                            && forall j :: j in w.purges ==> w.purges[j].id != id)
  {
  }

  /** What a first write does to the store and the runs, whether or not it puts a disturbed name to new use. */
  lemma HeadFields(s: Site, w: World, a: Action)
    requires a.WriteHead? && Enabled(s, w, a)
    ensures a.id in w.running && w.running[a.id].Starting?
    ensures var proc, w' := w.running[a.id], Apply(s, w, a);
            var started := StartedAt(w, proc);
            && proc.done < |Head(a.id, proc.mode, started)|
            && w'.store == w.store[Render(s.p, Head(a.id, proc.mode, started)[proc.done]) := Blob(a.size, w.clock, "", Raw(a.data))]
            && w'.running == w.running[a.id := Starting(proc.mode, proc.done + 1, started)]
            && w'.live == w.live && w'.clock == w.clock
  {
    hide *;
    HeadApplies(s, w, a);
    var proc := w.running[a.id];
    var started := StartedAt(w, proc);
    RenewedFields(w.(store := w.store[Render(s.p, Head(a.id, proc.mode, started)[proc.done]) := Blob(a.size, w.clock, "", Raw(a.data))],
                     running := w.running[a.id := Starting(proc.mode, proc.done + 1, started)], live := w.live), a.id);
  }

  lemma StaleSettled(s: Site, st: Store, known: set<BackupId>, id: BackupId)
    requires Stored(s, st, Meta(id, "schema.cql")) && id in known
    ensures Settled(s, st, known, id)
  {
    hide Render, Meta;
  }

  /** A disturbed name that is in use again, with its schema written and no purge of it under way, is safe to rely on. */
  lemma RenewedKeeps(s: Site, w: World, id: BackupId)
    requires Inv(s, w) && id in w.running && w.running[id].Starting? && w.running[id].done > 0
    requires HeadDone(s, w.store, id, w.running[id].mode, w.running[id].started, w.running[id].done)
    ensures Inv(s, Renewed(w, id))
  {
    hide *;
    RenewedFields(w, id);
    var w' := Renewed(w, id);
    if w' == w { return; }
    var proc := w.running[id];
    InvParts(s, w);
    SchemaFirst(s, w.store, id, proc.mode, proc.started, proc.done);
    SettledParts(s, w);
    forall o | InSite(s, o) && o !in w'.disturbed ensures Settled(s, w'.store, w'.live.Keys + w'.stale, o) {
      if o == id {
        StaleSettled(s, w.store, w'.live.Keys + w'.stale, id);
      } else {
        LiveGrows(s, w.store, w.live.Keys + w.stale, w'.live.Keys + w'.stale, o);
      }
    }
    SettledParts(s, w');
    LiveParts(s, w);
    LiveParts(s, w');
    RunInSite(s, w, id);
    RunsParts(s, w);
    if id !in w.live { StartingMake(s, w.store, w.clock, w.live, id, proc.mode, proc.done, proc.started); }
    StartingIs(proc);
    RunsParts(s, w');
    PurgesParts(s, w);
    forall j | j in w'.purges ensures PurgeOk(s, w', w'.purges[j]) {
      PurgeParts(s, w, w.purges[j]);
      PurgeParts(s, w', w.purges[j]);
    }
    PurgesParts(s, w');
    StartingRelied(w, w', id);
    SweepsParts(s, w);
    SweepsParts(s, w');
    InvParts(s, w');
  }

  lemma StartingIs(proc: Process)
    requires proc.Starting?
    ensures proc == Starting(proc.mode, proc.done, proc.started)
  {
  }

  lemma StartingRelied(w: World, w': World, id: BackupId)
    requires w'.live == w.live && w'.running == w.running && w.disturbed - {id} <= w'.disturbed && (id in w.running ==> !w.running[id].Uploading?)
    ensures forall k :: ReliedOn(w', k) ==> ReliedOn(w, k)
  {
    hide ManifestPaths;
    forall k, o | ReliesOn(w', o, k) ensures ReliesOn(w, o, k) {}
  }

  /** A live backup is no longer a name with leftovers. */
  lemma UnstaleKeeps(s: Site, w: World, id: BackupId)
    requires Inv(s, w) && (id in w.live || id in w.disturbed)
    ensures Inv(s, w.(stale := w.stale - {id}))
  {
    hide *;
    var w' := w.(stale := w.stale - {id});
    InvParts(s, w);
    SettledParts(s, w);
    forall o | InSite(s, o) && o !in w'.disturbed ensures Settled(s, w'.store, w'.live.Keys + w'.stale, o) {
      LiveGrows(s, w.store, w.live.Keys + w.stale, w'.live.Keys + w'.stale, o);
    }
    SettledParts(s, w');
    LiveParts(s, w);
    LiveParts(s, w');
    RunsParts(s, w);
    RunsParts(s, w');
    SamePurges(s, w, w');
    SweepsParts(s, w);
    forall k ensures ReliedOn(w', k) <==> ReliedOn(w, k) { SameRelied(w, w', k); }
    SweepsParts(s, w');
    InvParts(s, w');
  }

  lemma StartingUse(s: Site, w: World, id: BackupId)
    requires RunsOk(s, w) && id in w.running && w.running[id].Starting?
    ensures InSite(s, id)
    ensures var proc := w.running[id];
            id !in w.disturbed ==> id !in w.live && (proc.done == 0 || HeadDone(s, w.store, id, proc.mode, StartedAt(w, proc), proc.done))
  {
    RunInSite(s, w, id);
    RunsParts(s, w);
    hide HeadDone, InSite, RunsOk;
  }

  lemma StartingMake(s: Site, st: Store, clock: nat, live: map<BackupId, Complete>, id: BackupId, mode: Mode, done: nat, started: nat)
    requires InSite(s, id) && id !in live && HeadDone(s, st, id, mode, started, done)
    ensures RunningOk(s, st, clock, live, id, Starting(mode, done, started))
  {
    hide HeadDone;
  }

  lemma RoamingPlain(s: Site, id: BackupId, proc: Process)
    requires InSite(s, id) && !proc.Uploading?
    ensures Roaming(s, id, proc)
  {
  }

  lemma HeadInOrder(s: Site, w: World, id: BackupId, mode: Mode, started: nat, n: nat, b: Blob)
    requires InSite(s, id) && n < |Head(id, mode, started)| && b.mtime == w.clock
    requires id !in w.disturbed ==> n == 0 || HeadDone(s, w.store, id, mode, started, n)
    ensures InOrder(s, w, id, Head(id, mode, started)[n], b, w.live)
  {
    HeadForms(id, mode, started, n);
    if n > 0 && id !in w.disturbed {
      SchemaFirst(s, w.store, id, mode, started, n);
    }
    hide Head, Render, HeadDone, Meta, Stored;
  }

  lemma HeadStep(s: Site, w: World, a: Action)
    requires GoodSite(s) && Inv(s, w) && a.WriteHead? && Enabled(s, w, a)
    ensures Inv(s, Apply(s, w, a))
  {
    hide *;
    HeadApplies(s, w, a);
    InvParts(s, w);
    var me, proc := a.id, w.running[a.id];
    var started := StartedAt(w, proc);
    var f, b := Head(me, proc.mode, started)[proc.done], Blob(a.size, w.clock, "", Raw(a.data));
    var proc' := Starting(proc.mode, proc.done + 1, started);
    StartingUse(s, w, me);
    LiveParts(s, w);
    if me in w.disturbed {
      RoamingPlain(s, me, proc');
    } else {
      HeadGrows(s, w.store, me, proc.mode, started, proc.done, b);
      StartingMake(s, w.store[Render(s.p, f) := b], w.clock, w.live, me, proc.mode, proc.done + 1, started);
    }
    HeadInOrder(s, w, me, proc.mode, started, proc.done, b);
    NothingNew(w, w.(store := w.store[Render(s.p, f) := b], running := w.running[me := proc'], live := w.live), me);
    WriteStep(s, w, me, f, b, proc', w.live);
    if proc.done == 0 {
      HeadGrows(s, w.store, me, proc.mode, started, 0, b);
      RenewedKeeps(s, w.(store := w.store[Render(s.p, f) := b], running := w.running[me := proc'], live := w.live), me);
    }
  }

  lemma HeadGrows(s: Site, st: Store, id: BackupId, mode: Mode, started: nat, n: nat, b: Blob)
    requires GoodSite(s) && InSite(s, id) && n < |Head(id, mode, started)|
    requires n == 0 || HeadDone(s, st, id, mode, started, n)
    requires b.size > 0 || MayBeEmpty(Head(id, mode, started)[n])
    ensures HeadDone(s, st[Render(s.p, Head(id, mode, started)[n]) := b], id, mode, started, n + 1)
  {
    var f := Head(id, mode, started)[n];
    HeadForms(id, mode, started, n);
    hide GoodSite, Render, Head, WrittenHead;
    if n > 0 {
      PutKeepsHead(s, st, id, mode, started, n, f, b);
    }
    assert WrittenHead(s, st[Render(s.p, f) := b], f) by { NewlyWritten(s, st, f, b); }
  }

  lemma NewlyWritten(s: Site, st: Store, f: KeyForm, b: Blob)
    requires b.size > 0 || MayBeEmpty(f)
    ensures WrittenHead(s, st[Render(s.p, f) := b], f)
  {
    hide Render;
  }

  lemma UploadingUse(s: Site, w: World, id: BackupId)
    requires RunsOk(s, w) && id in w.running && w.running[id].Uploading?
    ensures InSite(s, id)
    ensures id in w.disturbed ==> Roaming(s, id, w.running[id])
    ensures id !in w.disturbed ==> id !in w.live && UploadingOk(s, w.store, w.clock, id, w.running[id])
  {
    RunInSite(s, w, id);
    RunsParts(s, w);
    hide UploadingOk, InSite, RunsOk, Roaming;
  }

  lemma UploadingMake(s: Site, st: Store, clock: nat, live: map<BackupId, Complete>, id: BackupId, proc: Process)
    requires InSite(s, id) && id !in live && proc.Uploading? && UploadingOk(s, st, clock, id, proc)
    ensures RunningOk(s, st, clock, live, id, proc)
  {
    hide UploadingOk;
  }

  function Sent(proc: Process, u: Upload): Process
    requires proc.Uploading?
  {
    proc.(pending := proc.pending - {u})
  }

  lemma SendApplies(s: Site, w: World, a: Action)
    requires a.Send? && Enabled(s, w, a)
    ensures a.id in w.running && w.running[a.id].Uploading? && a.upload in w.running[a.id].pending
    ensures Apply(s, w, a) == w.(store := w.store[a.upload.key := BlobOf(a.upload, w.clock)],
                                 running := w.running[a.id := Sent(w.running[a.id], a.upload)], live := w.live)
  {
    hide BlobOf;
  }

  lemma DataInOrder(s: Site, w: World, id: BackupId, mode: Mode, path: string, f: KeyForm, b: Blob)
    requires DataForm(s, id, mode, path, f) && b.mtime == w.clock
    ensures Writable(s, id, f) && InOrder(s, w, id, f, b, w.live) && ValidForm(s, f) && !f.Entry? && path == Render(s.p, f)
  {
    DataNotManifest(s, id, mode, path, f);
    hide Render, PoolObject, Meta, Writable, Stored;
  }

  lemma RoamingKeys(s: Site, st: Store, clock: nat, id: BackupId, proc: Process)
    requires proc.Uploading? && (Roaming(s, id, proc) || UploadingOk(s, st, clock, id, proc))
    ensures forall path :: path in ManifestPaths(proc.manifest) ==> DataKey(s, id, proc.mode, path)
    ensures forall u :: u in proc.pending ==> DataKey(s, id, proc.mode, u.key)
  {
    hide HeadDone, DataKey, IsPending, ManifestPaths;
  }

  lemma FormOf(s: Site, id: BackupId, mode: Mode, path: string) returns (f: KeyForm)
    requires DataKey(s, id, mode, path)
    ensures DataForm(s, id, mode, path, f)
  {
    hide DataForm;
    f :| DataForm(s, id, mode, path, f);
  }

  lemma SentRoams(s: Site, id: BackupId, proc: Process, u: Upload)
    requires Roaming(s, id, proc) && proc.Uploading?
    ensures Roaming(s, id, Sent(proc, u))
  {
    hide DataKey, ManifestPaths;
  }

  lemma SentFields(proc: Process, u: Upload)
    requires proc.Uploading?
    ensures Sent(proc, u).Uploading? && Sent(proc, u).manifest == proc.manifest
  {
  }

  lemma SendStep(s: Site, w: World, a: Action)
    requires GoodSite(s) && Inv(s, w) && a.Send? && Enabled(s, w, a)
    ensures Inv(s, Apply(s, w, a))
  {
    hide *;
    SendApplies(s, w, a);
    InvParts(s, w);
    LiveParts(s, w);
    var me, u, proc := a.id, a.upload, w.running[a.id];
    var b := BlobOf(u, w.clock);
    UploadTime(u, w.clock);
    UploadingUse(s, w, me);
    RoamingKeys(s, w.store, w.clock, me, proc);
    var f := FormOf(s, me, proc.mode, u.key);
    DataInOrder(s, w, me, proc.mode, u.key, f, b);
    SentFields(proc, u);
    if me in w.disturbed {
      SentRoams(s, me, proc, u);
    } else {
      PutKeepsUploading(s, w.store, w.clock, me, proc, f, b);
      SentOk(s, w.store, w.clock, me, proc, u, b);
      UploadingMake(s, w.store[Render(s.p, f) := b], w.clock, w.live, me, Sent(proc, u));
    }
    NothingNew(w, w.(store := w.store[Render(s.p, f) := b], running := w.running[me := Sent(proc, u)], live := w.live), me);
    WriteStep(s, w, me, f, b, Sent(proc, u), w.live);
  }

  lemma UploadTime(u: Upload, now: nat)
    ensures BlobOf(u, now).mtime == now
  {
  }

  lemma DataNotManifest(s: Site, id: BackupId, mode: Mode, path: string, f: KeyForm)
    requires DataForm(s, id, mode, path, f)
    ensures Writable(s, id, f) && !f.Entry? && f != Meta(id, "manifest.json")
  {
    hide Render, PoolObject;
    if f.Own? {
      assert f.rest[0] == "data/"[0] == 'd';
      assert ("meta/" + "manifest.json")[0] == 'm';
    }
  }

  /** Once an upload is stored it is no longer pending. */
  lemma SentOk(s: Site, st: Store, clock: nat, id: BackupId, proc: Process, u: Upload, b: Blob)
    requires proc.Uploading? && b.mtime == clock && UploadingOk(s, st[u.key := b], clock, id, proc)
    ensures UploadingOk(s, st[u.key := b], clock, id, Sent(proc, u))
  {
    hide HeadDone, DataKey;
    var st' := st[u.key := b];
    forall path | path in ManifestPaths(proc.manifest)
      ensures IsPending(proc.pending - {u}, path) || (path in st' && (path in proc.kept || st'[path].mtime >= proc.began))
    {
      if path != u.key && IsPending(proc.pending, path) {
        var v :| v in proc.pending && v.key == path;
        assert v in proc.pending - {u};
      }
    }
  }

  lemma PublishApplies(s: Site, w: World, a: Action)
    requires a.Publish? && Enabled(s, w, a)
    ensures a.id in w.running && w.running[a.id].Uploading? && w.running[a.id].pending == {} && a.size > 0
    ensures var proc := w.running[a.id];
            Apply(s, w, a) == w.(store := w.store[Render(s.p, Meta(a.id, "manifest.json")) := Blob(a.size, w.clock, "", Doc(proc.manifest))],
                                 running := w.running[a.id := Finishing(proc.mode, proc.manifest, 0, w.clock)],
                                 live := if a.id in w.disturbed then w.live else w.live[a.id := CompleteFrom(proc)],
                                 stale := w.stale - {a.id})
  {
    hide Render, Meta;
  }

  lemma ManifestInOrder(s: Site, w: World, id: BackupId, b: Blob, live': map<BackupId, Complete>)
    requires InSite(s, id) && b.mtime == w.clock && b.size > 0 && b.body.Doc? && (id in w.live ==> id in live')
    requires id !in w.disturbed ==> id in live'
    requires forall o :: o != id ==> (o in live' <==> o in w.live) && (o in live' ==> live'[o] == w.live[o])
    ensures InOrder(s, w, id, Meta(id, "manifest.json"), b, live')
  {
    hide Render, Stored;
  }

  lemma UploadingHead(s: Site, st: Store, clock: nat, id: BackupId, proc: Process)
    requires proc.Uploading? && UploadingOk(s, st, clock, id, proc)
    ensures HeadDone(s, st, id, proc.mode, proc.started, |Head(id, proc.mode, proc.started)|)
  {
    hide HeadDone, DataKey, Head;
  }

  lemma FinishingMake(s: Site, st: Store, clock: nat, live: map<BackupId, Complete>, id: BackupId, proc: Process)
    requires InSite(s, id) && proc.Finishing? && id in live
    ensures RunningOk(s, st, clock, live, id, proc)
  {
  }

  lemma PublishStep(s: Site, w: World, a: Action)
    requires GoodSite(s) && Inv(s, w) && a.Publish? && Enabled(s, w, a)
    ensures Inv(s, Apply(s, w, a))
  {
    hide *;
    PublishApplies(s, w, a);
    InvParts(s, w);
    LiveParts(s, w);
    var me, proc := a.id, w.running[a.id];
    var f, b := Meta(me, "manifest.json"), Blob(a.size, w.clock, "", Doc(proc.manifest));
    var live' := if me in w.disturbed then w.live else w.live[me := CompleteFrom(proc)];
    var proc' := Finishing(proc.mode, proc.manifest, 0, w.clock);
    UploadingUse(s, w, me);
    ManifestInOrder(s, w, me, b, live');
    if me in w.disturbed {
      RoamingPlain(s, me, proc');
    } else {
      UploadingHead(s, w.store, w.clock, me, proc);
      MetaBelongs(me, "manifest.json");
      OwnIsValid(s, me, "manifest.json");
      PutKeepsHead(s, w.store, me, proc.mode, proc.started, |Head(me, proc.mode, proc.started)|, f, b);
      PublishedLive(s, w.store, w.clock, me, proc, b);
      FinishingMake(s, w.store[Render(s.p, f) := b], w.clock, live', me, proc');
    }
    PublishedNotNew(w, w.(store := w.store[Render(s.p, f) := b], running := w.running[me := proc'], live := live'), me);
    WriteStep(s, w, me, f, b, proc', live');
    UnstaleKeeps(s, w.(store := w.store[Render(s.p, f) := b], running := w.running[me := proc'], live := live'), me);
  }

  lemma OwnIsValid(s: Site, id: BackupId, file: string)
    requires InSite(s, id)
    ensures ValidForm(s, Meta(id, file)) && !Meta(id, file).Entry?
  {
  }

  lemma PublishedLive(s: Site, st: Store, clock: nat, id: BackupId, proc: Process, b: Blob)
    requires InSite(s, id) && proc.Uploading? && proc.pending == {} && UploadingOk(s, st, clock, id, proc)
    requires b.size > 0 && b.body == Doc(proc.manifest)
    requires HeadDone(s, st[Render(s.p, Meta(id, "manifest.json")) := b], id, proc.mode, proc.started, |Head(id, proc.mode, proc.started)|)
    ensures LiveOk(s, st[Render(s.p, Meta(id, "manifest.json")) := b], id, CompleteFrom(proc))
  {
    hide Render, HeadDone, DataKey, Head, Meta;
    forall path | path in ManifestPaths(proc.manifest) ensures path in st && DataKey(s, id, proc.mode, path) {
      assert !IsPending(proc.pending, path);
    }
  }

  lemma TailApplies(s: Site, w: World, a: Action)
    requires a.WriteTail? && Enabled(s, w, a)
    ensures a.id in w.running && w.running[a.id].Finishing? && w.running[a.id].done < 4 && a.size > 0
    ensures var proc := w.running[a.id];
            Apply(s, w, a) == w.(store := w.store[Render(s.p, Protocol.Tail(a.id, proc.finished)[proc.done])
                                                  := Blob(a.size, w.clock, "", if proc.done == 0 then Doc(proc.manifest) else Raw(a.data))],
                                 running := w.running[a.id := Finishing(proc.mode, proc.manifest, proc.done + 1, proc.finished)], live := w.live)
  {
    hide Render;
  }

  lemma TailForms(s: Site, w: World, id: BackupId, finished: nat, n: nat, b: Blob)
    requires n < 4 && InSite(s, id) && b.mtime == w.clock && b.size > 0
    requires id !in w.disturbed ==> id in w.live && LiveOk(s, w.store, id, w.live[id])
    ensures var f := Protocol.Tail(id, finished)[n];
            ValidForm(s, f) && !f.Own? && InOrder(s, w, id, f, b, w.live)
  {
    if id !in w.disturbed {
      var c := w.live[id];
      SchemaFirst(s, w.store, id, c.mode, c.started, |Head(id, c.mode, c.started)|);
    }
    hide Head, Render, LiveOk, Stored;
  }

  lemma FinishingUse(s: Site, w: World, id: BackupId)
    requires RunsOk(s, w) && id in w.running && w.running[id].Finishing?
    ensures InSite(s, id) && (id !in w.disturbed ==> id in w.live)
  {
    RunInSite(s, w, id);
    RunsParts(s, w);
    hide InSite, RunsOk, Roaming;
  }

  lemma TailStep(s: Site, w: World, a: Action)
    requires GoodSite(s) && Inv(s, w) && a.WriteTail? && Enabled(s, w, a)
    ensures Inv(s, Apply(s, w, a))
  {
    hide *;
    TailApplies(s, w, a);
    InvParts(s, w);
    LiveParts(s, w);
    var me, proc := a.id, w.running[a.id];
    var f := Protocol.Tail(me, proc.finished)[proc.done];
    var b := Blob(a.size, w.clock, "", if proc.done == 0 then Doc(proc.manifest) else Raw(a.data));
    var proc' := Finishing(proc.mode, proc.manifest, proc.done + 1, proc.finished);
    FinishingUse(s, w, me);
    TailForms(s, w, me, proc.finished, proc.done, b);
    if me in w.disturbed {
      RoamingPlain(s, me, proc');
    } else {
      PutKeepsLive(s, w.store, me, w.live[me], f, b);
      FinishingMake(s, w.store[Render(s.p, f) := b], w.clock, w.live, me, proc');
    }
    NothingNew(w, w.(store := w.store[Render(s.p, f) := b], running := w.running[me := proc'], live := w.live), me);
    WriteStep(s, w, me, f, b, proc', w.live);
  }

  // ---------------------------------------------------------------- steps of backups without a write

  /** What may change while the store stays: less is live or relied on, runs and purges stay in order. */
  lemma StillStep(s: Site, w: World, w': World)
    requires Inv(s, w) && w'.store == w.store && w'.live == w.live && w'.disturbed == w.disturbed && w'.stale == w.stale && w'.sweeps == w.sweeps
    requires RunsOk(s, w') && PurgesOk(s, w')
    requires forall k :: ReliedOn(w', k) ==> ReliedOn(w, k)
    ensures Inv(s, w')
  {
    hide *;
    InvParts(s, w);
    SettledParts(s, w);
    SettledParts(s, w');
    LiveParts(s, w);
    LiveParts(s, w');
    SweepsParts(s, w);
    SweepsParts(s, w');
    InvParts(s, w');
  }

  lemma BeginApplies(s: Site, w: World, a: Action)
    requires a.Begin? && Enabled(s, w, a)
    ensures InSite(s, a.id) && a.id !in w.running && !Stored(s, w.store, Meta(a.id, "schema.cql"))
    ensures Apply(s, w, a) == w.(running := w.running[a.id := Starting(a.mode, 0, 0)], purges := Alarmed(w.purges, a.id))
  {
    hide Render, Meta, Alarmed;
  }

  lemma LiveHasSchema(s: Site, st: Store, id: BackupId, c: Complete)
    requires LiveOk(s, st, id, c)
    ensures Stored(s, st, Meta(id, "schema.cql"))
  {
    SchemaFirst(s, st, id, c.mode, c.started, |Head(id, c.mode, c.started)|);
  }

  lemma AlarmedOk(s: Site, w: World, id: BackupId, w': World)
    requires PurgesOk(s, w) && w'.store == w.store && w'.disturbed == w.disturbed && w'.purges == Alarmed(w.purges, id)
    requires forall o :: o in w'.running ==> o in w.running || o == id
    ensures PurgesOk(s, w')
  {
    hide OwnKey, Thorough, InSite;
    forall j | j in w'.purges ensures PurgeOk(s, w', w'.purges[j]) {
      assert PurgeOk(s, w, w.purges[j]);
    }
  }

  lemma NothingDone(s: Site, st: Store, id: BackupId, mode: Mode)
    ensures HeadDone(s, st, id, mode, 0, 0)
  {
    hide Head;
  }

  lemma BeginRuns(s: Site, w: World, id: BackupId, mode: Mode, w': World)
    requires RunsOk(s, w) && LivesOk(s, w) && InSite(s, id) && !Stored(s, w.store, Meta(id, "schema.cql"))
    requires w'.store == w.store && w'.clock == w.clock && w'.live == w.live && w'.disturbed == w.disturbed
    requires w'.running == w.running[id := Starting(mode, 0, 0)]
    ensures RunsOk(s, w')
  {
    hide *;
    RunsParts(s, w);
    LiveParts(s, w);
    if id in w.live { LiveHasSchema(s, w.store, id, w.live[id]); }
    NothingDone(s, w.store, id, mode);
    StartingMake(s, w.store, w.clock, w.live - (if id in w.live then {id} else {}), id, mode, 0, 0);
    RoamingPlain(s, id, Starting(mode, 0, 0));
    assert id !in w.live ==> w.live - {} == w.live;
    RunsParts(s, w');
  }

  lemma FewerRelied(w: World, w': World)
    requires w'.live == w.live && w'.disturbed == w.disturbed
    requires forall id :: id in w'.running && w'.running[id].Uploading? ==> id in w.running && w'.running[id] == w.running[id]
    ensures forall k :: ReliedOn(w', k) ==> ReliedOn(w, k)
  {
    hide ManifestPaths;
    forall k, id | ReliesOn(w', id, k) ensures ReliesOn(w, id, k) {}
  }

  lemma BeginStep(s: Site, w: World, a: Action)
    requires Inv(s, w) && a.Begin? && Enabled(s, w, a)
    ensures Inv(s, Apply(s, w, a))
  {
    hide *;
    BeginApplies(s, w, a);
    InvParts(s, w);
    var w' := Apply(s, w, a);
    BeginRuns(s, w, a.id, a.mode, w');
    AlarmedOk(s, w, a.id, w');
    FewerRelied(w, w');
    StillStep(s, w, w');
  }

  lemma TickApplies(s: Site, w: World, a: Action)
    requires (a.Tick? || a.Stop?) && Enabled(s, w, a)
    ensures var w' := Apply(s, w, a);
            && w'.store == w.store && w'.live == w.live && w.clock <= w'.clock
            && w'.purges == w.purges && w'.sweeps == w.sweeps && w'.disturbed == w.disturbed && w'.stale == w.stale
            && forall id :: id in w'.running ==> id in w.running && w'.running[id] == w.running[id]
  {
  }

  lemma LaterRunning(s: Site, st: Store, clock: nat, later: nat, live: map<BackupId, Complete>, id: BackupId, proc: Process)
    requires RunningOk(s, st, clock, live, id, proc) && clock <= later
    ensures RunningOk(s, st, later, live, id, proc)
  {
    hide HeadDone, DataKey, IsPending;
  }

  lemma TickStep(s: Site, w: World, a: Action)
    requires Inv(s, w) && (a.Tick? || a.Stop?) && Enabled(s, w, a)
    ensures Inv(s, Apply(s, w, a))
  {
    hide *;
    TickApplies(s, w, a);
    InvParts(s, w);
    var w' := Apply(s, w, a);
    RunsParts(s, w);
    forall id | id in w'.running && id !in w.disturbed ensures RunningOk(s, w'.store, w'.clock, w'.live, id, w'.running[id]) {
      LaterRunning(s, w.store, w.clock, w'.clock, w.live, id, w.running[id]);
    }
    RunsParts(s, w');
    PurgesParts(s, w);
    forall j | j in w.purges ensures PurgeOk(s, w', w.purges[j]) {
      PurgeParts(s, w, w.purges[j]);
      PurgeParts(s, w', w.purges[j]);
    }
    PurgesParts(s, w');
    FewerRelied(w, w');
    StillStep(s, w, w');
  }

  // ---------------------------------------------------------------- listing the pool

  lemma SiteComponents(s: Site, id: BackupId)
    requires GoodSite(s) && InSite(s, id)
    ensures SimplePrefix(s.p) && Component(id.fqdn) && Component(id.name) && s.p != id.fqdn + "/"
  {
    hide Contains, IndexApart;
    if s.p != "" {
      assert |s.p[..|s.p| - 1]| >= 2;
    }
  }

  lemma ItemsAreKnown(s: Site, st: Store, order: seq<string>, h: string)
    requires GoodSite(s) && h in s.hosts && AllKnown(s, st)
    requires Enumerates(order, ListBlobs(st, PoolPath(s.p, h) + "/"))
    ensures forall o :: o in Items(st, order) ==> o.path in st && PoolObject(s.p, h, o.path)
  {
    hide Render, GoodSite, PoolObject, PoolPath;
    forall o | o in Items(st, order) ensures o.path in st && PoolObject(s.p, h, o.path) {
      var i :| 0 <= i < |order| && o == Items(st, order)[i];
      var k := order[i];
      assert k in ListBlobs(st, PoolPath(s.p, h) + "/") && o.path == k;
      assert Known(s, k);
      var f :| ValidForm(s, f) && k == Render(s.p, f) && (f.Pool? ==> PoolObject(s.p, f.fqdn, k));
      PoolPathReaches(s, h, f);
    }
  }

  /** The key of an upload is in the backup's own data folder or its host's pool. */
  lemma UploadIsData(s: Site, run: Run, tables: seq<Table>, u: Upload)
    requires GoodSite(s) && InSite(s, run.id) && run.p == s.p && GoodRun(run) && UploadedBy(run, tables, u)
    ensures DataKey(s, run.id, run.mode, u.key)
  {
    var t, f :| t in tables && UploadOf(run, t, f, u);
    KeyForShape(run, t, f);
    var rel := Relative(t.keyspace, t.folder, f.sub, f.name);
    hide KeyFor, Relative, GoodSite;
    if run.mode.Full? {
      var g := Own(run.id, "data/" + rel);
      assert Render(s.p, g) == u.key by { RegroupFull(BackupPath(s.p, run.id), rel); }
      assert DataForm(s, run.id, run.mode, u.key, g);
    } else {
      var g := Pool(run.id.fqdn, rel);
      assert Render(s.p, g) == u.key;
      assert DataParts(s.p, run.id, run.mode) == DataParts(s.p, BackupId(run.id.fqdn, ""), Layout.Differential);
      assert PoolFile(s.p, run.id.fqdn, u.key, t.keyspace, t.folder, f);
      assert DataForm(s, run.id, run.mode, u.key, g);
    }
  }

  lemma RegroupFull(path: string, rel: string)
    ensures path + "/data" + "/" + rel == path + "/" + ("data/" + rel)
  {
    assert "/data" + "/" == "/" + "data/";
    assert path + "/data" + "/" + rel == path + ("/data" + "/") + rel;
  }

  lemma PoolIsData(s: Site, id: BackupId, path: string)
    requires GoodSite(s) && InSite(s, id) && PoolObject(s.p, id.fqdn, path)
    ensures DataKey(s, id, Layout.Differential, path)
  {
    SiteComponents(s, id);
    var rest := PoolObjectShape(s.p, id.fqdn, path);
    hide PoolObject, GoodSite;
    assert DataForm(s, id, Layout.Differential, path, Pool(id.fqdn, rest));
  }

  function UploadingFrom(s: Site, w: World, a: Action): Process
    requires a.ListPool? && a.id in w.running && w.running[a.id].Starting?
  {
    var proc := w.running[a.id];
    var run := RunFor(s, w, a, proc.mode);
    Uploading(proc.mode, proc.started, w.clock, KeptOf(run, a.tables), PendingOf(run, a.tables), ManifestOf(run, a.tables),
              Plan(run, ItemsFor(w, a, proc.mode), a.tables))
  }

  lemma ListApplies(s: Site, w: World, a: Action)
    requires a.ListPool? && Enabled(s, w, a)
    ensures a.id in w.running && w.running[a.id].Starting?
    ensures var proc := w.running[a.id];
            && proc.done == |Head(a.id, proc.mode, proc.started)|
            && Enumerates(a.order, ListBlobs(w.store, PoolPath(s.p, a.id.fqdn) + "/"))
            && |a.root| >= 1 && GoodTag(a.tag) && (forall t :: t in a.tables ==> GoodTableFiles(t))
            && Apply(s, w, a) == w.(running := w.running[a.id := UploadingFrom(s, w, a)])
  {
    hide Head, RunFor, ItemsFor, KeptOf, PendingOf, ManifestOf, Enumerates, GoodTableFiles;
  }

  lemma RunIsGood(s: Site, w: World, a: Action, mode: Mode)
    requires GoodSite(s) && AllKnown(s, w.store) && a.ListPool? && InSite(s, a.id)
    requires Enumerates(a.order, ListBlobs(w.store, PoolPath(s.p, a.id.fqdn) + "/")) && |a.root| >= 1 && GoodTag(a.tag)
    ensures GoodRun(RunFor(s, w, a, mode)) && IndexedFrom(RunFor(s, w, a, mode), ItemsFor(w, a, mode))
    ensures forall o :: o in ItemsFor(w, a, mode) ==> mode.Differential? && o.path in w.store && PoolObject(s.p, a.id.fqdn, o.path)
  {
    SiteComponents(s, a.id);
    ItemsAreKnown(s, w.store, a.order, a.id.fqdn);
    hide GoodSite, AllKnown, Items, PoolObject, IndexOf, Enumerates;
  }

  lemma PathsOfSections(m: Manifest, path: string)
    requires path in ManifestPaths(m)
    ensures exists sec, o :: sec in m && o in sec.objects && o.path == path
  {
  }

  /** After the listing, a manifest path is pending, or kept and in the store. */
  lemma PlannedPath(s: Site, w: World, run: Run, items: seq<ManifestObject>, tables: seq<Table>, path: string)
    requires GoodSite(s) && InSite(s, run.id) && run.p == s.p && GoodRun(run) && IndexedFrom(run, items)
    requires forall t :: t in tables ==> GoodTableFiles(t)
    requires forall o :: o in items ==> run.mode.Differential? && o.path in w.store && PoolObject(s.p, run.id.fqdn, o.path)
    requires path in ManifestPaths(ManifestOf(run, tables))
    ensures DataKey(s, run.id, run.mode, path)
    ensures IsPending(PendingOf(run, tables), path) || (path in w.store && path in KeptOf(run, tables))
  {
    hide GoodSite, GoodRun, IndexedFrom, GoodTableFiles, ManifestOf, UploadsOf, PoolObject, DataKey, UploadedBy, ManifestPaths;
    ManifestAccounted(run, items, tables);
    UploadsMember(run, tables);
    PathsOfSections(ManifestOf(run, tables), path);
    if u :| u in UploadsOf(run, tables) && u.key == path {
      assert u in PendingOf(run, tables);
      UploadIsData(s, run, tables, u);
    } else {
      var sec, o :| sec in ManifestOf(run, tables) && o in sec.objects && o.path == path;
      var item :| item in items && item.path == path;
      PoolIsData(s, run.id, path);
    }
  }

  lemma PlanOk(s: Site, w: World, a: Action, mode: Mode, started: nat)
    requires GoodSite(s) && AllKnown(s, w.store) && a.ListPool? && InSite(s, a.id)
    requires a.id in w.running && w.running[a.id].Starting? && w.running[a.id].mode == mode && w.running[a.id].started == started
    requires Enumerates(a.order, ListBlobs(w.store, PoolPath(s.p, a.id.fqdn) + "/")) && |a.root| >= 1 && GoodTag(a.tag)
    requires forall t :: t in a.tables ==> GoodTableFiles(t)
    ensures Roaming(s, a.id, UploadingFrom(s, w, a))
    ensures HeadDone(s, w.store, a.id, mode, started, |Head(a.id, mode, started)|) ==>
              UploadingOk(s, w.store, w.clock, a.id, UploadingFrom(s, w, a))
  {
    RunIsGood(s, w, a, mode);
    var run, items := RunFor(s, w, a, mode), ItemsFor(w, a, mode);
    assert run.id == a.id && run.mode == mode && run.p == s.p;
    UploadsMember(run, a.tables);
    hide GoodSite, AllKnown, HeadDone, Head, GoodRun, IndexedFrom, GoodTableFiles, ManifestOf, UploadsOf, KeptOf, PoolObject,
      RunFor, ItemsFor, Enumerates, DataKey, UploadedBy, IsPending, ManifestPaths;
    forall u | u in PendingOf(run, a.tables) ensures DataKey(s, a.id, mode, u.key) {
      UploadIsData(s, run, a.tables, u);
    }
    forall path | path in ManifestPaths(ManifestOf(run, a.tables))
      ensures DataKey(s, a.id, mode, path)
      ensures IsPending(PendingOf(run, a.tables), path) || (path in w.store && path in KeptOf(run, a.tables))
    {
      PlannedPath(s, w, run, items, a.tables, path);
    }
  }

  lemma NewManifest(s: Site, w: World, a: Action, k: string)
    requires a.ListPool? && Enabled(s, w, a)
    requires ReliedOn(Apply(s, w, a), k)
    ensures ReliedOn(w, k) || (a.id !in w.disturbed && k in ManifestPaths(UploadingFrom(s, w, a).manifest))
  {
    ListApplies(s, w, a);
    hide Apply, Enabled, UploadingFrom, ManifestPaths;
    var w' := Apply(s, w, a);
    var id :| ReliesOn(w', id, k);
    assert id != a.id ==> ReliesOn(w, id, k);
    assert id == a.id && id in w.live && k in ManifestPaths(w.live[id].manifest) ==> ReliesOn(w, id, k);
  }

  lemma ClearUse(s: Site, w: World, a: Action, j: nat, k: string)
    requires a.ListPool? && Allowed(s, w, a) && j in w.sweeps && w.sweeps[j].fqdn == a.id.fqdn && k in w.sweeps[j].todo
    requires a.id in w.running && w.running[a.id].Starting?
    ensures w.running[a.id].mode.Differential? && a.id !in w.disturbed ==> k !in ManifestPaths(UploadingFrom(s, w, a).manifest)
  {
    hide RunFor, ManifestOf, ManifestPaths, Enabled, ItemsFor, KeptOf, PendingOf;
  }

  /** A pool key of a host is a data key of differential backups of that host only. */
  lemma PoolKeyOwner(s: Site, h: string, k: string, id: BackupId, mode: Mode)
    requires GoodSite(s) && h in s.hosts && PoolKey(s, h, k) && DataKey(s, id, mode, k)
    ensures mode.Differential? && id.fqdn == h
  {
    hide Render, GoodSite, PoolObject, PoolPath;
    var f :| ValidForm(s, f) && f.Pool? && f.fqdn == h && k == Render(s.p, f);
    var g :| DataForm(s, id, mode, k, g);
    PoolPathReaches(s, h, f);
    PoolPathReaches(s, h, g);
  }

  lemma ListSweeps(s: Site, w: World, a: Action)
    requires GoodSite(s) && SweepsOk(s, w) && a.ListPool? && Allowed(s, w, a) && a.id in w.running && w.running[a.id].Starting?
    requires Enabled(s, w, a) && Roaming(s, a.id, UploadingFrom(s, w, a))
    ensures SweepsOk(s, Apply(s, w, a))
  {
    hide *;
    ListApplies(s, w, a);
    var w' := Apply(s, w, a);
    var proc := UploadingFrom(s, w, a);
    UploadingFromMode(s, w, a);
    RoamingKeys(s, w.store, w.clock, a.id, proc);
    SweepsParts(s, w);
    forall j, k | j in w.sweeps && k in w.sweeps[j].todo ensures !ReliedOn(w', k) {
      if ReliedOn(w', k) {
        NewManifest(s, w, a, k);
        PoolKeyOwner(s, w.sweeps[j].fqdn, k, a.id, proc.mode);
        ClearUse(s, w, a, j, k);
      }
    }
    SweepsParts(s, w');
  }

  lemma UploadingFromMode(s: Site, w: World, a: Action)
    requires a.ListPool? && a.id in w.running && w.running[a.id].Starting?
    ensures UploadingFrom(s, w, a).Uploading? && UploadingFrom(s, w, a).mode == w.running[a.id].mode
  {
  }

  lemma ListStep(s: Site, w: World, a: Action)
    requires GoodSite(s) && Inv(s, w) && a.ListPool? && Enabled(s, w, a) && Allowed(s, w, a)
    ensures Inv(s, Apply(s, w, a))
  {
    hide *;
    ListApplies(s, w, a);
    InvParts(s, w);
    var proc, w' := w.running[a.id], Apply(s, w, a);
    StartingUse(s, w, a.id);
    HeadIsLong(a.id, proc.mode, proc.started);
    StartedNow(w, proc);
    PlanOk(s, w, a, proc.mode, proc.started);
    UploadingFromMode(s, w, a);
    RunsParts(s, w);
    if a.id !in w.disturbed {
      UploadingMake(s, w.store, w.clock, w.live, a.id, w'.running[a.id]);
    }
    RunsParts(s, w');
    SettledParts(s, w);
    SettledParts(s, w');
    LiveParts(s, w);
    LiveParts(s, w');
    SamePurges(s, w, w');
    ListSweeps(s, w, a);
    InvParts(s, w');
  }

  lemma SamePurges(s: Site, w: World, w': World)
    requires PurgesOk(s, w) && w'.purges == w.purges && w'.store == w.store && w.disturbed <= w'.disturbed
    requires forall id :: id in w'.running ==> id in w.running
    ensures PurgesOk(s, w')
  {
    hide *;
    PurgesParts(s, w);
    forall j | j in w.purges ensures PurgeOk(s, w', w.purges[j]) {
      PurgeParts(s, w, w.purges[j]);
      PurgeParts(s, w', w.purges[j]);
    }
    PurgesParts(s, w');
  }

  lemma HeadIsLong(id: BackupId, mode: Mode, started: nat)
    ensures |Head(id, mode, started)| > 0
  {
  }

  lemma StartedNow(w: World, proc: Process)
    requires proc.Starting? && proc.done > 0
    ensures StartedAt(w, proc) == proc.started
  {
  }

  // ---------------------------------------------------------------- steps of a purge

  lemma ListedOwn(s: Site, st: Store, id: BackupId)
    requires GoodSite(s) && InSite(s, id) && AllKnown(s, st)
    ensures forall k :: k in ListObjects(st, BackupPath(s.p, id)) ==> OwnKey(s, id, k)
    ensures Thorough(s, st, Deleting(id, ListObjects(st, BackupPath(s.p, id)), true))
  {
    hide Render, GoodSite, PoolObject, BackupPath, InSite;
    forall k | k in ListObjects(st, BackupPath(s.p, id)) ensures OwnKey(s, id, k) {
      assert Known(s, k);
      var f :| ValidForm(s, f) && k == Render(s.p, f);
      BackupPathReaches(s, id, f);
    }
    forall f | ValidForm(s, f) && f.Own? && f.id == id && StoredNonEmpty(s, st, f)
      ensures Render(s.p, f) in ListObjects(st, BackupPath(s.p, id))
    {
      BackupPathReaches(s, id, f);
    }
  }

  lemma PurgeListApplies(s: Site, w: World, a: Action)
    requires a.PurgeList? && Enabled(s, w, a)
    ensures InSite(s, a.id) && a.job !in w.purges
    ensures Apply(s, w, a) == w.(purges := w.purges[a.job := Deleting(a.id, ListObjects(w.store, BackupPath(s.p, a.id)), a.id !in w.running)],
                                 live := w.live - {a.id}, disturbed := w.disturbed + {a.id}, stale := w.stale - {a.id})
  {
    hide ListObjects, BackupPath, InSite;
  }

  lemma RunningRoams(s: Site, st: Store, clock: nat, live: map<BackupId, Complete>, id: BackupId, proc: Process)
    requires RunningOk(s, st, clock, live, id, proc)
    ensures Roaming(s, id, proc)
  {
    hide HeadDone, DataKey, IsPending, ManifestPaths;
  }

  lemma LiveOthers(s: Site, st: Store, clock: nat, live: map<BackupId, Complete>, live': map<BackupId, Complete>, id: BackupId, proc: Process)
    requires RunningOk(s, st, clock, live, id, proc) && (id in live <==> id in live')
    ensures RunningOk(s, st, clock, live', id, proc)
  {
    hide HeadDone, UploadingOk;
  }

  lemma WithdrawnRelied(w: World, w': World)
    requires w'.running == w.running && w.disturbed <= w'.disturbed
    requires forall id :: id in w'.live ==> id in w.live && w'.live[id] == w.live[id]
    ensures forall k :: ReliedOn(w', k) ==> ReliedOn(w, k)
  {
    hide ManifestPaths;
    forall k, id | ReliesOn(w', id, k) ensures ReliesOn(w, id, k) {}
  }

  /** A backup that is being purged is no longer live, and nothing is claimed about it. */
  lemma Withdraw(s: Site, w: World, id: BackupId, purges: map<nat, PurgeJob>)
    requires Inv(s, w)
    requires var w' := w.(purges := purges, live := w.live - {id}, disturbed := w.disturbed + {id}, stale := w.stale - {id}); PurgesOk(s, w')
    ensures Inv(s, w.(purges := purges, live := w.live - {id}, disturbed := w.disturbed + {id}, stale := w.stale - {id}))
  {
    hide *;
    var w' := w.(purges := purges, live := w.live - {id}, disturbed := w.disturbed + {id}, stale := w.stale - {id});
    InvParts(s, w);
    SettledParts(s, w);
    forall o | InSite(s, o) && o !in w'.disturbed ensures Settled(s, w'.store, w'.live.Keys + w'.stale, o) {
      LiveGrows(s, w.store, w.live.Keys + w.stale, w'.live.Keys + w'.stale, o);
    }
    SettledParts(s, w');
    LiveParts(s, w);
    LiveParts(s, w');
    RunsParts(s, w);
    forall o | o in w'.running ensures if o in w'.disturbed then Roaming(s, o, w'.running[o]) else RunningOk(s, w'.store, w'.clock, w'.live, o, w'.running[o]) {
      if o !in w.disturbed {
        RunningRoams(s, w.store, w.clock, w.live, o, w.running[o]);
        if o != id { LiveOthers(s, w.store, w.clock, w.live, w'.live, o, w.running[o]); }
      }
    }
    RunsParts(s, w');
    WithdrawnRelied(w, w');
    SweepsParts(s, w);
    SweepsParts(s, w');
    InvParts(s, w');
  }

  lemma QuietFlag(s: Site, st: Store, id: BackupId, todo: set<string>, quiet: bool)
    requires Thorough(s, st, Deleting(id, todo, true))
    ensures Thorough(s, st, Deleting(id, todo, quiet))
  {
    hide Render;
  }

  lemma PurgeListStep(s: Site, w: World, a: Action)
    requires GoodSite(s) && Inv(s, w) && a.PurgeList? && Enabled(s, w, a)
    ensures Inv(s, Apply(s, w, a))
  {
    hide *;
    PurgeListApplies(s, w, a);
    InvParts(s, w);
    var w' := Apply(s, w, a);
    ListedOwn(s, w.store, a.id);
    QuietFlag(s, w.store, a.id, ListObjects(w.store, BackupPath(s.p, a.id)), a.id !in w.running);
    PurgesParts(s, w);
    forall j | j in w'.purges ensures PurgeOk(s, w', w'.purges[j]) {
      if j != a.job { PurgeParts(s, w, w.purges[j]); }
      PurgeParts(s, w', w'.purges[j]);
    }
    PurgesParts(s, w');
    Withdraw(s, w, a.id, w'.purges);
  }

  lemma LessFields(job: PurgeJob, k: string)
    ensures Less(job, k).id == job.id && Less(job, k).todo == job.todo - {k} && Less(job, k).quiet == job.quiet
  {
  }

  lemma LessThorough(s: Site, st: Store, job: PurgeJob, k: string)
    requires Thorough(s, st, job)
    ensures Thorough(s, st - {k}, Less(job, k))
  {
    hide Render;
    forall f | StoredNonEmpty(s, st - {k}, f) ensures StoredNonEmpty(s, st, f) && Render(s.p, f) != k {}
  }

  lemma DisturbedHarmless(s: Site, w: World, id: BackupId, k: string)
    requires id in w.disturbed && InSite(s, id) && OwnKey(s, id, k)
    ensures AllHarmless(s, w, {k})
  {
    hide OwnKey, InSite;
    assert Harmless(s, w, k);
  }

  /** Replacing one purge job by another sound one. */
  lemma JobChanged(s: Site, w: World, j: nat, job: PurgeJob)
    requires Inv(s, w) && PurgeOk(s, w, job)
    ensures Inv(s, w.(purges := w.purges[j := job]))
  {
    hide *;
    var w' := w.(purges := w.purges[j := job]);
    InvParts(s, w);
    PurgesParts(s, w);
    forall i | i in w'.purges ensures PurgeOk(s, w', w'.purges[i]) {
      PurgeParts(s, w, w'.purges[i]);
      PurgeParts(s, w', w'.purges[i]);
    }
    PurgesParts(s, w');
    RunsParts(s, w);
    RunsParts(s, w');
    FewerRelied(w, w');
    StillStep(s, w, w');
  }

  lemma PurgeDeleteApplies(s: Site, w: World, a: Action)
    requires a.PurgeDelete? && Enabled(s, w, a)
    ensures a.job in w.purges && a.key in w.purges[a.job].todo
    ensures Apply(s, w, a) == w.(store := w.store - {a.key}, purges := w.purges[a.job := Less(w.purges[a.job], a.key)])
  {
    hide Less;
  }

  lemma PurgeDeleteStep(s: Site, w: World, a: Action)
    requires GoodSite(s) && Inv(s, w) && a.PurgeDelete? && Enabled(s, w, a)
    ensures Inv(s, Apply(s, w, a))
  {
    hide *;
    PurgeDeleteApplies(s, w, a);
    InvParts(s, w);
    PurgesParts(s, w);
    var job := w.purges[a.job];
    PurgeParts(s, w, job);
    DisturbedHarmless(s, w, job.id, a.key);
    RemoveKeeps(s, w, {a.key});
    var w1 := w.(store := w.store - {a.key});
    LessFields(job, a.key);
    if job.quiet { LessThorough(s, w.store, job, a.key); }
    PurgeParts(s, w1, Less(job, a.key));
    JobChanged(s, w1, a.job, Less(job, a.key));
  }

  /** The entries a purge lists are those of its backup, and all of them. */
  lemma EntriesOwn(s: Site, st: Store, id: BackupId, todo: set<string>, quiet: bool)
    requires GoodSite(s) && InSite(s, id) && AllKnown(s, st)
    ensures forall k :: k in EntryNames(st, s.p, id) ==> OwnKey(s, id, k)
    ensures Thorough(s, st, Deleting(id, {}, true)) ==> Thorough(s, st, Unlisting(id, EntryNames(st, s.p, id), quiet))
  {
    hide Render, GoodSite, PoolObject, IndexDir, InSite, Contains;
    forall k | k in EntryNames(st, s.p, id) ensures OwnKey(s, id, k) {
      assert Known(s, k);
      var f :| ValidForm(s, f) && k == Render(s.p, f);
      IdInSite(s, id);
      IndexDirReaches(s, id.name, f);
      EntryMentions(s, id, f);
      assert f.Entry? && f.id == id;
    }
    forall f | ValidForm(s, f) && f.Entry? && f.id == id && StoredNonEmpty(s, st, f) ensures Render(s.p, f) in EntryNames(st, s.p, id) {
      IdInSite(s, id);
      IndexDirReaches(s, id.name, f);
      EntryMentions(s, id, f);
    }
    if Thorough(s, st, Deleting(id, {}, true)) {
      assert Deleting(id, {}, true).todo == {};
    }
  }

  lemma IdInSite(s: Site, id: BackupId)
    requires InSite(s, id)
    ensures id.fqdn in s.hosts && id.name in s.names
  {
  }

  lemma PurgeEntriesApplies(s: Site, w: World, a: Action)
    requires a.PurgeEntries? && Enabled(s, w, a)
    ensures a.job in w.purges
    ensures var job := w.purges[a.job];
            && job == Deleting(job.id, {}, job.quiet)
            && Apply(s, w, a) == w.(purges := w.purges[a.job := Unlisting(job.id, EntryNames(w.store, s.p, job.id), job.quiet)])
  {
    hide EntryNames;
  }

  lemma PurgeEntriesStep(s: Site, w: World, a: Action)
    requires GoodSite(s) && Inv(s, w) && a.PurgeEntries? && Enabled(s, w, a)
    ensures Inv(s, Apply(s, w, a))
  {
    hide *;
    PurgeEntriesApplies(s, w, a);
    InvParts(s, w);
    PurgesParts(s, w);
    var job := w.purges[a.job];
    PurgeParts(s, w, job);
    EntriesOwn(s, w.store, job.id, {}, job.quiet);
    if job.quiet { QuietFlag(s, w.store, job.id, {}, true); }
    var job' := Unlisting(job.id, EntryNames(w.store, s.p, job.id), job.quiet);
    PurgeParts(s, w, job');
    JobChanged(s, w, a.job, job');
  }

  /** After a thorough purge nothing but empty objects is left of a backup. */
  lemma PurgedSettled(s: Site, st: Store, known: set<BackupId>, job: PurgeJob)
    requires Sized(s, st) && InSite(s, job.id) && job.Unlisting? && job.todo == {} && Thorough(s, st, job)
    ensures Settled(s, st, known, job.id)
  {
    var id := job.id;
    OwnIsValid(s, id, "manifest.json");
    hide Render;
    forall kind, ts ensures !StoredNonEmpty(s, st, Entry(id, kind, ts)) {
      assert ValidForm(s, Entry(id, kind, ts));
    }
    assert Meta(id, "manifest.json").Own? && Meta(id, "manifest.json").id == id;
  }

  lemma PurgeEndApplies(s: Site, w: World, a: Action)
    requires a.PurgeEnd? && Enabled(s, w, a)
    ensures a.job in w.purges
    ensures Apply(s, w, a) == w.(purges := w.purges - {a.job},
                                 disturbed := if Undisturbed(w, a.job) then w.disturbed - {w.purges[a.job].id} else w.disturbed)
  {
    hide Undisturbed;
  }

  lemma UndisturbedUse(w: World, job: nat)
    requires job in w.purges && Undisturbed(w, job)
    ensures w.purges[job].Unlisting? && w.purges[job].todo == {} && w.purges[job].quiet
    ensures forall j :: j in w.purges && j != job ==> w.purges[j].id != w.purges[job].id
  {
    forall j | j in w.purges && j != job ensures w.purges[j].id != w.purges[job].id {
      assert j in w.purges - {job} && (w.purges - {job})[j] == w.purges[j];
    }
  }

  lemma RestoredRelied(w: World, w': World, id: BackupId)
    requires w'.live == w.live && w'.running == w.running && w'.disturbed == w.disturbed - {id} && id !in w.running
    ensures forall k :: ReliedOn(w', k) ==> ReliedOn(w, k)
  {
    hide ManifestPaths;
    forall k, o | ReliesOn(w', o, k) ensures ReliesOn(w, o, k) {}
  }

  lemma PurgeEndStep(s: Site, w: World, a: Action)
    requires GoodSite(s) && Inv(s, w) && a.PurgeEnd? && Enabled(s, w, a)
    ensures Inv(s, Apply(s, w, a))
  {
    hide *;
    PurgeEndApplies(s, w, a);
    InvParts(s, w);
    PurgesParts(s, w);
    var job, w' := w.purges[a.job], Apply(s, w, a);
    PurgeParts(s, w, job);
    if Undisturbed(w, a.job) {
      UndisturbedUse(w, a.job);
      PurgedSettled(s, w.store, w.live.Keys + w.stale, job);
      RestoredRelied(w, w', job.id);
    } else {
      FewerRelied(w, w');
    }
    forall j | j in w'.purges ensures PurgeOk(s, w', w'.purges[j]) {
      PurgeParts(s, w, w.purges[j]);
      PurgeParts(s, w', w'.purges[j]);
    }
    PurgesParts(s, w');
    SettledParts(s, w);
    SettledParts(s, w');
    LiveParts(s, w);
    LiveParts(s, w');
    RunsParts(s, w);
    RunsParts(s, w');
    SweepsParts(s, w);
    SweepsParts(s, w');
    InvParts(s, w');
  }

  // ---------------------------------------------------------------- steps of a sweep

  lemma KnownIndex(s: Site, st: Store)
    requires GoodSite(s) && AllKnown(s, st)
    ensures IndexWritten(s, st)
  {
    hide Render, GoodSite, PoolObject, IndexRoot;
    forall k | k in ListObjects(st, IndexRoot(s.p)) ensures exists id, kind, ts :: IsEntry(s, k, id, kind, ts) {
      var f :| ValidForm(s, f) && k == Render(s.p, f) && (f.Entry? ==> f.kind != Incremental);
      IndexRootReaches(s, f);
      assert IsEntry(s, k, f.id, f.kind, f.ts) by { EntryRenders(s.p, f); }
    }
  }

  lemma EntryRenders(p: string, f: KeyForm)
    requires f.Entry?
    ensures Render(p, f) == IndexedKey(p, f.id, f.kind, f.ts)
  {
  }

  lemma MetaRenders(p: string, id: BackupId, file: string)
    ensures Render(p, Meta(id, file)) == MetaKey(p, id, file)
  {
    RegroupMeta(BackupPath(p, id), file);
    hide BackupPath;
  }

  lemma ParsedManifests(s: Site, st: Store)
    requires Sized(s, st)
    ensures ManifestsParse(s, st)
  {
    hide Render, MetaKey, Meta;
    forall id | InSite(s, id) && MetaKey(s.p, id, "manifest.json") in st ensures st[MetaKey(s.p, id, "manifest.json")].body.Doc? {
      MetaRenders(s.p, id, "manifest.json");
      assert Stored(s, st, Meta(id, "manifest.json"));
    }
  }

  lemma GoodTellsApart(s: Site, st: Store)
    requires GoodSite(s)
    ensures ReadableSite(s) && IndexTellsApart(s, st)
  {
    hide Clean, IndexApart, CleanPrefix, IndexedExist;
  }

  lemma SchemaExists(s: Site, st: Store, id: BackupId)
    ensures Stored(s, st, Meta(id, "schema.cql")) <==> NodeListing.Exists(st, s.p, id)
  {
    MetaRenders(s.p, id, "schema.cql");
    hide Render, MetaKey, Meta;
  }

  lemma HeadEntries(id: BackupId, started: nat)
    ensures var head := Head(id, Layout.Differential, started);
            |head| == 8 && head[4] == Entry(id, Tokenmap, 0) && head[7] == Entry(id, IndexNames.Differential, 0)
  {
  }

  lemma EntryListed(s: Site, st: Store, id: BackupId, kind: Kind)
    requires GoodSite(s) && InSite(s, id) && StoredNonEmpty(s, st, Entry(id, kind, 0))
    ensures IndexedKey(s.p, id, kind, 0) in ListObjects(st, IndexRoot(s.p))
  {
    hide Render, GoodSite, IndexRoot, IndexKey;
    EntryRenders(s.p, Entry(id, kind, 0));
    IndexRootReaches(s, Entry(id, kind, 0));
  }

  /** A live differential backup's manifest is one the mark phase reads. */
  lemma LiveNames(s: Site, st: Store, id: BackupId, c: Complete, path: string)
    requires GoodSite(s) && LiveOk(s, st, id, c) && c.mode.Differential? && path in ManifestPaths(c.manifest)
    ensures NamesPath(s, st, id, path)
  {
    HeadEntries(id, c.started);
    hide Head, Render, GoodSite, DataKey, IndexRoot, IndexKey, MetaKey, Meta;
    var head := Head(id, c.mode, c.started);
    assert WrittenHead(s, st, head[4]) && WrittenHead(s, st, head[7]);
    EntryListed(s, st, id, Tokenmap);
    EntryListed(s, st, id, IndexNames.Differential);
    MetaRenders(s.p, id, "manifest.json");
  }

  lemma LiveCounts(s: Site, st: Store, id: BackupId, c: Complete, path: string)
    requires GoodSite(s) && LiveOk(s, st, id, c) && c.mode.Differential? && path in ManifestPaths(c.manifest)
    ensures Countable(s, st, id.fqdn, id) && NamesPath(s, st, id, path)
  {
    hide *;
    LiveNames(s, st, id, c, path);
    NamesUse(s, st, id, path);
    OwnSelected(s.p, id);
    LiveHasSchema(s, st, id, c);
    SchemaExists(s, st, id);
    CountableUse(s, st, id.fqdn, id);
  }

  /**
   In every state of the protocol, half-purged backups and their leftovers included, the sweep runs to its
   end and knows every manifest of the live differential backups of its host.
   */
  lemma SweepMarksLive(s: Site, w: World, order: seq<string>, h: string, cutoff: int)
    requires GoodSite(s) && Inv(s, w) && Enumerates(order, ListObjects(w.store, IndexRoot(s.p)))
    ensures var c := CleanupObsolete(w.store, s.p, order, h, cutoff);
            && c.Cleaned? && OnlyIndexLost(s.p, w.store, c.before)
            && c.store == c.before - Doomed(c.before, s.p, h, c.marked, cutoff)
            && (forall id, path :: id in w.live && id.fqdn == h && w.live[id].mode.Differential? && path in ManifestPaths(w.live[id].manifest)
                  ==> path in c.marked)
            && (forall path :: path in c.marked ==> exists id: BackupId :: Selected(s.p, id, Some(h)) && NamesPath(s, w.store, id, path))
  {
    hide *;
    InvParts(s, w);
    LiveParts(s, w);
    KnownIndex(s, w.store);
    GoodTellsApart(s, w.store);
    ParsedManifests(s, w.store);
    CleanupMarks(s, w.store, order, h, cutoff);
    forall id, path | id in w.live && id.fqdn == h && w.live[id].mode.Differential? && path in ManifestPaths(w.live[id].manifest)
      ensures Countable(s, w.store, h, id) && NamesPath(s, w.store, id, path)
    {
      LiveCounts(s, w.store, id, w.live[id], path);
    }
  }

  /** Listing backups only drops index entries of disturbed backups. */
  lemma ListingHarmless(s: Site, w: World, order: seq<string>, fqdn: Option<string>)
    requires GoodSite(s) && Inv(s, w) && Enumerates(order, ListObjects(w.store, IndexRoot(s.p)))
    ensures var r := ListNodeBackups(w.store, s.p, order, fqdn);
            && r.Listed? && r.store == w.store - (w.store.Keys - r.store.Keys) && AllHarmless(s, w, w.store.Keys - r.store.Keys)
  {
    hide *;
    InvParts(s, w);
    KnownIndex(s, w.store);
    GoodTellsApart(s, w.store);
    ListingRoundTrip(s, w.store, order, fqdn);
    var st' := ListNodeBackups(w.store, s.p, order, fqdn).store;
    LostOnlyIndex(s.p, w.store, st');
    var k := ListingDropsExactly(s, w.store, order, fqdn);
    SettledParts(s, w);
    var read := Read(w.store, s.p, order, fqdn);
    ReadIds(s, w.store, order, fqdn);
    var gone := w.store.Keys - st'.Keys;
    forall key | key in gone ensures Harmless(s, w, key) {
      var f := KnownForm(s, w.store, key);
      StoredMeans(s, w.store, f);
      DropDisturbed(s, w, f, read, k);
    }
    HarmlessAll(s, w, gone);
    SameWithout(w.store, st');
  }

  lemma StoredMeans(s: Site, st: Store, f: KeyForm)
    ensures Stored(s, st, f) <==> Render(s.p, f) in st
    ensures StoredNonEmpty(s, st, f) <==> Render(s.p, f) in st && st[Render(s.p, f)].size > 0
  {
    hide Render;
  }

  lemma SameWithout(st: Store, st': Store)
    requires st'.Keys <= st.Keys && forall k :: k in st' ==> st[k] == st'[k]
    ensures st' == st - (st.Keys - st'.Keys)
  {
  }

  /** So listing backups keeps the invariant. */
  lemma ListingKeepsInv(s: Site, w: World, order: seq<string>, fqdn: Option<string>)
    requires GoodSite(s) && Inv(s, w) && Enumerates(order, ListObjects(w.store, IndexRoot(s.p)))
    ensures var r := ListNodeBackups(w.store, s.p, order, fqdn); r.Listed? && Inv(s, w.(store := r.store))
  {
    hide *;
    ListingHarmless(s, w, order, fqdn);
    RemoveKeeps(s, w, w.store.Keys - ListNodeBackups(w.store, s.p, order, fqdn).store.Keys);
  }

  lemma DroppedHarmless(s: Site, w: World, order: seq<string>, h: string, cutoff: int)
    requires GoodSite(s) && Inv(s, w) && Enumerates(order, ListObjects(w.store, IndexRoot(s.p)))
    requires CleanupObsolete(w.store, s.p, order, h, cutoff).Cleaned?
    ensures var before := CleanupObsolete(w.store, s.p, order, h, cutoff).before;
            && before == w.store - (w.store.Keys - before.Keys)
            && AllHarmless(s, w, w.store.Keys - before.Keys)
  {
    hide *;
    ListingHarmless(s, w, order, Some(h));
    BeforeIsListed(w.store, s.p, order, h, cutoff);
  }

  lemma HarmlessAll(s: Site, w: World, gone: set<string>)
    requires forall k :: k in gone ==> Harmless(s, w, k)
    ensures AllHarmless(s, w, gone)
  {
    hide Harmless;
  }

  lemma BeforeIsListed(st: Store, p: string, order: seq<string>, h: string, cutoff: int)
    requires CleanupObsolete(st, p, order, h, cutoff).Cleaned?
    ensures ListNodeBackups(st, p, order, Some(h)).Listed?
    ensures CleanupObsolete(st, p, order, h, cutoff).before == ListNodeBackups(st, p, order, Some(h)).store
  {
    hide ListNodeBackups, MarkedPaths, Doomed;
  }

  lemma ReadIds(s: Site, st: Store, order: seq<string>, fqdn: Option<string>)
    requires GoodSite(s) && IndexWritten(s, st) && Enumerates(order, ListObjects(st, IndexRoot(s.p)))
    ensures forall nb :: nb in Read(st, s.p, order, fqdn) ==> InSite(s, nb.id)
  {
    hide *;
    GoodIsReadable(s);
    ReadBack(s, st, order, fqdn);
    forall nb | nb in Read(st, s.p, order, fqdn) ensures InSite(s, nb.id) { ReadsInSite(s, st, nb); }
  }

  lemma KnownForm(s: Site, st: Store, k: string) returns (f: KeyForm)
    requires AllKnown(s, st) && k in st
    ensures ValidForm(s, f) && k == Render(s.p, f)
  {
    hide Render, PoolObject, ValidForm;
    assert Known(s, k);
    f :| ValidForm(s, f) && k == Render(s.p, f);
  }

  lemma DropDisturbed(s: Site, w: World, f: KeyForm, read: seq<NodeBackup>, k: nat)
    requires ValidForm(s, f) && Stored(s, w.store, f) && k <= |read|
    requires f.Entry? && StoredNonEmpty(s, w.store, f) && exists i :: 0 <= i < k && read[i].id == f.id
    requires forall i :: 0 <= i < k ==> !NodeListing.Exists(w.store, s.p, read[i].id)
    requires forall id :: InSite(s, id) && id !in w.disturbed ==> Settled(s, w.store, w.live.Keys + w.stale, id)
    ensures Harmless(s, w, Render(s.p, f))
  {
    SchemaExists(s, w.store, f.id);
    hide Render, MetaKey, Meta, Stored;
    assert f == Entry(f.id, f.kind, f.ts);
    assert f.id in w.disturbed;
    assert OwnKey(s, f.id, Render(s.p, f));
  }

  lemma SweepListApplies(s: Site, w: World, a: Action)
    requires a.SweepList? && Allowed(s, w, a)
    ensures a.fqdn in s.hosts && a.job !in w.sweeps && Enumerates(a.order, ListObjects(w.store, IndexRoot(s.p)))
    ensures var cutoff := Cutoff(w.clock, a.graceDays);
            var c := CleanupObsolete(w.store, s.p, a.order, a.fqdn, cutoff);
            c.Cleaned? ==>
              && Apply(s, w, a) == w.(store := c.before, sweeps := w.sweeps[a.job := SweepJob(a.fqdn, Doomed(c.before, s.p, a.fqdn, c.marked, cutoff))])
              && (forall id :: id in w.running && id !in w.disturbed ==> SweepSpares(w.store, id, w.running[id], a.fqdn, c.marked, cutoff))
  {
    hide CleanupObsolete, Enumerates, IndexRoot, Cutoff, Doomed, IsPending;
  }

  ghost predicate SweepSpares(st: Store, id: BackupId, proc: Process, h: string, marked: set<string>, cutoff: int) {
    proc.Uploading? && proc.mode.Differential? && id.fqdn == h ==>
      && cutoff < proc.began
      && (forall path :: (path in proc.kept || IsPending(proc.pending, path)) && path in st ==> path in marked || st[path].mtime > cutoff)
  }

  lemma DoomedUse(st: Store, p: string, h: string, marked: set<string>, cutoff: int, k: string)
    requires k in Doomed(st, p, h, marked, cutoff)
    ensures k in st && PoolPath(p, h) <= k && k !in marked && st[k].mtime <= cutoff && st[k].size > 0
  {
  }

  lemma PoolListed(s: Site, st: Store, h: string, k: string)
    requires GoodSite(s) && AllKnown(s, st) && h in s.hosts && k in st && PoolPath(s.p, h) <= k
    ensures PoolKey(s, h, k)
  {
    var f := KnownForm(s, st, k);
    hide Render, GoodSite, PoolPath, ValidForm, AllKnown;
    PoolPathReaches(s, h, f);
  }

  lemma ReliedWho(w: World, k: string) returns (id: BackupId)
    requires ReliedOn(w, k)
    ensures (id in w.live && k in ManifestPaths(w.live[id].manifest))
            || (id in w.running && id !in w.disturbed && w.running[id].Uploading? && k in ManifestPaths(w.running[id].manifest))
  {
    hide ManifestPaths;
    id :| ReliesOn(w, id, k);
  }

  lemma UploadedYoung(s: Site, st: Store, clock: nat, id: BackupId, proc: Process, h: string, marked: set<string>, cutoff: int, k: string)
    requires proc.Uploading? && proc.mode.Differential? && id.fqdn == h && UploadingOk(s, st, clock, id, proc)
    requires SweepSpares(st, id, proc, h, marked, cutoff) && k in ManifestPaths(proc.manifest) && k in st
    ensures k in marked || st[k].mtime > cutoff
  {
    hide HeadDone, DataKey, IsPending, ManifestPaths;
  }

  /** What a sweep selects is relied on by nobody. */
  lemma SelectedUnrelied(s: Site, w: World, h: string, marked: set<string>, cutoff: int, k: string)
    requires GoodSite(s) && Inv(s, w) && h in s.hosts && PoolKey(s, h, k) && k in w.store && k !in marked && w.store[k].mtime <= cutoff
    requires forall id, path :: id in w.live && id.fqdn == h && w.live[id].mode.Differential? && path in ManifestPaths(w.live[id].manifest)
               ==> path in marked
    requires forall id :: id in w.running && id !in w.disturbed ==> SweepSpares(w.store, id, w.running[id], h, marked, cutoff)
    ensures !ReliedOn(w, k)
  {
    hide *;
    if ReliedOn(w, k) {
      var id := ReliedWho(w, k);
      InvParts(s, w);
      LiveParts(s, w);
      if id in w.live && k in ManifestPaths(w.live[id].manifest) {
        LivePaths(s, w.store, id, w.live[id]);
        PoolKeyOwner(s, h, k, id, w.live[id].mode);
      } else {
        var proc := w.running[id];
        UploadingUse(s, w, id);
        UploadPaths(s, w.store, w.clock, id, proc);
        PoolKeyOwner(s, h, k, id, proc.mode);
        UploadedYoung(s, w.store, w.clock, id, proc, h, marked, cutoff, k);
      }
    }
  }

  /** A sweep job that deletes only pool objects nobody relies on. */
  lemma SweepAdded(s: Site, w: World, j: nat, h: string, todo: set<string>)
    requires Inv(s, w) && h in s.hosts && forall k :: k in todo ==> PoolKey(s, h, k) && !ReliedOn(w, k)
    ensures Inv(s, w.(sweeps := w.sweeps[j := SweepJob(h, todo)]))
  {
    hide *;
    var w' := w.(sweeps := w.sweeps[j := SweepJob(h, todo)]);
    InvParts(s, w);
    SettledParts(s, w);
    SettledParts(s, w');
    LiveParts(s, w);
    LiveParts(s, w');
    RunsParts(s, w);
    RunsParts(s, w');
    SamePurges(s, w, w');
    SweepsParts(s, w);
    forall k ensures ReliedOn(w', k) <==> ReliedOn(w, k) { SameRelied(w, w', k); }
    SweepsParts(s, w');
    InvParts(s, w');
  }

  lemma SweepListStep(s: Site, w: World, a: Action)
    requires GoodSite(s) && Inv(s, w) && a.SweepList? && Allowed(s, w, a)
    ensures Inv(s, Apply(s, w, a))
  {
    hide *;
    SweepListApplies(s, w, a);
    var cutoff := Cutoff(w.clock, a.graceDays);
    SweepMarksLive(s, w, a.order, a.fqdn, cutoff);
    var c := CleanupObsolete(w.store, s.p, a.order, a.fqdn, cutoff);
    DroppedHarmless(s, w, a.order, a.fqdn, cutoff);
    var gone := w.store.Keys - c.before.Keys;
    RemoveKeeps(s, w, gone);
    var w1 := w.(store := w.store - gone);
    assert w1.store == c.before;
    LostOnlyIndex(s.p, w.store, c.before);
    InvParts(s, w);
    var todo := Doomed(c.before, s.p, a.fqdn, c.marked, cutoff);
    forall k | k in todo ensures PoolKey(s, a.fqdn, k) && !ReliedOn(w1, k) {
      DoomedUse(c.before, s.p, a.fqdn, c.marked, cutoff, k);
      PoolListed(s, w.store, a.fqdn, k);
      SelectedUnrelied(s, w, a.fqdn, c.marked, cutoff, k);
      SameRelied(w, w1, k);
    }
    SweepAdded(s, w1, a.job, a.fqdn, todo);
  }

  lemma SweepDeleteApplies(s: Site, w: World, a: Action)
    requires a.SweepDelete? && Enabled(s, w, a)
    ensures a.job in w.sweeps && a.key in w.sweeps[a.job].todo
    ensures var job := w.sweeps[a.job];
            Apply(s, w, a) == w.(store := w.store - {a.key}, sweeps := w.sweeps[a.job := SweepJob(job.fqdn, job.todo - {a.key})])
  {
  }

  lemma PoolHarmless(s: Site, w: World, h: string, k: string)
    requires PoolKey(s, h, k) && !ReliedOn(w, k)
    ensures AllHarmless(s, w, {k})
  {
    hide PoolKey, ReliedOn;
    assert Harmless(s, w, k);
  }

  lemma SweepDeleteStep(s: Site, w: World, a: Action)
    requires GoodSite(s) && Inv(s, w) && a.SweepDelete? && Enabled(s, w, a)
    ensures Inv(s, Apply(s, w, a))
  {
    hide *;
    SweepDeleteApplies(s, w, a);
    InvParts(s, w);
    SweepsParts(s, w);
    var job := w.sweeps[a.job];
    PoolHarmless(s, w, job.fqdn, a.key);
    RemoveKeeps(s, w, {a.key});
    var w1 := w.(store := w.store - {a.key});
    forall k ensures ReliedOn(w1, k) <==> ReliedOn(w, k) { SameRelied(w, w1, k); }
    SweepAdded(s, w1, a.job, job.fqdn, job.todo - {a.key});
  }

  lemma SweepEndStep(s: Site, w: World, a: Action)
    requires Inv(s, w) && a.SweepEnd? && Enabled(s, w, a)
    ensures Inv(s, Apply(s, w, a))
  {
    var w' := w.(sweeps := w.sweeps - {a.job});
    assert Apply(s, w, a) == w';
    hide *;
    InvParts(s, w);
    SettledParts(s, w);
    SettledParts(s, w');
    LiveParts(s, w);
    LiveParts(s, w');
    RunsParts(s, w);
    RunsParts(s, w');
    SamePurges(s, w, w');
    SweepsParts(s, w);
    forall k ensures ReliedOn(w', k) <==> ReliedOn(w, k) { SameRelied(w, w', k); }
    SweepsParts(s, w');
    InvParts(s, w');
  }

  // ---------------------------------------------------------------- whole runs

  lemma Step(s: Site, w: World, a: Action)
    requires GoodSite(s) && Inv(s, w) && Allowed(s, w, a)
    ensures Inv(s, Apply(s, w, a))
  {
    assert Enabled(s, w, a);
    hide Inv, Enabled, Apply, Allowed, GoodSite;
    match a {
      case Tick(_) => TickStep(s, w, a);
      case Begin(_, _) => BeginStep(s, w, a);
      case WriteHead(_, _, _) => HeadStep(s, w, a);
      case ListPool(_, _, _, _, _, _) => ListStep(s, w, a);
      case Send(_, _) => SendStep(s, w, a);
      case Publish(_, _) => PublishStep(s, w, a);
      case WriteTail(_, _, _) => TailStep(s, w, a);
      case Stop(_) => TickStep(s, w, a);
      case PurgeList(_, _) => PurgeListStep(s, w, a);
      case PurgeDelete(_, _) => PurgeDeleteStep(s, w, a);
      case PurgeEntries(_) => PurgeEntriesStep(s, w, a);
      case PurgeEnd(_) => PurgeEndStep(s, w, a);
      case SweepList(_, _, _, _) => SweepListStep(s, w, a);
      case SweepDelete(_, _) => SweepDeleteStep(s, w, a);
      case SweepEnd(_) => SweepEndStep(s, w, a);
    }
  }

  lemma {:induction false} InvOverRuns(s: Site, w: World, actions: seq<Action>)
    requires GoodSite(s) && Inv(s, w) && ValidRun(s, w, actions)
    ensures Inv(s, After(s, w, actions))
    decreases |actions|
  {
    hide Inv, GoodSite, Enabled, Protected, OutOfTheWay, Apply;
    if actions != [] {
      Step(s, w, actions[0]);
      InvOverRuns(s, Apply(s, w, actions[0]), actions[1..]);
    }
  }

  /** Every backup that completed and whose purge has not begun still has its manifest and everything it names. */
  ghost predicate SurvivorsIntact(s: Site, w: World) {
    forall id :: id in w.live ==>
      && MetaKey(s.p, id, "manifest.json") in w.store
      && w.store[MetaKey(s.p, id, "manifest.json")].body == Doc(w.live[id].manifest)
      && (forall path :: path in ManifestPaths(w.live[id].manifest) ==> path in w.store)
  }

  /** Everything start_backup writes, in meta and in the index. */
  ghost predicate StartHeld(s: Site, st: Store, id: BackupId, mode: Mode, started: nat) {
    && MetaKey(s.p, id, "schema.cql") in st && MetaKey(s.p, id, "tokenmap.json") in st && MetaKey(s.p, id, "server_version.json") in st
    && IndexedKey(s.p, id, Tokenmap, 0) in st && IndexedKey(s.p, id, Schema, 0) in st && IndexedKey(s.p, id, Started, started) in st
    && (mode.Differential? ==> MetaKey(s.p, id, "differential") in st && IndexedKey(s.p, id, IndexNames.Differential, 0) in st)
  }

  lemma StartIsHead(s: Site, st: Store, id: BackupId, mode: Mode, started: nat)
    requires forall j :: 0 <= j < |Head(id, mode, started)| ==> Render(s.p, Head(id, mode, started)[j]) in st
    ensures StartHeld(s, st, id, mode, started)
  {
    MetaRenders(s.p, id, "schema.cql");
    MetaRenders(s.p, id, "tokenmap.json");
    MetaRenders(s.p, id, "server_version.json");
    MetaRenders(s.p, id, "differential");
    EntryRenders(s.p, Entry(id, Tokenmap, 0));
    EntryRenders(s.p, Entry(id, Schema, 0));
    EntryRenders(s.p, Entry(id, Started, started));
    EntryRenders(s.p, Entry(id, IndexNames.Differential, 0));
    hide Render, MetaKey, IndexedKey, Meta;
    var head := Head(id, mode, started);
    assert Render(s.p, head[0]) in st && Render(s.p, head[1]) in st && Render(s.p, head[2]) in st;
    if mode.Differential? {
      assert head[3] == Meta(id, "differential") && head[7] == Entry(id, IndexNames.Differential, 0);
      assert Render(s.p, head[4]) in st && Render(s.p, head[5]) in st && Render(s.p, head[6]) in st;
    } else {
      assert Render(s.p, head[3]) in st && Render(s.p, head[4]) in st && Render(s.p, head[5]) in st;
    }
  }

  /**
   A visible manifest, or a finish entry, implies everything written before it, unless a purge of the backup
   was cut short or met the backup running, or its name is in use again after such a purge and the new backup
   has not published its own manifest yet.
   */
  ghost predicate CrashOrdered(s: Site, w: World) {
    forall id :: InSite(s, id) && id !in w.disturbed && id !in w.stale ==>
      && (MetaKey(s.p, id, "manifest.json") in w.store ==>
            && id in w.live
            && StartHeld(s, w.store, id, w.live[id].mode, w.live[id].started)
            && (forall path :: path in ManifestPaths(w.live[id].manifest) ==> path in w.store))
      && (forall ts :: IndexedKey(s.p, id, Finished, ts) in w.store ==> MetaKey(s.p, id, "manifest.json") in w.store)
  }

  lemma LiveManifest(s: Site, st: Store, id: BackupId, c: Complete)
    requires LiveOk(s, st, id, c)
    ensures MetaKey(s.p, id, "manifest.json") in st && st[MetaKey(s.p, id, "manifest.json")].body == Doc(c.manifest)
    ensures forall j :: 0 <= j < |Head(id, c.mode, c.started)| ==> Render(s.p, Head(id, c.mode, c.started)[j]) in st
  {
    MetaRenders(s.p, id, "manifest.json");
    hide Render, MetaKey, Head, Meta, DataKey;
    forall j | 0 <= j < |Head(id, c.mode, c.started)| ensures Render(s.p, Head(id, c.mode, c.started)[j]) in st {
      assert WrittenHead(s, st, Head(id, c.mode, c.started)[j]);
    }
  }

  lemma SettledManifest(s: Site, st: Store, known: set<BackupId>, id: BackupId)
    requires Settled(s, st, known, id)
    ensures MetaKey(s.p, id, "manifest.json") in st ==> id in known
    ensures forall ts :: IndexedKey(s.p, id, Finished, ts) in st ==> id in known
  {
    MetaRenders(s.p, id, "manifest.json");
    hide Render, MetaKey, IndexKey, Meta;
    forall ts | IndexedKey(s.p, id, Finished, ts) in st ensures id in known {
      EntryRenders(s.p, Entry(id, Finished, ts));
      assert Stored(s, st, Entry(id, Finished, ts));
    }
  }

  lemma InvIsSafe(s: Site, w: World)
    requires Inv(s, w)
    ensures SurvivorsIntact(s, w) && CrashOrdered(s, w)
  {
    InvParts(s, w);
    LiveParts(s, w);
    SettledParts(s, w);
    hide Inv, AllKnown, Sized, AllSettled, LivesOk, RunsOk, PurgesOk, SweepsOk, LiveOk, Settled, MetaKey, IndexedKey, Head, StartHeld, Render, ManifestPaths;
    forall id | id in w.live
      ensures MetaKey(s.p, id, "manifest.json") in w.store && w.store[MetaKey(s.p, id, "manifest.json")].body == Doc(w.live[id].manifest)
      ensures forall path :: path in ManifestPaths(w.live[id].manifest) ==> path in w.store
      ensures StartHeld(s, w.store, id, w.live[id].mode, w.live[id].started)
    {
      LiveManifest(s, w.store, id, w.live[id]);
      StartIsHead(s, w.store, id, w.live[id].mode, w.live[id].started);
      LivePaths(s, w.store, id, w.live[id]);
    }
    forall id | InSite(s, id) && id !in w.disturbed && id !in w.stale
      ensures MetaKey(s.p, id, "manifest.json") in w.store ==> id in w.live
      ensures forall ts :: IndexedKey(s.p, id, Finished, ts) in w.store ==> id in w.live
    {
      SettledManifest(s, w.store, w.live.Keys + w.stale, id);
    }
  }

  lemma InitialInv(s: Site, w: World)
    requires Initial(w)
    ensures Inv(s, w)
  {
    hide Render;
  }

  /**
   Concurrent safety: with backups, purges and sweeps interleaved write by write and deletion by deletion,
   any of them stopping anywhere, no surviving backup loses an object and every manifest is written last,
   provided each sweep that begins during an upload on its host is protected by the grace period, and no
   upload begins to rely on an object that a sweep has already selected.
   */
  lemma SafetyWithGrace(s: Site, w: World, actions: seq<Action>)
    requires GoodSite(s) && Initial(w) && ValidRun(s, w, actions)
    ensures SurvivorsIntact(s, After(s, w, actions)) && CrashOrdered(s, After(s, w, actions))
  {
    hide Inv, GoodSite, ValidRun, After;
    InitialInv(s, w);
    InvOverRuns(s, w, actions);
    InvIsSafe(s, After(s, w, actions));
  }

  lemma SequentialAllowed(s: Site, w: World, a: Action)
    requires Enabled(s, w, a) && NotOverlapping(w, a)
    ensures Allowed(s, w, a)
  {
    hide CleanupObsolete, Cutoff, ManifestOf, ManifestPaths, RunFor, IsPending, Head, Render;
  }

  lemma {:induction false} SequentialIsValid(s: Site, w: World, actions: seq<Action>)
    requires SequentialRun(s, w, actions)
    ensures ValidRun(s, w, actions)
    decreases |actions|
  {
    hide Apply, Allowed, NotOverlapping;
    if actions != [] {
      SequentialAllowed(s, w, actions[0]);
      SequentialIsValid(s, Apply(s, w, actions[0]), actions[1..]);
    }
  }

  /**
   Pool safety: for any sequence of full and differential backups, crashes, purges of any chosen
   backups, sweeps with any grace period and clock ticks in which no sweep overlaps a differential
   upload on its host, every path named by every surviving complete backup is still in the store.
   */
  lemma PoolSafety(s: Site, w: World, actions: seq<Action>)
    requires GoodSite(s) && Initial(w) && SequentialRun(s, w, actions)
    ensures ValidRun(s, w, actions)
    ensures SurvivorsIntact(s, After(s, w, actions)) && CrashOrdered(s, After(s, w, actions))
  {
    SequentialIsValid(s, w, actions);
    hide *;
    SafetyWithGrace(s, w, actions);
  }

  // ---------------------------------------------------------------- names that are used again

  /** No purge of the backup is under way, and if one has disturbed it, nothing has been written under its name since. */
  ghost predicate Reusable(w: World, id: BackupId) {
    !UnderPurge(w.purges, id)
    && (id in w.disturbed && id in w.running ==> w.running[id].Starting? && w.running[id].done == 0)
  }

  lemma HeadReusable(s: Site, w: World, a: Action, id: BackupId)
    requires a.WriteHead? && Enabled(s, w, a) && Reusable(w, id)
    ensures var w' := Apply(s, w, a); Reusable(w', id) && w'.live == w.live
  {
    HeadApplies(s, w, a);
    hide Head, Render, Enabled, Apply;
  }

  lemma PurgeReusable(s: Site, w: World, a: Action, id: BackupId)
    requires Enabled(s, w, a) && Reusable(w, id) && (a.Begin? || a.PurgeList? || a.PurgeDelete? || a.PurgeEntries? || a.PurgeEnd?)
    requires !(a.PurgeList? && a.id == id)
    ensures var w' := Apply(s, w, a); Reusable(w', id) && (id in w.live ==> id in w'.live)
  {
    hide Render, ListObjects, EntryNames, Undisturbed, InSite;
  }

  lemma ReusableStep(s: Site, w: World, a: Action, id: BackupId)
    requires Enabled(s, w, a) && Reusable(w, id) && !(a.PurgeList? && a.id == id)
    ensures var w' := Apply(s, w, a); Reusable(w', id) && ((a.Publish? && a.id == id) || id in w.live ==> id in w'.live)
  {
    if a.WriteHead? {
      HeadReusable(s, w, a, id);
    } else if a.Begin? || a.PurgeList? || a.PurgeDelete? || a.PurgeEntries? || a.PurgeEnd? {
      PurgeReusable(s, w, a, id);
    } else {
      hide Render, Head, Protocol.Tail, CleanupObsolete, InSite, RunFor, ManifestOf, BlobOf, Enumerates, KeptOf, PendingOf, Cutoff, Doomed;
    }
  }

  /**
   A name is as good as new once no purge of it is under way, whatever an earlier purge has left behind: a
   backup that starts under it then and publishes is among the survivors, until it is purged itself.
   */
  lemma {:induction false} ReusedNameSurvives(s: Site, w: World, id: BackupId, actions: seq<Action>)
    requires ValidRun(s, w, actions) && Reusable(w, id) && forall a :: a in actions ==> !(a.PurgeList? && a.id == id)
    ensures (exists a :: a in actions && a.Publish? && a.id == id) || id in w.live ==> id in After(s, w, actions).live
    decreases |actions|
  {
    hide Enabled, Apply, Reusable, Protected, OutOfTheWay;
    if actions != [] {
      assert forall a :: a in actions <==> a == actions[0] || a in actions[1..];
      ReusableStep(s, w, actions[0], id);
      ReusedNameSurvives(s, Apply(s, w, actions[0]), id, actions[1..]);
    }
  }

  /**
   The condition on sweeps is exact: an object a running upload relies on, once it is in the store, is
   selected for deletion if and only if it is unmarked, past the grace period and not empty.
   */
  lemma SweepSelectsExactly(s: Site, w: World, a: Action, id: BackupId, path: string)
    requires GoodSite(s) && Inv(s, w) && a.SweepList? && Enabled(s, w, a) && UploadingOn(w, a.fqdn, id)
    requires path in ManifestPaths(w.running[id].manifest) && path in w.store
    ensures var cutoff := Cutoff(w.clock, a.graceDays);
            var c := CleanupObsolete(w.store, s.p, a.order, a.fqdn, cutoff);
            var w' := Apply(s, w, a);
            && c.Cleaned? && a.job in w'.sweeps && path in w'.store
            && (path in w'.sweeps[a.job].todo <==> path !in c.marked && w.store[path].mtime <= cutoff && w.store[path].size > 0)
  {
    var cutoff := Cutoff(w.clock, a.graceDays);
    SweepListed(s, w, a);
    assert id in w.running && id !in w.disturbed && w.running[id].Uploading? && w.running[id].mode.Differential? && id.fqdn == a.fqdn;
    hide *;
    SweepMarksLive(s, w, a.order, a.fqdn, cutoff);
    var c := CleanupObsolete(w.store, s.p, a.order, a.fqdn, cutoff);
    InvParts(s, w);
    UploadingUse(s, w, id);
    UploadPaths(s, w.store, w.clock, id, w.running[id]);
    var f := FormOf(s, id, w.running[id].mode, path);
    PoolFormListed(s, w, c.before, id, path, f);
    DoomedExactly(c.before, s.p, a.fqdn, c.marked, cutoff, path);
  }

  lemma SweepListed(s: Site, w: World, a: Action)
    requires a.SweepList? && Enabled(s, w, a)
    ensures a.fqdn in s.hosts && Enumerates(a.order, ListObjects(w.store, IndexRoot(s.p)))
    ensures var cutoff := Cutoff(w.clock, a.graceDays);
            var c := CleanupObsolete(w.store, s.p, a.order, a.fqdn, cutoff);
            c.Cleaned? ==>
              Apply(s, w, a) == w.(store := c.before, sweeps := w.sweeps[a.job := SweepJob(a.fqdn, Doomed(c.before, s.p, a.fqdn, c.marked, cutoff))])
  {
    hide CleanupObsolete, Enumerates, IndexRoot, Cutoff, Doomed;
  }

  lemma PoolFormListed(s: Site, w: World, before: Store, id: BackupId, path: string, f: KeyForm)
    requires GoodSite(s) && InSite(s, id) && DataForm(s, id, Layout.Differential, path, f) && path in w.store && OnlyIndexLost(s.p, w.store, before)
    ensures PoolPath(s.p, id.fqdn) <= path && path in before && before[path] == w.store[path]
  {
    hide Render, GoodSite, PoolPath, IndexRoot, PoolObject;
    PoolPathReaches(s, id.fqdn, f);
    IndexRootReaches(s, f);
  }

  lemma DoomedExactly(st: Store, p: string, h: string, marked: set<string>, cutoff: int, k: string)
    requires k in st && PoolPath(p, h) <= k
    ensures k in Doomed(st, p, h, marked, cutoff) <==> k !in marked && st[k].mtime <= cutoff && st[k].size > 0
  {
  }

  // ---------------------------------------------------------------- a purge cut short

  /**
   Why disturbed backups are left out of the crash ordering: a purge that has deleted the manifest and stops
   there leaves the finish entry behind.
   */
  lemma HalfPurged(s: Site, w: World, id: BackupId, job: nat, ts: nat)
    requires GoodSite(s) && Inv(s, w) && id in w.live && job !in w.purges && IndexedKey(s.p, id, Finished, ts) in w.store
    ensures var key := MetaKey(s.p, id, "manifest.json");
            var actions := [PurgeList(job, id), PurgeDelete(job, key), PurgeEnd(job)];
            && PossibleRun(s, w, actions)
            && var w' := Reached(s, w, actions);
               && id in w'.disturbed && w'.store == w.store - {key}
               && key !in w'.store && IndexedKey(s.p, id, Finished, ts) in w'.store
  {
    hide *;
    var key := MetaKey(s.p, id, "manifest.json");
    HalfPurgedKeys(s, w, id, ts);
    PurgeCut(s, w, id, job, ListObjects(w.store, BackupPath(s.p, id)), key);
    RunThree(s, w, PurgeList(job, id), PurgeDelete(job, key), PurgeEnd(job));
  }

  lemma PurgeCut(s: Site, w: World, id: BackupId, job: nat, todo: set<string>, key: string)
    requires InSite(s, id) && job !in w.purges && todo == ListObjects(w.store, BackupPath(s.p, id)) && key in todo
    ensures Enabled(s, w, PurgeList(job, id))
    ensures var w1 := Apply(s, w, PurgeList(job, id));
            && Enabled(s, w1, PurgeDelete(job, key))
            && var w2 := Apply(s, w1, PurgeDelete(job, key));
               && Enabled(s, w2, PurgeEnd(job))
               && var w3 := Apply(s, w2, PurgeEnd(job));
                  w3.store == w.store - {key} && id in w3.disturbed
  {
    hide InSite, ListObjects, BackupPath;
  }

  lemma RunThree(s: Site, w: World, a: Action, b: Action, c: Action)
    requires Enabled(s, w, a) && Enabled(s, Apply(s, w, a), b) && Enabled(s, Apply(s, Apply(s, w, a), b), c)
    ensures PossibleRun(s, w, [a, b, c])
    ensures Reached(s, w, [a, b, c]) == Apply(s, Apply(s, Apply(s, w, a), b), c)
  {
    hide Enabled, Apply;
    var w1 := Apply(s, w, a);
    var w2 := Apply(s, w1, b);
    assert [a, b, c][1..] == [b, c] && [b, c][1..] == [c] && [c][1..] == [];
    assert PossibleRun(s, w2, [c]) && Reached(s, w2, [c]) == Apply(s, w2, c);
    assert PossibleRun(s, w1, [b, c]) && Reached(s, w1, [b, c]) == Apply(s, w2, c);
  }

  lemma HalfPurgedKeys(s: Site, w: World, id: BackupId, ts: nat)
    requires GoodSite(s) && Inv(s, w) && id in w.live
    ensures InSite(s, id) && MetaKey(s.p, id, "manifest.json") in ListObjects(w.store, BackupPath(s.p, id))
    ensures MetaKey(s.p, id, "manifest.json") != IndexedKey(s.p, id, Finished, ts)
  {
    InvParts(s, w);
    LiveParts(s, w);
    LiveInSite(s, w.store, id, w.live[id]);
    var f := Meta(id, "manifest.json");
    MetaRenders(s.p, id, "manifest.json");
    EntryRenders(s.p, Entry(id, Finished, ts));
    OwnIsValid(s, id, "manifest.json");
    MetaBelongs(id, "manifest.json");
    assert StoredNonEmpty(s, w.store, f);
    hide Inv, GoodSite, Render, MetaKey, IndexedKey, BackupPath, LiveOk, Meta;
    BackupPathReaches(s, id, f);
    EntryKeysDiffer(s, id, Finished, ts, f);
  }
}
