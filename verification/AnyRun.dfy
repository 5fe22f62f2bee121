/**
 What survives in every run the source allows, sweeps that meet uploads included: the invariant of a world
 in which nothing is claimed about any backup.
 */
module AnyRun {
  import opened Text
  import opened IndexNames
  import opened ObjectStorage
  import opened Layout
  import opened NodeListing
  import opened Purge
  import opened PurgeIsolation
  import opened Snapshots
  import opened Manifests
  import opened Protocol
  import opened Invariant
  import opened ProtocolSafety
  import opened TableKeys
  import Content

  function Ids(s: Site): set<BackupId> { set h, n | h in s.hosts && n in s.names :: BackupId(h, n) }

  lemma InIds(s: Site, id: BackupId)
    ensures id in Ids(s) <==> InSite(s, id)
  {
    assert id == BackupId(id.fqdn, id.name);
  }

  /** The same world with every backup given up. */
  function Shadow(s: Site, w: World): World { w.(live := map[], disturbed := Ids(s), stale := {}) }

  lemma ShadowFields(s: Site, w: World)
    ensures var v := Shadow(s, w);
            && v.store == w.store && v.clock == w.clock && v.running == w.running && v.purges == w.purges && v.sweeps == w.sweeps
            && v.live == map[] && v.disturbed == Ids(s) && v.stale == {}
    ensures forall st :: Shadow(s, w.(store := st)) == Shadow(s, w).(store := st)
  {
    hide Ids;
  }

  lemma ShadowStarts(s: Site, w: World)
    requires Initial(w)
    ensures Inv(s, Shadow(s, w))
  {
    hide Render;
    forall id | InSite(s, id) ensures id in Ids(s) { InIds(s, id); }
  }

  // ---------------------------------------------------------------- one step

  lemma SameEnabled(s: Site, w: World, v: World, a: Action)
    requires v == w.(live := v.live, disturbed := v.disturbed, stale := v.stale) && Enabled(s, w, a)
    ensures Enabled(s, v, a)
  {
    hide Render, Head, InSite, MayBeEmpty, Enumerates, ListBlobs, ListObjects, GoodTag, GoodTableFiles, PoolPath, IndexRoot;
  }

  /** No upload counts as one that a sweep has to spare. */
  lemma ShadowAllowed(s: Site, v: World, a: Action)
    requires Enabled(s, v, a) && (forall id :: id in v.running ==> id in v.disturbed)
    ensures Allowed(s, v, a)
  {
    hide Render, Head, InSite, CleanupObsolete, Enumerates, Cutoff, ManifestOf, ManifestPaths, RunFor, IsPending, ListObjects;
  }

  /** The backup whose standing a step may change. */
  ghost predicate Moves(w: World, a: Action, id: BackupId) {
    (a.WriteHead? && a.id == id) || (a.PurgeEnd? && a.job in w.purges && w.purges[a.job].id == id)
  }

  ghost predicate Alike(u: World, w': World) { u == w'.(live := u.live, disturbed := u.disturbed, stale := u.stale) }

  lemma HeadAlike(s: Site, w: World, v: World, a: Action)
    requires a.WriteHead? && Alike(v, w) && Enabled(s, w, a) && Enabled(s, v, a)
    ensures var u := Apply(s, v, a);
            && Alike(u, Apply(s, w, a)) && u.live == v.live && v.disturbed - {a.id} <= u.disturbed <= v.disturbed && u.stale <= v.stale + {a.id}
  {
    hide *;
    AlikeFields(v, w);
    HeadApplies(s, w, a);
    HeadApplies(s, v, a);
    var proc := w.running[a.id];
    SameStart(w, v, proc);
    var started := StartedAt(w, proc);
    var st := w.store[Render(s.p, Head(a.id, proc.mode, started)[proc.done]) := Blob(a.size, w.clock, "", Raw(a.data))];
    var runs := w.running[a.id := Starting(proc.mode, proc.done + 1, started)];
    var w1, v1 := w.(store := st, running := runs, live := w.live), v.(store := st, running := runs, live := v.live);
    RenewedFields(w1, a.id);
    RenewedFields(v1, a.id);
    AlikeFields(Apply(s, v, a), Apply(s, w, a));
  }

  lemma SameStart(w: World, v: World, proc: Process)
    requires proc.Starting? && v.clock == w.clock
    ensures StartedAt(v, proc) == StartedAt(w, proc)
  {
  }

  lemma EndAlike(s: Site, w: World, v: World, a: Action)
    requires a.PurgeEnd? && Alike(v, w) && Enabled(s, w, a) && Enabled(s, v, a)
    ensures a.job in w.purges
    ensures var u := Apply(s, v, a);
            && Alike(u, Apply(s, w, a)) && u.live == v.live && v.disturbed - {w.purges[a.job].id} <= u.disturbed <= v.disturbed
            && u.stale == v.stale
  {
    hide Undisturbed;
  }

  lemma PurgeAlike(s: Site, w: World, v: World, a: Action)
    requires (a.PurgeList? || a.PurgeDelete? || a.PurgeEntries?) && Alike(v, w) && Enabled(s, w, a) && Enabled(s, v, a)
    requires v.live == map[] && v.stale == {} && (a.PurgeList? ==> a.id in v.disturbed)
    ensures var u := Apply(s, v, a);
            Alike(u, Apply(s, w, a)) && u.live == v.live && u.disturbed == v.disturbed && u.stale == v.stale
  {
    hide ListObjects, EntryNames, InSite, BackupPath;
  }

  lemma SelectAlike(s: Site, w: World, v: World, a: Action)
    requires a.SweepList? && Alike(v, w) && Enabled(s, w, a) && Enabled(s, v, a)
    ensures var u := Apply(s, v, a);
            Alike(u, Apply(s, w, a)) && u.live == v.live && u.disturbed == v.disturbed && u.stale == v.stale
  {
    hide Enabled, CleanupObsolete, Cutoff, Doomed;
  }

  lemma SweepAlike(s: Site, w: World, v: World, a: Action)
    requires (a.SweepDelete? || a.SweepEnd?) && Alike(v, w) && Enabled(s, w, a) && Enabled(s, v, a)
    ensures var u := Apply(s, v, a);
            Alike(u, Apply(s, w, a)) && u.live == v.live && u.disturbed == v.disturbed && u.stale == v.stale
  {
  }

  lemma BackupAlike(s: Site, w: World, v: World, a: Action)
    requires (a.Tick? || a.Begin? || a.ListPool? || a.Send? || a.Publish? || a.WriteTail? || a.Stop?)
    requires Alike(v, w) && Enabled(s, w, a) && Enabled(s, v, a) && v.stale == {} && (a.Publish? ==> a.id in v.disturbed)
    ensures var u := Apply(s, v, a);
            Alike(u, Apply(s, w, a)) && u.live == v.live && u.disturbed == v.disturbed && u.stale == v.stale
  {
    hide Enabled, Alarmed, Render, Head, Protocol.Tail, KeptOf, PendingOf, ManifestOf, BlobOf;
  }

  lemma StepAlike(s: Site, w: World, v: World, a: Action, id: BackupId)
    requires Alike(v, w) && Enabled(s, w, a) && Enabled(s, v, a) && v.live == map[] && v.stale == {}
    requires a.Publish? || a.PurgeList? ==> a.id in v.disturbed
    requires Moves(w, a, id) || forall o :: !Moves(w, a, o)
    ensures var u := Apply(s, v, a);
            && Alike(u, Apply(s, w, a)) && u.live == map[] && v.disturbed - {id} <= u.disturbed <= v.disturbed && u.stale <= {id}
            && (Moves(w, a, id) || (u.disturbed == v.disturbed && u.stale == {}))
  {
    hide Enabled, Apply, Alike;
    if a.WriteHead? {
      assert Moves(w, a, a.id);
      HeadAlike(s, w, v, a);
    } else if a.PurgeEnd? {
      EndAlike(s, w, v, a);
      assert Moves(w, a, w.purges[a.job].id);
    } else if a.PurgeList? || a.PurgeDelete? || a.PurgeEntries? {
      PurgeAlike(s, w, v, a);
    } else if a.SweepList? {
      SelectAlike(s, w, v, a);
    } else if a.SweepDelete? || a.SweepEnd? {
      SweepAlike(s, w, v, a);
    } else {
      BackupAlike(s, w, v, a);
    }
  }

  lemma Mover(s: Site, w: World, v: World, a: Action) returns (id: BackupId)
    requires Inv(s, v) && Alike(v, w) && Enabled(s, w, a)
    ensures Moves(w, a, id) || forall o :: !Moves(w, a, o)
    ensures Moves(w, a, id) ==> InSite(s, id)
    ensures a.Publish? || a.PurgeList? ==> InSite(s, a.id)
  {
    InvParts(s, v);
    PurgesParts(s, v);
    id := BackupId("", "");
    if a.WriteHead? {
      HeadApplies(s, w, a);
      hide *;
      id := a.id;
      AlikeFields(v, w);
      RunInSite(s, v, id);
    } else if a.PurgeEnd? {
      hide Inv, Enabled, InSite, Thorough;
      EndJob(s, w, a);
      id := w.purges[a.job].id;
      PurgeParts(s, v, v.purges[a.job]);
    } else if a.Publish? {
      PublishApplies(s, w, a);
      hide Inv, Enabled;
      RunInSite(s, v, a.id);
    } else if a.PurgeList? {
      hide Inv;
    }
  }

  lemma EndJob(s: Site, w: World, a: Action)
    requires a.PurgeEnd? && Enabled(s, w, a)
    ensures a.job in w.purges
  {
  }

  lemma AlikeFields(u: World, w: World)
    ensures Alike(u, w) <==> u.store == w.store && u.clock == w.clock && u.running == w.running && u.purges == w.purges && u.sweeps == w.sweeps
  {
  }

  /** Giving up the backup whose standing has changed leads back to the shadow. */
  lemma BackToShadow(s: Site, u: World, w': World, id: BackupId)
    requires Inv(s, u) && Alike(u, w') && u.live == map[] && Ids(s) - {id} <= u.disturbed <= Ids(s) && u.stale <= {id}
    requires id in Ids(s) || (u.disturbed == Ids(s) && u.stale == {})
    ensures Inv(s, Shadow(s, w'))
  {
    hide *;
    AlikeFields(u, w');
    ShadowFields(s, w');
    if u.disturbed == Ids(s) && u.stale == {} {
      assert u == Shadow(s, w');
    } else {
      var v := u.(purges := u.purges, live := u.live - {id}, disturbed := u.disturbed + {id}, stale := u.stale - {id});
      InvParts(s, u);
      PurgesParts(s, u);
      forall j | j in v.purges ensures PurgeOk(s, v, v.purges[j]) {
        PurgeParts(s, u, u.purges[j]);
        PurgeParts(s, v, u.purges[j]);
      }
      PurgesParts(s, v);
      Withdraw(s, u, id, u.purges);
      assert v == Shadow(s, w');
    }
  }

  lemma ShadowStep(s: Site, w: World, a: Action)
    requires GoodSite(s) && Enabled(s, w, a) && Inv(s, Shadow(s, w))
    ensures Inv(s, Shadow(s, Apply(s, w, a)))
  {
    hide *;
    var v := Shadow(s, w);
    ShadowFields(s, w);
    AlikeFields(v, w);
    SameEnabled(s, w, v, a);
    InvParts(s, v);
    forall id | id in v.running ensures id in v.disturbed {
      RunInSite(s, v, id);
      InIds(s, id);
    }
    ShadowAllowed(s, v, a);
    Step(s, v, a);
    var id := Mover(s, w, v, a);
    InIds(s, id);
    if a.Publish? || a.PurgeList? { InIds(s, a.id); }
    StepAlike(s, w, v, a, id);
    BackToShadow(s, Apply(s, v, a), Apply(s, w, a), id);
  }

  // ---------------------------------------------------------------- what a step writes and what it removes

  predicate Writes(a: Action) { a.WriteHead? || a.Send? || a.Publish? || a.WriteTail? }

  /** What one write is: a manifest only when its backup publishes, a finish entry only after that. */
  ghost predicate Written(s: Site, w: World, a: Action, f: KeyForm, b: Blob)
    requires Enabled(s, w, a)
  {
    && ValidForm(s, f) && Apply(s, w, a).store == w.store[Render(s.p, f) := b]
    && (f.Entry? ==> b.size > 0 || f.kind.Schema?)
    && (f.Own? && f == Meta(f.id, "manifest.json") ==> a.Publish? && f.id == a.id)
    && (f.Entry? && (f.kind == IndexNames.Manifest || f.kind == Finished) ==> a.WriteTail? && f.id == a.id)
  }

  lemma WrittenParts(s: Site, w: World, a: Action, f: KeyForm, b: Blob)
    requires Enabled(s, w, a)
    ensures Written(s, w, a, f, b) <==>
            && ValidForm(s, f) && Apply(s, w, a).store == w.store[Render(s.p, f) := b]
            && (f.Entry? ==> b.size > 0 || f.kind.Schema?)
            && (f.Own? && f == Meta(f.id, "manifest.json") ==> a.Publish? && f.id == a.id)
            && (f.Entry? && (f.kind == IndexNames.Manifest || f.kind == Finished) ==> a.WriteTail? && f.id == a.id)
  {
    hide Enabled, Apply, Render, Meta, ValidForm;
  }

  lemma OneWrite(s: Site, w: World, a: Action) returns (f: KeyForm, b: Blob)
    requires GoodSite(s) && Inv(s, Shadow(s, w)) && Enabled(s, w, a) && Writes(a)
    ensures Written(s, w, a, f, b)
  {
    hide *;
    var v := Shadow(s, w);
    ShadowFields(s, w);
    InvParts(s, v);
    if a.WriteHead? {
      HeadFields(s, w, a);
      var proc := w.running[a.id];
      var started := StartedAt(w, proc);
      RunInSite(s, v, a.id);
      HeadForms(a.id, proc.mode, started, proc.done);
      Content.HeadFormIn(s, a.id, proc.mode, started, proc.done);
      f, b := Head(a.id, proc.mode, started)[proc.done], Blob(a.size, w.clock, "", Raw(a.data));
      HeadSize(s, w, a);
      OwnerOf(f, a.id);
    } else if a.Send? {
      SendApplies(s, w, a);
      UploadingUse(s, v, a.id);
      InIds(s, a.id);
      RoamingKeys(s, w.store, w.clock, a.id, w.running[a.id]);
      f := FormOf(s, a.id, w.running[a.id].mode, a.upload.key);
      b := BlobOf(a.upload, w.clock);
      DataNotManifest(s, a.id, w.running[a.id].mode, a.upload.key, f);
      DataFormUse(s, a.id, w.running[a.id].mode, a.upload.key, f);
    } else if a.Publish? {
      PublishApplies(s, w, a);
      RunInSite(s, v, a.id);
      OwnIsValid(s, a.id, "manifest.json");
      MetaBelongs(a.id, "manifest.json");
      f, b := Meta(a.id, "manifest.json"), Blob(a.size, w.clock, "", Doc(w.running[a.id].manifest));
    } else {
      WritesCases(a);
      TailApplies(s, w, a);
      var proc := w.running[a.id];
      RunInSite(s, v, a.id);
      Content.TailFormIn(s, a.id, proc.finished, proc.done);
      TailOwner(a.id, proc.finished, proc.done);
      f, b := Protocol.Tail(a.id, proc.finished)[proc.done], Blob(a.size, w.clock, "", if proc.done == 0 then Doc(proc.manifest) else Raw(a.data));
    }
    WrittenParts(s, w, a, f, b);
  }

  lemma WritesCases(a: Action)
    ensures Writes(a) <==> a.WriteHead? || a.Send? || a.Publish? || a.WriteTail?
  {
  }

  lemma HeadSize(s: Site, w: World, a: Action)
    requires a.WriteHead? && Enabled(s, w, a)
    ensures a.id in w.running && w.running[a.id].Starting?
    ensures var proc := w.running[a.id];
            var started := StartedAt(w, proc);
            && proc.done < |Head(a.id, proc.mode, started)|
            && var f := Head(a.id, proc.mode, started)[proc.done];
               (a.size > 0 || MayBeEmpty(f)) && (f.Entry? ==> a.size > 0 || f.kind.Schema?)
  {
    HeadApplies(s, w, a);
    hide Head, Enabled, Apply, Render;
  }

  lemma OwnerOf(f: KeyForm, id: BackupId)
    requires BelongsTo(f, id)
    ensures (f.Own? ==> f.id == id) && (f.Entry? ==> f.id == id)
  {
  }

  lemma DataFormUse(s: Site, id: BackupId, mode: Mode, path: string, f: KeyForm)
    requires DataForm(s, id, mode, path, f)
    ensures ValidForm(s, f) && path == Render(s.p, f) && (f.Own? ==> f.id == id)
  {
    hide Render, PoolObject, ValidForm;
  }

  lemma TailOwner(id: BackupId, finished: nat, n: nat)
    requires n < 4
    ensures var f := Protocol.Tail(id, finished)[n]; !f.Own? && (f.Entry? ==> f.id == id)
  {
  }

  /** A sweep that begins removes entries of unreadable backups from the index and nothing else. */
  lemma SweepBegins(s: Site, w: World, a: Action)
    requires GoodSite(s) && Inv(s, Shadow(s, w)) && Enabled(s, w, a) && a.SweepList?
    ensures var w' := Apply(s, w, a);
            Shrinks(w.store, w'.store) && w' == w.(store := w'.store, sweeps := w'.sweeps)
  {
    hide *;
    ShadowFields(s, w);
    SweepListed(s, w, a);
    SweepMarksLive(s, Shadow(s, w), a.order, a.fqdn, Cutoff(w.clock, a.graceDays));
    var before := CleanupObsolete(w.store, s.p, a.order, a.fqdn, Cutoff(w.clock, a.graceDays)).before;
    LostOnlyIndex(s.p, w.store, before);
    Content.ShrinksMake(w.store, before);
  }

  lemma StepShrinks(s: Site, w: World, a: Action)
    requires GoodSite(s) && Inv(s, Shadow(s, w)) && Enabled(s, w, a) && !Writes(a)
    ensures Shrinks(w.store, Apply(s, w, a).store)
  {
    hide *;
    WritesCases(a);
    if a.ListPool? {
      ListApplies(s, w, a);
      Content.ShrinksMake(w.store, w.store);
    } else if a.SweepList? {
      SweepBegins(s, w, a);
    } else {
      Content.LosesMake(a);
      Content.LosingStep(s, w, a);
    }
  }
}
