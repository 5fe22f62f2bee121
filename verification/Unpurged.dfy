/**
 Runs without purges: what a backup wrote when it started, and its manifest, are never removed, whatever
 sweeps and listings do meanwhile.
 */
module Unpurged {
  import opened Text
  import opened IndexNames
  import opened ObjectStorage
  import opened Layout
  import opened NodeListing
  import opened Purge
  import opened PurgeIsolation
  import opened Snapshots
  import opened Manifests
  import opened Protocol
  import opened Invariant
  import opened ProtocolSafety
  import opened AnyRun

  // ---------------------------------------------------------------- what stays of one backup

  /** The first n writes of a backup are there, and its manifest if it is published. */
  ghost predicate Lasts(s: Site, st: Store, id: BackupId, mode: Mode, started: nat, n: nat, published: bool) {
    && InSite(s, id) && HeadDone(s, st, id, mode, started, n)
    && (published ==> n > 0 && Stored(s, st, Meta(id, "manifest.json")))
  }

  lemma LastsParts(s: Site, st: Store, id: BackupId, mode: Mode, started: nat, n: nat, published: bool)
    ensures Lasts(s, st, id, mode, started, n, published) <==>
            && InSite(s, id) && HeadDone(s, st, id, mode, started, n)
            && (published ==> n > 0 && Stored(s, st, Meta(id, "manifest.json")))
  {
    hide InSite, HeadDone, Stored, Meta;
  }

  /** Whatever stays of a backup in the one store stays in the other. */
  ghost predicate Carries(s: Site, st: Store, st': Store) {
    forall id, mode, started, n, published :: Lasts(s, st, id, mode, started, n, published) ==> Lasts(s, st', id, mode, started, n, published)
  }

  lemma PutKeepsLasts(s: Site, st: Store, f: KeyForm, b: Blob, id: BackupId, mode: Mode, started: nat, n: nat, published: bool)
    requires GoodSite(s) && ValidForm(s, f) && (f.Entry? ==> b.size > 0 || f.kind.Schema?) && Lasts(s, st, id, mode, started, n, published)
    ensures Lasts(s, st[Render(s.p, f) := b], id, mode, started, n, published)
  {
    hide GoodSite, Render, HeadDone, ValidForm, Meta, InSite;
    PutKeepsHead(s, st, id, mode, started, n, f, b);
  }

  /** The removals of listings and sweeps leave alone all that belongs to a backup whose schema is there. */
  ghost predicate Whole(s: Site, st: Store, st': Store) {
    forall id :: InSite(s, id) && Stored(s, st, Meta(id, "schema.cql")) ==> KeepsOwn(s, st, st', id)
  }

  lemma RemovalKeepsLasts(s: Site, st: Store, st': Store, id: BackupId, mode: Mode, started: nat, n: nat, published: bool)
    requires Whole(s, st, st') && Lasts(s, st, id, mode, started, n, published)
    ensures Lasts(s, st', id, mode, started, n, published)
  {
    if n == 0 {
      hide Stored, Meta, InSite, Head;
    } else {
      OwnIsValid(s, id, "manifest.json");
      MetaBelongs(id, "manifest.json");
      hide *;
      LastsParts(s, st, id, mode, started, n, published);
      SchemaFirst(s, st, id, mode, started, n);
      WholeUse(s, st, st', id);
      ShrinkKeepsHead(s, st, st', id, mode, started, n);
      if published {
        BelongsOwn(Meta(id, "manifest.json"), id);
        KeptUse(s, st, st', id, Meta(id, "manifest.json"));
      }
      LastsParts(s, st', id, mode, started, n, published);
    }
  }

  lemma BelongsOwn(f: KeyForm, id: BackupId)
    requires f.Own? && f.id == id
    ensures BelongsTo(f, id)
  {
  }

  lemma WholeUse(s: Site, st: Store, st': Store, id: BackupId)
    requires Whole(s, st, st') && InSite(s, id) && Stored(s, st, Meta(id, "schema.cql"))
    ensures KeepsOwn(s, st, st', id)
  {
    hide InSite, Stored, Meta, KeepsOwn;
  }

  lemma KeptUse(s: Site, st: Store, st': Store, id: BackupId, f: KeyForm)
    requires KeepsOwn(s, st, st', id) && ValidForm(s, f) && BelongsTo(f, id) && Stored(s, st, f)
    ensures Stored(s, st', f) && st'[Render(s.p, f)] == st[Render(s.p, f)]
  {
    hide Render, ValidForm, BelongsTo;
  }

  // ---------------------------------------------------------------- removals

  /** A listing drops index entries of backups without a schema only. */
  lemma ListingWhole(s: Site, st: Store, order: seq<string>, fqdn: Option<string>)
    requires GoodSite(s) && AllKnown(s, st) && Enumerates(order, ListObjects(st, IndexRoot(s.p)))
    ensures var r := ListNodeBackups(st, s.p, order, fqdn); r.Listed? && Whole(s, st, r.store)
  {
    hide *;
    KnownIndex(s, st);
    GoodTellsApart(s, st);
    ListingRoundTrip(s, st, order, fqdn);
    var st' := ListNodeBackups(st, s.p, order, fqdn).store;
    LostOnlyIndex(s.p, st, st');
    var k := ListingDropsExactly(s, st, order, fqdn);
    var read := Read(st, s.p, order, fqdn);
    forall id, f | InSite(s, id) && Stored(s, st, Meta(id, "schema.cql")) && ValidForm(s, f) && BelongsTo(f, id) && Render(s.p, f) in st
      ensures Render(s.p, f) in st' && st'[Render(s.p, f)] == st[Render(s.p, f)]
    {
      SchemaExists(s, st, id);
      OwnerOf(f, id);
    }
    WholeMake(s, st, st');
  }

  lemma WholeMake(s: Site, st: Store, st': Store)
    requires forall id, f :: InSite(s, id) && Stored(s, st, Meta(id, "schema.cql")) && ValidForm(s, f) && BelongsTo(f, id) && Render(s.p, f) in st
               ==> Render(s.p, f) in st' && st'[Render(s.p, f)] == st[Render(s.p, f)]
    ensures Whole(s, st, st')
  {
    hide Render, InSite, Meta, ValidForm, BelongsTo;
  }

  lemma PoolWhole(s: Site, st: Store, h: string, k: string)
    requires GoodSite(s) && PoolKey(s, h, k)
    ensures Whole(s, st, st - {k})
  {
    hide Render, GoodSite, InSite, ValidForm, Meta;
    var f :| ValidForm(s, f) && f.Pool? && f.fqdn == h && k == Render(s.p, f);
    forall id, g | InSite(s, id) && ValidForm(s, g) && BelongsTo(g, id) ensures Render(s.p, g) != k {
      ForeignKeysDiffer(s, f, g, id);
    }
  }

  lemma SameWhole(s: Site, st: Store)
    ensures Whole(s, st, st)
  {
    hide Render, InSite, ValidForm, Meta, BelongsTo;
  }

  lemma SameStore(s: Site, w: World, a: Action)
    requires Enabled(s, w, a) && !Writes(a) && !a.SweepList? && !a.SweepDelete? && w.purges == map[]
    ensures Apply(s, w, a).store == w.store
  {
    hide Render, ListObjects, EntryNames, InSite, ManifestOf, RunFor, KeptOf, PendingOf, ItemsFor, Enumerates;
  }

  lemma StepWhole(s: Site, w: World, a: Action)
    requires GoodSite(s) && Inv(s, Shadow(s, w)) && Enabled(s, w, a) && !Writes(a) && w.purges == map[]
    ensures Whole(s, w.store, Apply(s, w, a).store)
  {
    hide *;
    var v := Shadow(s, w);
    ShadowFields(s, w);
    InvParts(s, v);
    if a.SweepList? {
      var cutoff := Cutoff(w.clock, a.graceDays);
      SweepListed(s, w, a);
      SweepMarksLive(s, v, a.order, a.fqdn, cutoff);
      BeforeIsListed(w.store, s.p, a.order, a.fqdn, cutoff);
      ListingWhole(s, w.store, a.order, Some(a.fqdn));
    } else if a.SweepDelete? {
      SweepDeleteApplies(s, w, a);
      SweepsParts(s, v);
      PoolWhole(s, w.store, w.sweeps[a.job].fqdn, a.key);
    } else {
      SameStore(s, w, a);
      SameWhole(s, w.store);
    }
  }

  lemma StepCarries(s: Site, w: World, a: Action)
    requires GoodSite(s) && Inv(s, Shadow(s, w)) && Enabled(s, w, a) && w.purges == map[]
    ensures Carries(s, w.store, Apply(s, w, a).store)
  {
    hide *;
    var st' := Apply(s, w, a).store;
    if Writes(a) {
      var f, b := OneWrite(s, w, a);
      WrittenParts(s, w, a, f, b);
      forall id, mode, started, n, published | Lasts(s, w.store, id, mode, started, n, published)
        ensures Lasts(s, st', id, mode, started, n, published)
      {
        PutKeepsLasts(s, w.store, f, b, id, mode, started, n, published);
      }
    } else {
      StepWhole(s, w, a);
      WholeCarries(s, w.store, st');
    }
    CarriesMake(s, w.store, st');
  }

  lemma WholeCarries(s: Site, st: Store, st': Store)
    requires Whole(s, st, st')
    ensures forall id, mode, started, n, published :: Lasts(s, st, id, mode, started, n, published) ==> Lasts(s, st', id, mode, started, n, published)
  {
    hide *;
    forall id, mode, started, n, published | Lasts(s, st, id, mode, started, n, published)
      ensures Lasts(s, st', id, mode, started, n, published)
    {
      RemovalKeepsLasts(s, st, st', id, mode, started, n, published);
    }
  }

  lemma CarriesMake(s: Site, st: Store, st': Store)
    requires forall id, mode, started, n, published :: Lasts(s, st, id, mode, started, n, published) ==> Lasts(s, st', id, mode, started, n, published)
    ensures Carries(s, st, st')
  {
    hide Lasts;
  }

  lemma CarriesUse(s: Site, st: Store, st': Store, id: BackupId, mode: Mode, started: nat, n: nat, published: bool)
    requires Carries(s, st, st') && Lasts(s, st, id, mode, started, n, published)
    ensures Lasts(s, st', id, mode, started, n, published)
  {
    hide Lasts;
  }

  // ---------------------------------------------------------------- runs

  ghost predicate LiveLasts(s: Site, st: Store, id: BackupId, c: Complete) {
    Lasts(s, st, id, c.mode, c.started, |Head(id, c.mode, c.started)|, true)
  }

  ghost predicate RunLasts(s: Site, st: Store, id: BackupId, proc: Process) {
    match proc
    case Starting(mode, done, started) => Lasts(s, st, id, mode, started, done, false)
    case Uploading(mode, started, _, _, _, _, _) => Lasts(s, st, id, mode, started, |Head(id, mode, started)|, false)
    case Finishing(_, _, _, _) => true
  }

  /** Everything every backup has written first is there, with the manifests of the published ones. */
  ghost predicate AllLast(s: Site, w: World) {
    && (forall id :: id in w.live ==> LiveLasts(s, w.store, id, w.live[id]))
    && (forall id :: id in w.running ==> RunLasts(s, w.store, id, w.running[id]))
  }

  lemma AllParts(s: Site, w: World)
    ensures AllLast(s, w) <==>
            && (forall id :: id in w.live ==> LiveLasts(s, w.store, id, w.live[id]))
            && (forall id :: id in w.running ==> RunLasts(s, w.store, id, w.running[id]))
  {
    hide LiveLasts, RunLasts;
  }

  lemma LiveCarries(s: Site, st: Store, st': Store, id: BackupId, c: Complete)
    requires Carries(s, st, st') && LiveLasts(s, st, id, c)
    ensures LiveLasts(s, st', id, c)
  {
    hide Carries, Lasts, Head;
    CarriesUse(s, st, st', id, c.mode, c.started, |Head(id, c.mode, c.started)|, true);
  }

  lemma RunCarries(s: Site, st: Store, st': Store, id: BackupId, proc: Process)
    requires Carries(s, st, st') && RunLasts(s, st, id, proc)
    ensures RunLasts(s, st', id, proc)
  {
    hide Carries, Lasts, Head;
    match proc {
      case Starting(mode, done, started) => CarriesUse(s, st, st', id, mode, started, done, false);
      case Uploading(mode, started, _, _, _, _, _) => CarriesUse(s, st, st', id, mode, started, |Head(id, mode, started)|, false);
      case Finishing(_, _, _, _) =>
    }
  }

  /** The store of a listing or of another step, with everything else as it was. */
  lemma StoreCarries(s: Site, w: World, st': Store)
    requires AllLast(s, w) && Carries(s, w.store, st')
    ensures AllLast(s, w.(store := st'))
  {
    hide *;
    AllParts(s, w);
    forall id | id in w.live ensures LiveLasts(s, st', id, w.live[id]) { LiveCarries(s, w.store, st', id, w.live[id]); }
    forall id | id in w.running ensures RunLasts(s, st', id, w.running[id]) { RunCarries(s, w.store, st', id, w.running[id]); }
    AllParts(s, w.(store := st'));
  }

  /** What a step makes of the backups: new processes and survivors keep their first writes. */
  lemma RunsChange(s: Site, w: World, w': World, id: BackupId)
    requires AllLast(s, w.(store := w'.store))
    requires forall o :: o in w'.running && o != id ==> o in w.running && w'.running[o] == w.running[o]
    requires forall o :: o in w'.live && o != id ==> o in w.live && w'.live[o] == w.live[o]
    requires id in w'.running ==> RunLasts(s, w'.store, id, w'.running[id])
    requires id in w'.live ==> LiveLasts(s, w'.store, id, w'.live[id])
    ensures AllLast(s, w')
  {
    hide *;
    AllParts(s, w.(store := w'.store));
    AllParts(s, w');
  }

  lemma HeadLasts(s: Site, w: World, a: Action)
    requires GoodSite(s) && a.WriteHead? && Enabled(s, w, a) && AllLast(s, w) && Carries(s, w.store, Apply(s, w, a).store)
    ensures AllLast(s, Apply(s, w, a))
  {
    hide *;
    var me, w' := a.id, Apply(s, w, a);
    StoreCarries(s, w, w'.store);
    HeadFields(s, w, a);
    HeadSize(s, w, a);
    var proc := w.running[me];
    var started := StartedAt(w, proc);
    var b := Blob(a.size, w.clock, "", Raw(a.data));
    AllParts(s, w);
    AllParts(s, w.(store := w'.store));
    StartingLasts(s, w, me, proc);
    HeadGrows(s, w.store, me, proc.mode, started, proc.done, b);
    LastsParts(s, w'.store, me, proc.mode, started, proc.done + 1, false);
    StartingIsLasting(s, w'.store, me, proc.mode, proc.done + 1, started);
    RunsChange(s, w, w', me);
  }

  lemma StartingLasts(s: Site, w: World, id: BackupId, proc: Process)
    requires proc.Starting? && RunLasts(s, w.store, id, proc)
    ensures InSite(s, id) && (proc.done == 0 || HeadDone(s, w.store, id, proc.mode, StartedAt(w, proc), proc.done))
  {
    hide InSite, HeadDone;
  }

  lemma StartingIsLasting(s: Site, st: Store, id: BackupId, mode: Mode, done: nat, started: nat)
    ensures RunLasts(s, st, id, Starting(mode, done, started)) <==> Lasts(s, st, id, mode, started, done, false)
  {
    hide Lasts;
  }

  lemma UploadingIsLasting(s: Site, st: Store, id: BackupId, proc: Process)
    requires proc.Uploading?
    ensures RunLasts(s, st, id, proc) <==> Lasts(s, st, id, proc.mode, proc.started, |Head(id, proc.mode, proc.started)|, false)
  {
    hide Lasts, Head;
  }

  lemma ListLasts(s: Site, w: World, a: Action)
    requires a.ListPool? && Enabled(s, w, a) && AllLast(s, w)
    ensures AllLast(s, Apply(s, w, a))
  {
    hide *;
    ListApplies(s, w, a);
    var me, w', proc := a.id, Apply(s, w, a), w.running[a.id];
    AllParts(s, w);
    ListedStarted(s, w, a);
    StartingIs(proc);
    StartingIsLasting(s, w.store, me, proc.mode, proc.done, proc.started);
    UploadingIsLasting(s, w.store, me, UploadingFrom(s, w, a));
    assert w.(store := w'.store) == w;
    RunsChange(s, w, w', me);
  }

  lemma ListedStarted(s: Site, w: World, a: Action)
    requires a.ListPool? && a.id in w.running && w.running[a.id].Starting?
    ensures var proc, to := w.running[a.id], UploadingFrom(s, w, a);
            to.Uploading? && to.mode == proc.mode && to.started == proc.started
  {
  }

  lemma SendLasts(s: Site, w: World, a: Action)
    requires a.Send? && Enabled(s, w, a) && AllLast(s, w) && Carries(s, w.store, Apply(s, w, a).store)
    ensures AllLast(s, Apply(s, w, a))
  {
    hide *;
    SendApplies(s, w, a);
    var me, w', proc := a.id, Apply(s, w, a), w.running[a.id];
    StoreCarries(s, w, w'.store);
    AllParts(s, w.(store := w'.store));
    SentStarted(proc, a.upload);
    UploadingIsLasting(s, w'.store, me, proc);
    UploadingIsLasting(s, w'.store, me, Sent(proc, a.upload));
    RunsChange(s, w, w', me);
  }

  lemma SentStarted(proc: Process, u: Snapshots.Upload)
    requires proc.Uploading?
    ensures var to := Sent(proc, u); to.Uploading? && to.mode == proc.mode && to.started == proc.started
  {
  }

  lemma PublishLasts(s: Site, w: World, a: Action)
    requires a.Publish? && Enabled(s, w, a) && AllLast(s, w) && Carries(s, w.store, Apply(s, w, a).store)
    ensures AllLast(s, Apply(s, w, a))
  {
    hide *;
    PublishApplies(s, w, a);
    var me, w', proc := a.id, Apply(s, w, a), w.running[a.id];
    StoreCarries(s, w, w'.store);
    AllParts(s, w.(store := w'.store));
    UploadingIsLasting(s, w'.store, me, proc);
    StoredMeans(s, w'.store, Meta(me, "manifest.json"));
    PublishedLasts(s, w'.store, me, proc);
    FinishingLasts(s, w'.store, me, w'.running[me]);
    RunsChange(s, w, w', me);
  }

  lemma PublishedLasts(s: Site, st: Store, id: BackupId, proc: Process)
    requires proc.Uploading? && Stored(s, st, Meta(id, "manifest.json"))
    requires Lasts(s, st, id, proc.mode, proc.started, |Head(id, proc.mode, proc.started)|, false)
    ensures LiveLasts(s, st, id, CompleteFrom(proc))
  {
    hide HeadDone, InSite, Stored, Meta;
  }

  lemma FinishingLasts(s: Site, st: Store, id: BackupId, proc: Process)
    requires proc.Finishing?
    ensures RunLasts(s, st, id, proc)
  {
  }

  lemma TailLasts(s: Site, w: World, a: Action)
    requires a.WriteTail? && Enabled(s, w, a) && AllLast(s, w) && Carries(s, w.store, Apply(s, w, a).store)
    ensures AllLast(s, Apply(s, w, a))
  {
    hide *;
    TailApplies(s, w, a);
    var me, w' := a.id, Apply(s, w, a);
    StoreCarries(s, w, w'.store);
    AllParts(s, w.(store := w'.store));
    FinishingLasts(s, w'.store, me, w'.running[me]);
    RunsChange(s, w, w', me);
  }

  lemma BeginLasts(s: Site, w: World, a: Action)
    requires a.Begin? && Enabled(s, w, a) && AllLast(s, w)
    ensures AllLast(s, Apply(s, w, a))
  {
    hide *;
    BeginApplies(s, w, a);
    var me, w' := a.id, Apply(s, w, a);
    AllParts(s, w);
    BeginsLasting(s, w, a);
    assert w.(store := w'.store) == w;
    RunsChange(s, w, w', me);
  }

  lemma BeginsLasting(s: Site, w: World, a: Action)
    requires a.Begin? && Enabled(s, w, a)
    ensures RunLasts(s, w.store, a.id, Starting(a.mode, 0, 0))
  {
    hide InSite, Head, Render;
  }

  lemma OtherRuns(s: Site, w: World, a: Action)
    requires Enabled(s, w, a) && !Writes(a) && !a.ListPool? && !a.Begin? && !a.PurgeList? && w.purges == map[]
    ensures var w' := Apply(s, w, a);
            w'.live == w.live && forall o :: o in w'.running ==> o in w.running && w'.running[o] == w.running[o]
  {
    hide CleanupObsolete, Doomed, Cutoff, Enumerates, ListObjects, EntryNames;
  }

  lemma LastingStep(s: Site, w: World, a: Action)
    requires GoodSite(s) && Inv(s, Shadow(s, w)) && Enabled(s, w, a) && AllLast(s, w) && w.purges == map[] && !a.PurgeList?
    ensures AllLast(s, Apply(s, w, a))
  {
    hide *;
    var w' := Apply(s, w, a);
    StepCarries(s, w, a);
    WritesCases(a);
    if a.WriteHead? {
      HeadLasts(s, w, a);
    } else if a.ListPool? {
      ListLasts(s, w, a);
    } else if a.Send? {
      SendLasts(s, w, a);
    } else if a.Publish? {
      PublishLasts(s, w, a);
    } else if a.WriteTail? {
      TailLasts(s, w, a);
    } else if a.Begin? {
      BeginLasts(s, w, a);
    } else {
      OtherRuns(s, w, a);
      StoreCarries(s, w, w'.store);
      AllParts(s, w.(store := w'.store));
      AllParts(s, w');
    }
  }

  // ---------------------------------------------------------------- what a listing needs

  /** A backup that has kept its first writes has its tokenmap entry listed and is taken to exist. */
  lemma LastingListed(s: Site, st: Store, id: BackupId, c: Complete)
    requires GoodSite(s) && LiveLasts(s, st, id, c)
    ensures InSite(s, id) && IndexedKey(s.p, id, Tokenmap, 0) in ListObjects(st, IndexRoot(s.p))
    ensures NodeListing.Exists(st, s.p, id) && MetaKey(s.p, id, "manifest.json") in st
  {
    var n := |Head(id, c.mode, c.started)|;
    assert n > 0;
    assert Lasts(s, st, id, c.mode, c.started, n, true) by { hide Lasts; }
    LastsParts(s, st, id, c.mode, c.started, n, true);
    var j := TokenmapAt(id, c.mode, c.started);
    SchemaFirst(s, st, id, c.mode, c.started, n);
    SchemaExists(s, st, id);
    MetaRenders(s.p, id, "manifest.json");
    hide Head, Render, GoodSite, DataKey, IndexRoot, IndexKey, Meta, InSite, Lasts, LiveLasts, MetaKey;
    assert WrittenHead(s, st, Head(id, c.mode, c.started)[j]);
    EntryListed(s, st, id, Tokenmap);
  }

  lemma TokenmapAt(id: BackupId, mode: Mode, started: nat) returns (j: nat)
    ensures j < |Head(id, mode, started)| && Head(id, mode, started)[j] == Entry(id, Tokenmap, 0)
  {
    j := if mode.Differential? then 4 else 3;
  }
}
