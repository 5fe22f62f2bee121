/**
 What the stored objects contain, over whole runs. A file's place in the pool has one content: the
 snapshots of a host agree on the files they share, as SSTables are never rewritten under one name.
 Then every surviving backup gives back its own snapshot, kept files included.
 */
module Content {
  import opened Text
  import opened IndexNames
  import opened ObjectStorage
  import opened Layout
  import opened NodeListing
  import opened Purge
  import opened TableKeys
  import opened PoolIndex
  import opened Snapshots
  import opened Manifests
  import opened Protocol
  import opened Invariant
  import opened ProtocolSafety
  import Verify
  import Download

  /** The content of each pool object, by its name. */
  type Library = string -> string

  ghost predicate Belongs(tables: seq<Table>, t: Table, f: SnapFile) { t in tables && f in t.files && Eligible(f) }

  /** In one snapshot, what goes to one key has one content. */
  ghost predicate OneContent(run: Run, tables: seq<Table>) {
    forall t, f, u, g :: Belongs(tables, t, f) && Belongs(tables, u, g) && KeyFor(run, t, f) == KeyFor(run, u, g) ==> f.data == g.data
  }

  ghost predicate Follows(lib: Library, run: Run, tables: seq<Table>) {
    forall t, f :: Belongs(tables, t, f) ==> lib(KeyFor(run, t, f)) == f.data
  }

  /** What the snapshot of a backup must satisfy when the backup lists the pool. */
  ghost predicate Immutable(s: Site, lib: Library, w: World, a: Action)
    requires a.ListPool? && Enabled(s, w, a)
  {
    var mode := w.running[a.id].mode;
    var run := RunFor(s, w, a, mode);
    if mode.Differential? then Follows(lib, run, a.tables) else OneContent(run, a.tables)
  }

  ghost predicate ImmutableRun(s: Site, lib: Library, w: World, actions: seq<Action>)
    requires ValidRun(s, w, actions)
    decreases |actions|
  {
    actions == [] || ((actions[0].ListPool? ==> Immutable(s, lib, w, actions[0])) && ImmutableRun(s, lib, Apply(s, w, actions[0]), actions[1..]))
  }

  // ---------------------------------------------------------------- the invariant

  ghost predicate Taken(all: seq<Action>, id: BackupId, tables: seq<Table>) {
    exists a :: a in all && a.ListPool? && a.id == id && a.tables == tables
  }

  /** A plan is that of a snapshot the backup took, and its manifest is the one the source computes. */
  ghost predicate PlanFits(s: Site, lib: Library, all: seq<Action>, id: BackupId, mode: Mode, manifest: Manifest, plan: Plan) {
    && GoodRun(plan.run) && IndexedFrom(plan.run, plan.items)
    && plan.run.p == s.p && plan.run.id == id && plan.run.mode == mode
    && (forall t :: t in plan.tables ==> GoodTableFiles(t))
    && manifest == ManifestOf(plan.run, plan.tables)
    && Taken(all, id, plan.tables)
    && (mode.Differential? ==> Follows(lib, plan.run, plan.tables))
  }

  ghost predicate Matches(run: Run, tables: seq<Table>, u: Upload) {
    forall t, f :: Belongs(tables, t, f) && KeyFor(run, t, f) == u.key ==> f.data == u.data
  }

  /** Every file of the snapshot that is not waiting to be sent has its content, if it is stored at all. */
  ghost predicate Right(st: Store, pending: set<Upload>, run: Run, tables: seq<Table>) {
    forall t, f :: Belongs(tables, t, f) && !IsPending(pending, KeyFor(run, t, f)) && KeyFor(run, t, f) in st ==>
      st[KeyFor(run, t, f)].body == Raw(f.data)
  }

  ghost predicate PoolRight(s: Site, lib: Library, st: Store) {
    forall h, k :: h in s.hosts && PoolKey(s, h, k) && k in st ==> st[k].body == Raw(lib(k))
  }

  ghost predicate LiveRight(s: Site, lib: Library, all: seq<Action>, st: Store, id: BackupId, c: Complete) {
    PlanFits(s, lib, all, id, c.mode, c.manifest, c.plan) && (c.mode.Full? ==> Right(st, {}, c.plan.run, c.plan.tables))
  }

  ghost predicate UploadRight(s: Site, lib: Library, all: seq<Action>, st: Store, id: BackupId, proc: Process)
    requires proc.Uploading?
  {
    && PlanFits(s, lib, all, id, proc.mode, proc.manifest, proc.plan)
    && (forall u :: u in proc.pending ==> Matches(proc.plan.run, proc.plan.tables, u) && (proc.mode.Differential? ==> lib(u.key) == u.data))
    && (proc.mode.Full? ==> Right(st, proc.pending, proc.plan.run, proc.plan.tables))
  }

  ghost predicate ContentInv(s: Site, lib: Library, all: seq<Action>, w: World) {
    && PoolRight(s, lib, w.store)
    && (forall id :: id in w.live ==> LiveRight(s, lib, all, w.store, id, w.live[id]))
    && (forall id :: id in w.running && w.running[id].Uploading? ==> UploadRight(s, lib, all, w.store, id, w.running[id]))
  }

  lemma ContentParts(s: Site, lib: Library, all: seq<Action>, w: World)
    ensures ContentInv(s, lib, all, w) <==>
            && PoolRight(s, lib, w.store)
            && (forall id :: id in w.live ==> LiveRight(s, lib, all, w.store, id, w.live[id]))
            && (forall id :: id in w.running && w.running[id].Uploading? ==> UploadRight(s, lib, all, w.store, id, w.running[id]))
  {
    hide PoolRight, LiveRight, UploadRight;
  }

  // ---------------------------------------------------------------- keys

  /** A snapshot file's key is a data key of its backup. */
  lemma FileIsData(s: Site, run: Run, t: Table, f: SnapFile)
    requires GoodSite(s) && InSite(s, run.id) && run.p == s.p && GoodRun(run) && GoodTableFiles(t) && f in t.files
    ensures DataKey(s, run.id, run.mode, KeyFor(run, t, f))
  {
    KeyForShape(run, t, f);
    var rel := Relative(t.keyspace, t.folder, f.sub, f.name);
    hide KeyFor, Relative, GoodSite;
    if run.mode.Full? {
      var g := Own(run.id, "data/" + rel);
      assert Render(s.p, g) == KeyFor(run, t, f) by { RegroupFull(BackupPath(s.p, run.id), rel); }
      assert DataForm(s, run.id, run.mode, KeyFor(run, t, f), g);
    } else {
      var g := Pool(run.id.fqdn, rel);
      assert Render(s.p, g) == KeyFor(run, t, f);
      assert DataParts(s.p, run.id, run.mode) == DataParts(s.p, BackupId(run.id.fqdn, ""), Layout.Differential);
      assert PoolFile(s.p, run.id.fqdn, KeyFor(run, t, f), t.keyspace, t.folder, f);
      assert DataForm(s, run.id, run.mode, KeyFor(run, t, f), g);
    }
  }

  predicate NotData(f: KeyForm) { !f.Pool? && !(f.Own? && "data/" <= f.rest) }

  lemma DataUntouched(s: Site, id: BackupId, mode: Mode, k: string, f: KeyForm)
    requires GoodSite(s) && InSite(s, id) && DataKey(s, id, mode, k) && ValidForm(s, f) && NotData(f)
    ensures Render(s.p, f) != k
  {
    hide Render, GoodSite, PoolPath, BackupPath, PoolObject;
    var g :| DataForm(s, id, mode, k, g);
    if g.Pool? {
      PoolPathReaches(s, g.fqdn, g);
      PoolPathReaches(s, g.fqdn, f);
    } else {
      BackupPathReaches(s, id, g);
      BackupPathReaches(s, id, f);
      if f.Own? && f.id == id { OwnKeysDiffer(s.p, id, f.rest, g.rest); }
    }
  }

  lemma PoolUntouched(s: Site, h: string, k: string, f: KeyForm)
    requires GoodSite(s) && h in s.hosts && PoolKey(s, h, k) && ValidForm(s, f) && !f.Pool?
    ensures Render(s.p, f) != k
  {
    hide Render, GoodSite, PoolPath;
    var g :| ValidForm(s, g) && g.Pool? && g.fqdn == h && k == Render(s.p, g);
    PoolPathReaches(s, h, g);
    PoolPathReaches(s, h, f);
  }

  /** Data keys of a full backup are its own. */
  lemma FullKeysApart(s: Site, a: BackupId, mode: Mode, id: BackupId, k: string)
    requires GoodSite(s) && InSite(s, a) && InSite(s, id) && DataKey(s, a, mode, k) && DataKey(s, id, Layout.Full, k)
    ensures a == id && mode.Full?
  {
    hide Render, GoodSite, BackupPath, PoolObject;
    var f :| DataForm(s, a, mode, k, f);
    var g :| DataForm(s, id, Layout.Full, k, g);
    BackupPathReaches(s, id, f);
    BackupPathReaches(s, id, g);
  }

  lemma FitsUse(s: Site, lib: Library, all: seq<Action>, id: BackupId, mode: Mode, manifest: Manifest, plan: Plan)
    requires PlanFits(s, lib, all, id, mode, manifest, plan)
    ensures GoodRun(plan.run) && plan.run.p == s.p && plan.run.id == id && plan.run.mode == mode && IndexedFrom(plan.run, plan.items)
    ensures forall t :: t in plan.tables ==> GoodTableFiles(t)
    ensures manifest == ManifestOf(plan.run, plan.tables) && Taken(all, id, plan.tables)
    ensures mode.Differential? ==> Follows(lib, plan.run, plan.tables)
  {
    hide GoodRun, IndexedFrom, GoodTableFiles, ManifestOf, Follows, Taken;
  }

  lemma BelongsUse(tables: seq<Table>, t: Table, f: SnapFile)
    requires Belongs(tables, t, f)
    ensures t in tables && f in t.files && Eligible(f)
  {
    hide Eligible;
  }

  lemma PlanKey(s: Site, lib: Library, all: seq<Action>, id: BackupId, mode: Mode, manifest: Manifest, plan: Plan, t: Table, f: SnapFile)
    requires GoodSite(s) && InSite(s, id) && PlanFits(s, lib, all, id, mode, manifest, plan) && Belongs(plan.tables, t, f)
    ensures DataKey(s, id, mode, KeyFor(plan.run, t, f))
  {
    hide *;
    FitsUse(s, lib, all, id, mode, manifest, plan);
    BelongsUse(plan.tables, t, f);
    FileIsData(s, plan.run, t, f);
  }

  // ---------------------------------------------------------------- what writes and deletions keep

  lemma RightUse(st: Store, pending: set<Upload>, run: Run, tables: seq<Table>)
    ensures Right(st, pending, run, tables) <==>
            forall t, f :: Belongs(tables, t, f) && !IsPending(pending, KeyFor(run, t, f)) && KeyFor(run, t, f) in st ==>
              st[KeyFor(run, t, f)].body == Raw(f.data)
  {
    hide Belongs, IsPending, KeyFor;
  }

  lemma PoolRightUse(s: Site, lib: Library, st: Store)
    ensures PoolRight(s, lib, st) <==> forall h, k :: h in s.hosts && PoolKey(s, h, k) && k in st ==> st[k].body == Raw(lib(k))
  {
    hide PoolKey;
  }

  lemma LiveRightUse(s: Site, lib: Library, all: seq<Action>, st: Store, id: BackupId, c: Complete)
    ensures LiveRight(s, lib, all, st, id, c) <==>
            PlanFits(s, lib, all, id, c.mode, c.manifest, c.plan) && (c.mode.Full? ==> Right(st, {}, c.plan.run, c.plan.tables))
  {
    hide PlanFits, Right;
  }

  lemma UploadRightUse(s: Site, lib: Library, all: seq<Action>, st: Store, id: BackupId, proc: Process)
    requires proc.Uploading?
    ensures UploadRight(s, lib, all, st, id, proc) <==>
            && PlanFits(s, lib, all, id, proc.mode, proc.manifest, proc.plan)
            && (forall u :: u in proc.pending ==> Matches(proc.plan.run, proc.plan.tables, u) && (proc.mode.Differential? ==> lib(u.key) == u.data))
            && (proc.mode.Full? ==> Right(st, proc.pending, proc.plan.run, proc.plan.tables))
  {
    hide PlanFits, Right, Matches;
  }

  lemma RightShrinks(st: Store, st': Store, pending: set<Upload>, run: Run, tables: seq<Table>)
    requires Right(st, pending, run, tables) && Shrinks(st, st')
    ensures Right(st', pending, run, tables)
  {
    hide Belongs, IsPending, KeyFor;
  }

  lemma PoolRightShrinks(s: Site, lib: Library, st: Store, st': Store)
    requires PoolRight(s, lib, st) && Shrinks(st, st')
    ensures PoolRight(s, lib, st')
  {
    hide PoolKey;
  }

  /** A step that only deletes, and lets backups leave, keeps all contents right. */
  lemma LosingKeeps(s: Site, lib: Library, all: seq<Action>, w: World, w': World)
    requires ContentInv(s, lib, all, w) && Shrinks(w.store, w'.store)
    requires forall id :: id in w'.live ==> id in w.live && w'.live[id] == w.live[id]
    requires forall id :: id in w'.running && w'.running[id].Uploading? ==> id in w.running && w'.running[id] == w.running[id]
    ensures ContentInv(s, lib, all, w')
  {
    hide *;
    ContentParts(s, lib, all, w);
    PoolRightShrinks(s, lib, w.store, w'.store);
    forall id | id in w'.live ensures LiveRight(s, lib, all, w'.store, id, w'.live[id]) {
      var c := w.live[id];
      LiveRightUse(s, lib, all, w.store, id, c);
      if c.mode.Full? { RightShrinks(w.store, w'.store, {}, c.plan.run, c.plan.tables); }
      LiveRightUse(s, lib, all, w'.store, id, c);
    }
    forall id | id in w'.running && w'.running[id].Uploading? ensures UploadRight(s, lib, all, w'.store, id, w'.running[id]) {
      var proc := w.running[id];
      UploadRightUse(s, lib, all, w.store, id, proc);
      if proc.mode.Full? { RightShrinks(w.store, w'.store, proc.pending, proc.plan.run, proc.plan.tables); }
      UploadRightUse(s, lib, all, w'.store, id, proc);
    }
    ContentParts(s, lib, all, w');
  }

  /** A write that is not data touches no content. */
  lemma RightUntouched(s: Site, lib: Library, all: seq<Action>, st: Store, pending: set<Upload>, id: BackupId, mode: Mode, manifest: Manifest, plan: Plan,
                       f: KeyForm, b: Blob)
    requires GoodSite(s) && InSite(s, id) && PlanFits(s, lib, all, id, mode, manifest, plan) && ValidForm(s, f) && NotData(f)
    requires Right(st, pending, plan.run, plan.tables)
    ensures Right(st[Render(s.p, f) := b], pending, plan.run, plan.tables)
  {
    hide *;
    var k, st' := Render(s.p, f), st[Render(s.p, f) := b];
    RightUse(st, pending, plan.run, plan.tables);
    forall t, g | Belongs(plan.tables, t, g) ensures KeyFor(plan.run, t, g) != k {
      PlanKey(s, lib, all, id, mode, manifest, plan, t, g);
      DataUntouched(s, id, mode, KeyFor(plan.run, t, g), f);
    }
    RightUse(st', pending, plan.run, plan.tables);
  }

  lemma PoolRightUntouched(s: Site, lib: Library, st: Store, f: KeyForm, b: Blob)
    requires GoodSite(s) && PoolRight(s, lib, st) && ValidForm(s, f) && !f.Pool?
    ensures PoolRight(s, lib, st[Render(s.p, f) := b])
  {
    hide *;
    var st' := st[Render(s.p, f) := b];
    PoolRightUse(s, lib, st);
    forall h, k | h in s.hosts && PoolKey(s, h, k) && k in st' ensures st'[k].body == Raw(lib(k)) {
      PoolUntouched(s, h, k, f);
    }
    PoolRightUse(s, lib, st');
  }

  lemma NotDataUse(f: KeyForm)
    requires NotData(f)
    ensures !f.Pool?
  {
  }

  /** A write of start_backup or do_backup besides the data; live and running backups may only be what they were. */
  lemma PlainWriteKeeps(s: Site, lib: Library, all: seq<Action>, w: World, w': World, f: KeyForm, b: Blob)
    requires GoodSite(s) && Inv(s, w) && ContentInv(s, lib, all, w) && ValidForm(s, f) && NotData(f)
    requires w'.store == w.store[Render(s.p, f) := b]
    requires forall id :: id in w'.live ==>
               || (id in w.live && w'.live[id] == w.live[id])
               || (id in w.running && w.running[id].Uploading? && w.running[id].pending == {} && w'.live[id] == CompleteFrom(w.running[id]))
    requires forall id :: id in w'.running && w'.running[id].Uploading? ==> id in w.running && w'.running[id] == w.running[id]
    ensures ContentInv(s, lib, all, w')
  {
    hide *;
    ContentParts(s, lib, all, w);
    InvParts(s, w);
    LiveParts(s, w);
    NotDataUse(f);
    PoolRightUntouched(s, lib, w.store, f, b);
    forall id | id in w'.live ensures LiveRight(s, lib, all, w'.store, id, w'.live[id]) {
      if id in w.live && w'.live[id] == w.live[id] {
        var c := w.live[id];
        LiveInSite(s, w.store, id, c);
        LiveRightUse(s, lib, all, w.store, id, c);
        if c.mode.Full? { RightUntouched(s, lib, all, w.store, {}, id, c.mode, c.manifest, c.plan, f, b); }
        LiveRightUse(s, lib, all, w'.store, id, c);
      } else {
        var proc := w.running[id];
        RunInSite(s, w, id);
        UploadRightUse(s, lib, all, w.store, id, proc);
        if proc.mode.Full? { RightUntouched(s, lib, all, w.store, {}, id, proc.mode, proc.manifest, proc.plan, f, b); }
        CompleteFields(proc);
        LiveRightUse(s, lib, all, w'.store, id, CompleteFrom(proc));
      }
    }
    forall id | id in w'.running && w'.running[id].Uploading? ensures UploadRight(s, lib, all, w'.store, id, w'.running[id]) {
      var proc := w.running[id];
      RunInSite(s, w, id);
      UploadRightUse(s, lib, all, w.store, id, proc);
      if proc.mode.Full? { RightUntouched(s, lib, all, w.store, proc.pending, id, proc.mode, proc.manifest, proc.plan, f, b); }
      UploadRightUse(s, lib, all, w'.store, id, proc);
    }
    ContentParts(s, lib, all, w');
  }

  lemma CompleteFields(proc: Process)
    requires proc.Uploading?
    ensures CompleteFrom(proc) == Complete(proc.mode, proc.manifest, proc.started, proc.plan)
  {
  }

  // ---------------------------------------------------------------- sending data

  lemma BodyOf(u: Upload, now: nat)
    ensures BlobOf(u, now).body == Raw(u.data)
  {
  }

  lemma MatchesUse(run: Run, tables: seq<Table>, u: Upload, t: Table, f: SnapFile)
    requires Matches(run, tables, u) && Belongs(tables, t, f) && KeyFor(run, t, f) == u.key
    ensures f.data == u.data
  {
    hide KeyFor, Belongs;
  }

  lemma StillPending(pending: set<Upload>, u: Upload, k: string)
    requires IsPending(pending, k) && k != u.key
    ensures IsPending(pending - {u}, k)
  {
    var v :| v in pending && v.key == k;
    assert v in pending - {u};
  }

  /** The backup's own files, after one of them was sent. */
  lemma SentRight(st: Store, pending: set<Upload>, run: Run, tables: seq<Table>, u: Upload, now: nat)
    requires Right(st, pending, run, tables) && Matches(run, tables, u)
    ensures Right(st[u.key := BlobOf(u, now)], pending - {u}, run, tables)
  {
    hide *;
    var st' := st[u.key := BlobOf(u, now)];
    BodyOf(u, now);
    RightUse(st, pending, run, tables);
    forall t, f | Belongs(tables, t, f) && !IsPending(pending - {u}, KeyFor(run, t, f)) && KeyFor(run, t, f) in st'
      ensures st'[KeyFor(run, t, f)].body == Raw(f.data)
    {
      if KeyFor(run, t, f) == u.key {
        MatchesUse(run, tables, u, t, f);
      } else if IsPending(pending, KeyFor(run, t, f)) {
        StillPending(pending, u, KeyFor(run, t, f));
      }
    }
    RightUse(st', pending - {u}, run, tables);
  }

  /** Another full backup's files, after somebody sent something. */
  lemma OthersRight(s: Site, lib: Library, all: seq<Action>, st: Store, pending: set<Upload>, id: BackupId, manifest: Manifest, plan: Plan,
                    me: BackupId, mode: Mode, u: Upload, b: Blob)
    requires GoodSite(s) && InSite(s, id) && InSite(s, me) && id != me && DataKey(s, me, mode, u.key)
    requires PlanFits(s, lib, all, id, Layout.Full, manifest, plan) && Right(st, pending, plan.run, plan.tables)
    ensures Right(st[u.key := b], pending, plan.run, plan.tables)
  {
    hide *;
    RightUse(st, pending, plan.run, plan.tables);
    forall t, g | Belongs(plan.tables, t, g) ensures KeyFor(plan.run, t, g) != u.key {
      PlanKey(s, lib, all, id, Layout.Full, manifest, plan, t, g);
      if KeyFor(plan.run, t, g) == u.key { FullKeysApart(s, me, mode, id, u.key); }
    }
    RightUse(st[u.key := b], pending, plan.run, plan.tables);
  }

  lemma SentPool(s: Site, lib: Library, st: Store, me: BackupId, mode: Mode, u: Upload, now: nat)
    requires GoodSite(s) && PoolRight(s, lib, st) && DataKey(s, me, mode, u.key) && (mode.Differential? ==> lib(u.key) == u.data)
    ensures PoolRight(s, lib, st[u.key := BlobOf(u, now)])
  {
    hide *;
    BodyOf(u, now);
    PoolRightUse(s, lib, st);
    var st' := st[u.key := BlobOf(u, now)];
    forall h, k | h in s.hosts && PoolKey(s, h, k) && k in st' ensures st'[k].body == Raw(lib(k)) {
      if k == u.key { PoolKeyOwner(s, h, k, me, mode); }
    }
    PoolRightUse(s, lib, st');
  }

  lemma SendKeeps(s: Site, lib: Library, all: seq<Action>, w: World, a: Action)
    requires GoodSite(s) && Inv(s, w) && ContentInv(s, lib, all, w) && a.Send? && Enabled(s, w, a)
    ensures ContentInv(s, lib, all, Apply(s, w, a))
  {
    hide *;
    SendApplies(s, w, a);
    ContentParts(s, lib, all, w);
    InvParts(s, w);
    LiveParts(s, w);
    var me, u, proc, w' := a.id, a.upload, w.running[a.id], Apply(s, w, a);
    var b := BlobOf(u, w.clock);
    UploadingUse(s, w, me);
    RoamingKeys(s, w.store, w.clock, me, proc);
    UploadRightUse(s, lib, all, w.store, me, proc);
    SentPool(s, lib, w.store, me, proc.mode, u, w.clock);
    SentAll(proc, u);
    forall id | id in w'.live ensures LiveRight(s, lib, all, w'.store, id, w'.live[id]) {
      var c := w.live[id];
      LiveInSite(s, w.store, id, c);
      LiveRightUse(s, lib, all, w.store, id, c);
      if c.mode.Full? { OthersRight(s, lib, all, w.store, {}, id, c.manifest, c.plan, me, proc.mode, u, b); }
      LiveRightUse(s, lib, all, w'.store, id, c);
    }
    forall id | id in w'.running && w'.running[id].Uploading? ensures UploadRight(s, lib, all, w'.store, id, w'.running[id]) {
      if id == me {
        if proc.mode.Full? { SentRight(w.store, proc.pending, proc.plan.run, proc.plan.tables, u, w.clock); }
        UploadRightUse(s, lib, all, w'.store, me, Sent(proc, u));
      } else {
        var other := w.running[id];
        RunInSite(s, w, id);
        UploadRightUse(s, lib, all, w.store, id, other);
        if other.mode.Full? { OthersRight(s, lib, all, w.store, other.pending, id, other.manifest, other.plan, me, proc.mode, u, b); }
        UploadRightUse(s, lib, all, w'.store, id, other);
      }
    }
    ContentParts(s, lib, all, w');
  }

  lemma SentAll(proc: Process, u: Upload)
    requires proc.Uploading?
    ensures Sent(proc, u)
            == Uploading(proc.mode, proc.started, proc.began, proc.kept, proc.pending - {u}, proc.manifest, proc.plan)
  {
  }

  // ---------------------------------------------------------------- listing the pool

  lemma PendingUpload(run: Run, tables: seq<Table>, u: Upload) returns (t: Table, f: SnapFile)
    requires (forall t :: t in tables ==> GoodTableFiles(t)) && u in PendingOf(run, tables)
    ensures t in tables && f in t.files && Eligible(f) && u.key == KeyFor(run, t, f) && u.data == f.data
  {
    UploadsMember(run, tables);
    hide UploadsOf, GoodTableFiles, KeyFor, Eligible;
    assert UploadedBy(run, tables, u);
    t, f :| t in tables && UploadOf(run, t, f, u);
    UploadIsEligible(run, t, f);
  }

  lemma UploadIsEligible(run: Run, t: Table, f: SnapFile)
    requires ToUpload(run, t, f)
    ensures Eligible(f)
  {
    hide SanitizeLocal, Find, LocalPath;
  }

  lemma FollowsUse(lib: Library, run: Run, tables: seq<Table>, t: Table, f: SnapFile)
    requires Follows(lib, run, tables) && Belongs(tables, t, f)
    ensures lib(KeyFor(run, t, f)) == f.data
  {
    hide KeyFor, Belongs;
  }

  lemma OneContentUse(run: Run, tables: seq<Table>, t: Table, f: SnapFile, u: Table, g: SnapFile)
    requires OneContent(run, tables) && Belongs(tables, t, f) && Belongs(tables, u, g) && KeyFor(run, t, f) == KeyFor(run, u, g)
    ensures f.data == g.data
  {
    hide KeyFor, Belongs;
  }

  lemma BelongsMake(tables: seq<Table>, t: Table, f: SnapFile)
    requires t in tables && f in t.files && Eligible(f)
    ensures Belongs(tables, t, f)
  {
    hide Eligible;
  }

  lemma MatchesMake(run: Run, tables: seq<Table>, u: Upload)
    requires forall t, f :: Belongs(tables, t, f) && KeyFor(run, t, f) == u.key ==> f.data == u.data
    ensures Matches(run, tables, u)
  {
    hide KeyFor, Belongs;
  }

  lemma PendingMatches(lib: Library, run: Run, tables: seq<Table>, u: Upload)
    requires (forall t :: t in tables ==> GoodTableFiles(t)) && u in PendingOf(run, tables)
    requires if run.mode.Differential? then Follows(lib, run, tables) else OneContent(run, tables)
    ensures Matches(run, tables, u) && (run.mode.Differential? ==> lib(u.key) == u.data)
  {
    hide *;
    var t, f := PendingUpload(run, tables, u);
    BelongsMake(tables, t, f);
    forall x, g | Belongs(tables, x, g) && KeyFor(run, x, g) == u.key ensures g.data == u.data {
      if run.mode.Differential? {
        FollowsUse(lib, run, tables, x, g);
        FollowsUse(lib, run, tables, t, f);
      } else {
        OneContentUse(run, tables, x, g, t, f);
      }
    }
    if run.mode.Differential? { FollowsUse(lib, run, tables, t, f); }
    MatchesMake(run, tables, u);
  }

  /** A full backup sends every eligible file. */
  lemma AllPending(run: Run, tables: seq<Table>, t: Table, f: SnapFile)
    requires run.mode.Full? && (forall t :: t in tables ==> GoodTableFiles(t)) && Belongs(tables, t, f)
    ensures IsPending(PendingOf(run, tables), KeyFor(run, t, f))
  {
    UploadsMember(run, tables);
    Download.FullUploads(run, t, f);
    hide UploadsOf, GoodTableFiles, KeyFor, ToUpload, Eligible;
    assert UploadFor(run, t, f) in PendingOf(run, tables);
    assert UploadFor(run, t, f).key == KeyFor(run, t, f);
  }

  lemma ListedRight(s: Site, lib: Library, all: seq<Action>, w: World, a: Action)
    requires GoodSite(s) && Inv(s, w) && a.ListPool? && Enabled(s, w, a) && Immutable(s, lib, w, a) && a in all
    ensures a.id in w.running && w.running[a.id].Starting?
    ensures UploadingFrom(s, w, a).Uploading? && UploadRight(s, lib, all, w.store, a.id, UploadingFrom(s, w, a))
  {
    ListApplies(s, w, a);
    var mode := w.running[a.id].mode;
    var run, items := RunFor(s, w, a, mode), ItemsFor(w, a, mode);
    assert UploadingFrom(s, w, a)
        == Uploading(mode, w.running[a.id].started, w.clock, KeptOf(run, a.tables), PendingOf(run, a.tables), ManifestOf(run, a.tables),
                     Plan(run, items, a.tables));
    assert run.p == s.p && run.id == a.id && run.mode == mode;
    assert if mode.Differential? then Follows(lib, run, a.tables) else OneContent(run, a.tables);
    assert Taken(all, a.id, a.tables);
    hide *;
    InvParts(s, w);
    RunInSite(s, w, a.id);
    RunIsGood(s, w, a, mode);
    FitsMake(s, lib, all, a.id, mode, Plan(run, items, a.tables));
    forall u | u in PendingOf(run, a.tables) ensures Matches(run, a.tables, u) && (mode.Differential? ==> lib(u.key) == u.data) {
      PendingMatches(lib, run, a.tables, u);
    }
    if mode.Full? {
      forall t, f | Belongs(a.tables, t, f) ensures IsPending(PendingOf(run, a.tables), KeyFor(run, t, f)) { AllPending(run, a.tables, t, f); }
      RightUse(w.store, PendingOf(run, a.tables), run, a.tables);
    }
    UploadRightUse(s, lib, all, w.store, a.id, UploadingFrom(s, w, a));
  }

  lemma FitsMake(s: Site, lib: Library, all: seq<Action>, id: BackupId, mode: Mode, plan: Plan)
    requires GoodRun(plan.run) && IndexedFrom(plan.run, plan.items)
    requires plan.run.p == s.p && plan.run.id == id && plan.run.mode == mode
    requires (forall t :: t in plan.tables ==> GoodTableFiles(t)) && Taken(all, id, plan.tables)
    requires mode.Differential? ==> Follows(lib, plan.run, plan.tables)
    ensures PlanFits(s, lib, all, id, mode, ManifestOf(plan.run, plan.tables), plan)
  {
    hide GoodRun, IndexedFrom, GoodTableFiles, ManifestOf, Follows, Taken;
  }

  lemma ListKeeps(s: Site, lib: Library, all: seq<Action>, w: World, a: Action)
    requires GoodSite(s) && Inv(s, w) && ContentInv(s, lib, all, w) && a.ListPool? && Enabled(s, w, a) && Immutable(s, lib, w, a) && a in all
    ensures ContentInv(s, lib, all, Apply(s, w, a))
  {
    hide *;
    ListApplies(s, w, a);
    ListedRight(s, lib, all, w, a);
    ContentParts(s, lib, all, w);
    ContentParts(s, lib, all, Apply(s, w, a));
  }

  /**
   Why the snapshots of a host must agree place by place: a file of another size than the pool's object of
   its place is uploaded over that object, which older manifests go on naming.
   */
  lemma DifferingFileOverwrites(run: Run, items: seq<ManifestObject>, t: Table, f: SnapFile, o: ManifestObject)
    requires GoodRun(run) && run.mode.Differential? && IndexedFrom(run, items) && GoodTableFiles(t) && f in t.files && Eligible(f)
    requires Find(run.index, t.keyspace, TableKey(t.folder, f.sub), f.name) == Some(o) && o.size != f.size
    ensures exists u :: u in UploadsOf(run, [t]) && u.key == o.path && u.data == f.data
  {
    hide *;
    FileGood(t, f);
    Verify.FileIsGood(t, f);
    FoundIsOwn(run, items, t, f, o);
    JudgedPresent(run, items, t, f);
    Verify.EligibleVerdict(run, t, f);
    OnlyOne(run, items, t, f, o);
    UploadsMember(run, [t]);
    SentFile(run, t, f);
  }

  lemma SentFile(run: Run, t: Table, f: SnapFile)
    ensures UploadFor(run, t, f).key == KeyFor(run, t, f) && UploadFor(run, t, f).data == f.data
  {
    hide KeyFor;
  }

  lemma OnlyOne(run: Run, items: seq<ManifestObject>, t: Table, f: SnapFile, o: ManifestObject)
    requires GoodRun(run) && run.mode.Differential? && GoodTableFiles(t) && GoodFile(f)
    requires Find(run.index, t.keyspace, TableKey(t.folder, f.sub), f.name) == Some(o) && o.size != f.size
    ensures !Judge(run, t, f).Present?
  {
    DataPartsGood(run);
    LocalAndStoredKeysAgree(DataParts(run.p, run.id, run.mode), run.root, t.keyspace, t.folder, run.tag, f);
    hide SanitizeLocal, LocalPath, Find, KeyFor, TableKey, StoredKey, SanitizeStored, ParsePath, UploadKey;
  }

  // ---------------------------------------------------------------- steps and runs

  lemma HeadNotData(id: BackupId, mode: Mode, started: nat, n: nat)
    requires n < |Head(id, mode, started)|
    ensures NotData(Head(id, mode, started)[n])
  {
    assert forall file :: ("meta/" + file)[0] == 'm' && "data/"[0] == 'd';
  }

  lemma TailNotData(id: BackupId, finished: nat, n: nat)
    requires n < 4
    ensures NotData(Protocol.Tail(id, finished)[n])
  {
  }

  lemma ManifestNotData(id: BackupId)
    ensures NotData(Meta(id, "manifest.json"))
  {
    assert ("meta/" + "manifest.json")[0] == 'm' && "data/"[0] == 'd';
  }

  lemma WriteKeeps(s: Site, lib: Library, all: seq<Action>, w: World, a: Action)
    requires GoodSite(s) && Inv(s, w) && ContentInv(s, lib, all, w) && Enabled(s, w, a) && (a.WriteHead? || a.Publish? || a.WriteTail?)
    ensures ContentInv(s, lib, all, Apply(s, w, a))
  {
    hide *;
    InvParts(s, w);
    var me, w' := a.id, Apply(s, w, a);
    if a.WriteHead? {
      HeadFields(s, w, a);
      var proc := w.running[me];
      StartingUse(s, w, me);
      HeadFormIn(s, me, proc.mode, StartedAt(w, proc), proc.done);
      HeadNotData(me, proc.mode, StartedAt(w, proc), proc.done);
      PlainWriteKeeps(s, lib, all, w, w', Head(me, proc.mode, StartedAt(w, proc))[proc.done], Blob(a.size, w.clock, "", Raw(a.data)));
    } else if a.Publish? {
      PublishApplies(s, w, a);
      var proc := w.running[me];
      UploadingUse(s, w, me);
      OwnIsValid(s, me, "manifest.json");
      ManifestNotData(me);
      PlainWriteKeeps(s, lib, all, w, w', Meta(me, "manifest.json"), Blob(a.size, w.clock, "", Doc(proc.manifest)));
    } else {
      TailApplies(s, w, a);
      var proc := w.running[me];
      FinishingUse(s, w, me);
      TailFormIn(s, me, proc.finished, proc.done);
      TailNotData(me, proc.finished, proc.done);
      PlainWriteKeeps(s, lib, all, w, w', Protocol.Tail(me, proc.finished)[proc.done],
                      Blob(a.size, w.clock, "", if proc.done == 0 then Doc(proc.manifest) else Raw(a.data)));
    }
  }

  lemma HeadFormIn(s: Site, id: BackupId, mode: Mode, started: nat, n: nat)
    requires InSite(s, id) && n < |Head(id, mode, started)|
    ensures ValidForm(s, Head(id, mode, started)[n])
  {
    HeadForms(id, mode, started, n);
    hide Head;
  }

  lemma TailFormIn(s: Site, id: BackupId, finished: nat, n: nat)
    requires InSite(s, id) && n < 4
    ensures ValidForm(s, Protocol.Tail(id, finished)[n])
  {
  }

  lemma InSiteFqdn(s: Site, id: BackupId)
    requires InSite(s, id)
    ensures id.fqdn in s.hosts
  {
  }

  predicate Loses(a: Action) {
    !a.ListPool? && !a.Send? && !a.WriteHead? && !a.Publish? && !a.WriteTail?
  }

  lemma LosingStep(s: Site, w: World, a: Action)
    requires Enabled(s, w, a) && Loses(a) && !a.SweepList?
    ensures var w' := Apply(s, w, a);
            && Shrinks(w.store, w'.store)
            && (forall id :: id in w'.live ==> id in w.live && w'.live[id] == w.live[id])
            && (forall id :: id in w'.running && w'.running[id].Uploading? ==> id in w.running && w'.running[id] == w.running[id])
  {
    hide Render, ListObjects, EntryNames, Undisturbed, Alarmed, InSite;
  }

  lemma LosingSweep(s: Site, w: World, a: Action)
    requires GoodSite(s) && Inv(s, w) && Enabled(s, w, a) && a.SweepList?
    ensures var w' := Apply(s, w, a);
            && Shrinks(w.store, w'.store) && w'.live == w.live && w'.running == w.running
  {
    hide *;
    SweepListed(s, w, a);
    SweepMarksLive(s, w, a.order, a.fqdn, Cutoff(w.clock, a.graceDays));
    var before := CleanupObsolete(w.store, s.p, a.order, a.fqdn, Cutoff(w.clock, a.graceDays)).before;
    LostOnlyIndex(s.p, w.store, before);
    ShrinksMake(w.store, before);
  }

  lemma ShrinksMake(st: Store, st': Store)
    requires st'.Keys <= st.Keys && forall k :: k in st' ==> st[k] == st'[k]
    ensures Shrinks(st, st')
  {
  }

  lemma ContentStep(s: Site, lib: Library, all: seq<Action>, w: World, a: Action)
    requires GoodSite(s) && Inv(s, w) && ContentInv(s, lib, all, w) && Enabled(s, w, a) && a in all
    requires a.ListPool? ==> Immutable(s, lib, w, a)
    ensures ContentInv(s, lib, all, Apply(s, w, a))
  {
    hide *;
    if a.ListPool? {
      ListKeeps(s, lib, all, w, a);
    } else if a.Send? {
      SendKeeps(s, lib, all, w, a);
    } else if a.WriteHead? || a.Publish? || a.WriteTail? {
      WriteKeeps(s, lib, all, w, a);
    } else {
      if a.SweepList? {
        LosingSweep(s, w, a);
      } else {
        LosesMake(a);
        LosingStep(s, w, a);
      }
      LosingKeeps(s, lib, all, w, Apply(s, w, a));
    }
  }

  lemma LosesMake(a: Action)
    requires !a.ListPool? && !a.Send? && !a.WriteHead? && !a.Publish? && !a.WriteTail?
    ensures Loses(a)
  {
  }

  lemma {:induction false} ContentOverRuns(s: Site, lib: Library, all: seq<Action>, w: World, actions: seq<Action>)
    requires GoodSite(s) && Inv(s, w) && ContentInv(s, lib, all, w) && ValidRun(s, w, actions) && ImmutableRun(s, lib, w, actions)
    requires forall a :: a in actions ==> a in all
    ensures Inv(s, After(s, w, actions)) && ContentInv(s, lib, all, After(s, w, actions))
    decreases |actions|
  {
    hide Inv, ContentInv, GoodSite, Enabled, Protected, OutOfTheWay, Apply, Immutable;
    if actions != [] {
      assert actions[0] in actions;
      Step(s, w, actions[0]);
      ContentStep(s, lib, all, w, actions[0]);
      assert forall a :: a in actions[1..] ==> a in actions;
      ContentOverRuns(s, lib, all, Apply(s, w, actions[0]), actions[1..]);
    }
  }

  lemma ContentStarts(s: Site, lib: Library, all: seq<Action>, w: World)
    requires Initial(w)
    ensures ContentInv(s, lib, all, w)
  {
  }

  // ---------------------------------------------------------------- survivors give back their snapshots

  /** A surviving backup's files are in the store with the content they had in the snapshot. */
  lemma SurvivorContent(s: Site, lib: Library, all: seq<Action>, w: World, id: BackupId, t: Table, f: SnapFile)
    requires GoodSite(s) && Inv(s, w) && ContentInv(s, lib, all, w) && id in w.live && Belongs(w.live[id].plan.tables, t, f)
    ensures var k := KeyFor(w.live[id].plan.run, t, f); k in w.store && w.store[k].body == Raw(f.data)
  {
    hide *;
    var c := w.live[id];
    var k := KeyFor(c.plan.run, t, f);
    InvParts(s, w);
    LiveParts(s, w);
    LiveInSite(s, w.store, id, c);
    LivePaths(s, w.store, id, c);
    ContentParts(s, lib, all, w);
    LiveRightUse(s, lib, all, w.store, id, c);
    FitsUse(s, lib, all, id, c.mode, c.manifest, c.plan);
    BelongsUse(c.plan.tables, t, f);
    FileNamed(c.plan.run, c.plan.items, c.plan.tables, t, f);
    if c.mode.Full? {
      RightUse(w.store, {}, c.plan.run, c.plan.tables);
      NothingPending(k);
    } else {
      PlanKey(s, lib, all, id, c.mode, c.manifest, c.plan, t, f);
      DataIsPool(s, id, k);
      PoolRightUse(s, lib, w.store);
      FollowsUse(lib, c.plan.run, c.plan.tables, t, f);
    }
  }

  lemma NothingPending(k: string)
    ensures !IsPending({}, k)
  {
  }

  lemma DataIsPool(s: Site, id: BackupId, k: string)
    requires DataKey(s, id, Layout.Differential, k)
    ensures id.fqdn in s.hosts && PoolKey(s, id.fqdn, k)
  {
    hide Render, PoolObject;
    var f :| DataForm(s, id, Layout.Differential, k, f);
  }

  /** The manifest names the key of every eligible file. */
  lemma FileNamed(run: Run, items: seq<ManifestObject>, tables: seq<Table>, t: Table, f: SnapFile)
    requires GoodRun(run) && IndexedFrom(run, items) && (forall t :: t in tables ==> GoodTableFiles(t)) && t in tables && f in t.files && Eligible(f)
    ensures KeyFor(run, t, f) in ManifestPaths(ManifestOf(run, tables))
  {
    hide *;
    Verify.SectionRecords(run, items, tables, t);
    var o :| o in SectionFor(run, t).objects && Verify.Records(run, tables, o, t, f);
    Verify.RecordsUse(run, tables, o, t, f);
    Verify.SectionsAre(run, tables);
    NamedIn(ManifestOf(run, tables), SectionFor(run, t), o);
  }

  lemma NamedIn(m: Manifest, sec: Section, o: ManifestObject)
    requires sec in m && o in sec.objects
    ensures o.path in ManifestPaths(m)
  {
  }

  /** The metadata of a surviving backup is stored. */
  lemma LiveMeta(s: Site, st: Store, id: BackupId, c: Complete)
    requires LiveOk(s, st, id, c)
    ensures Download.MetaStored(st, s.p, id)
  {
    LiveManifest(s, st, id, c);
    MetaRenders(s.p, id, "schema.cql");
    MetaRenders(s.p, id, "tokenmap.json");
    var head := Head(id, c.mode, c.started);
    assert |head| >= 6 && head[0] == Meta(id, "schema.cql") && head[1] == Meta(id, "tokenmap.json");
    hide Head, Render, MetaKey, LiveOk, Meta;
    assert Render(s.p, head[0]) in st && Render(s.p, head[1]) in st;
  }

  /** The files of the tables are exactly the wanted files of the snapshot, each with its content; the rest is metadata. */
  ghost predicate GivesBack(dest: string, tables: seq<Table>, fqtns: set<string>, manifest: Manifest, files: map<string, Body>) {
    && (forall k :: k in files <==> k in Download.MetaPlaces(dest) || exists i: nat, f :: Download.PlaceUpTo(dest, tables, fqtns, |tables|, i, f, k))
    && (forall i: nat, f, k :: Download.PlaceUpTo(dest, tables, fqtns, |tables|, i, f, k) ==> k in files && files[k] == Raw(f.data))
    && dest + "/manifest.json" in files && files[dest + "/manifest.json"] == Doc(manifest)
  }

  /**
   End to end: after any run of the protocol in which the snapshots of a host agree on the files they
   share, every surviving backup can be downloaded, and gives back exactly the files of its own snapshot,
   each with the content it had there, kept files included, and its metadata.
   */
  lemma SurvivorsGiveBack(s: Site, lib: Library, w: World, actions: seq<Action>, id: BackupId, dest: string, fqtns: set<string>)
    returns (tables: seq<Table>)
    requires GoodSite(s) && Initial(w) && ValidRun(s, w, actions) && ImmutableRun(s, lib, w, actions)
    requires id in After(s, w, actions).live && Download.DistinctTables(After(s, w, actions).live[id].plan.tables)
    ensures exists a :: a in actions && a.ListPool? && a.id == id && a.tables == tables
    ensures var end := After(s, w, actions);
            var r := Download.Downloaded(end.store, dest, s.p, id, end.live[id].manifest, fqtns);
            end.live[id].plan.tables == tables && r.Some? && GivesBack(dest, tables, fqtns, end.live[id].manifest, r.value.files)
  {
    var end := After(s, w, actions);
    hide *;
    InitialInv(s, w);
    ContentStarts(s, lib, actions, w);
    ContentOverRuns(s, lib, actions, w, actions);
    var c := end.live[id];
    tables := c.plan.tables;
    ContentParts(s, lib, actions, end);
    LiveRightUse(s, lib, actions, end.store, id, c);
    FitsUse(s, lib, actions, id, c.mode, c.manifest, c.plan);
    TakenUse(actions, id, tables);
    forall t, f | Belongs(tables, t, f) ensures var k := KeyFor(c.plan.run, t, f); k in end.store && end.store[k].body == Raw(f.data) {
      SurvivorContent(s, lib, actions, end, id, t, f);
    }
    InvParts(s, end);
    LiveParts(s, end);
    LiveInSite(s, end.store, id, c);
    SiteComponents(s, id);
    LiveMeta(s, end.store, id, c);
    LiveManifest(s, end.store, id, c);
    DownloadGivesBack(c.plan.run, c.plan.items, end.store, dest, tables, fqtns, s.p, id);
  }

  lemma TakenUse(all: seq<Action>, id: BackupId, tables: seq<Table>)
    requires Taken(all, id, tables)
    ensures exists a :: a in all && a.ListPool? && a.id == id && a.tables == tables
  {
  }

  lemma StoredMake(run: Run, st: Store, tables: seq<Table>, t: Table)
    requires t in tables && forall f :: Belongs(tables, t, f) ==> KeyFor(run, t, f) in st
    ensures Download.Stored(run, st, t)
  {
    hide KeyFor, Eligible;
    forall f | f in t.files && Eligible(f) ensures KeyFor(run, t, f) in st { assert Belongs(tables, t, f); }
  }

  lemma GoodTablesMake(tables: seq<Table>)
    requires Download.DistinctTables(tables) && forall t :: t in tables ==> GoodTableFiles(t)
    ensures Download.GoodTables(tables)
  {
    hide Download.DistinctTables, GoodTableFiles;
  }

  lemma TablesGiveBack(run: Run, items: seq<ManifestObject>, st: Store, dest: string, tables: seq<Table>, fqtns: set<string>)
    requires GoodRun(run) && IndexedFrom(run, items) && Download.DistinctTables(tables) && forall t :: t in tables ==> GoodTableFiles(t)
    requires forall t, f :: Belongs(tables, t, f) ==> var k := KeyFor(run, t, f); k in st && st[k].body == Raw(f.data)
    ensures |ManifestOf(run, tables)| == |tables|
    ensures var r := Download.FetchUpTo(st, dest, ManifestOf(run, tables), fqtns, |tables|);
            && r.Some?
            && (forall k :: k in r.value.files <==> exists i: nat, f :: Download.PlaceUpTo(dest, tables, fqtns, |tables|, i, f, k))
            && (forall i: nat, f, k :: Download.PlaceUpTo(dest, tables, fqtns, |tables|, i, f, k) ==>
                  k in r.value.files && r.value.files[k] == Raw(f.data) && k !in Download.MetaPlaces(dest))
  {
    hide *;
    forall t | t in tables ensures Download.Stored(run, st, t) { StoredMake(run, st, tables, t); }
    GoodTablesMake(tables);
    Download.DownloadRestores(run, items, st, dest, tables, fqtns);
    var files := Download.FetchUpTo(st, dest, ManifestOf(run, tables), fqtns, |tables|).value.files;
    forall i: nat, f, k | Download.PlaceUpTo(dest, tables, fqtns, |tables|, i, f, k)
      ensures k in files && files[k] == Raw(f.data) && k !in Download.MetaPlaces(dest)
    {
      Download.PlaceIn(dest, tables, fqtns, |tables|, i, f, k);
      BelongsMake(tables, tables[i], f);
      Download.InPlaceUse(run, st, dest, tables, fqtns, |tables|, files, i, f, k);
      PlaceIs(dest, tables, fqtns, i, f, k);
      FileGood(tables[i], f);
      Download.PlaceNotMeta(dest, tables[i], f);
    }
  }

  lemma FileGood(t: Table, f: SnapFile)
    requires GoodTableFiles(t) && f in t.files
    ensures GoodFile(f)
  {
    hide GoodFile;
  }

  lemma PlaceIs(dest: string, tables: seq<Table>, fqtns: set<string>, i: nat, f: SnapFile, k: string)
    requires Download.PlaceUpTo(dest, tables, fqtns, |tables|, i, f, k)
    ensures i < |tables| && k == Download.Placed(dest, tables[i], f)
  {
    hide Eligible, Download.Wanted, Download.Placed;
  }

  lemma DownloadGivesBack(run: Run, items: seq<ManifestObject>, st: Store, dest: string, tables: seq<Table>, fqtns: set<string>, p: string, id: BackupId)
    requires GoodRun(run) && IndexedFrom(run, items) && Download.DistinctTables(tables) && forall t :: t in tables ==> GoodTableFiles(t)
    requires forall t, f :: Belongs(tables, t, f) ==> var k := KeyFor(run, t, f); k in st && st[k].body == Raw(f.data)
    requires SimplePrefix(p) && Component(id.fqdn) && Component(id.name) && Download.MetaStored(st, p, id)
    requires MetaKey(p, id, "manifest.json") in st && st[MetaKey(p, id, "manifest.json")].body == Doc(ManifestOf(run, tables))
    ensures var r := Download.Downloaded(st, dest, p, id, ManifestOf(run, tables), fqtns);
            r.Some? && GivesBack(dest, tables, fqtns, ManifestOf(run, tables), r.value.files)
  {
    hide *;
    var m := ManifestOf(run, tables);
    TablesGiveBack(run, items, st, dest, tables, fqtns);
    Download.DownloadedExactly(st, dest, p, id, m, fqtns);
    MetaPlaceIn(dest);
    GivesBackMake(dest, tables, fqtns, m, Download.Downloaded(st, dest, p, id, m, fqtns).value.files);
  }

  lemma MetaPlaceIn(dest: string)
    ensures dest + "/manifest.json" in Download.MetaPlaces(dest)
  {
  }

  lemma GivesBackMake(dest: string, tables: seq<Table>, fqtns: set<string>, m: Manifest, files: map<string, Body>)
    requires forall k :: k in files <==> k in Download.MetaPlaces(dest) || exists i: nat, f :: Download.PlaceUpTo(dest, tables, fqtns, |tables|, i, f, k)
    requires forall i: nat, f, k :: Download.PlaceUpTo(dest, tables, fqtns, |tables|, i, f, k) ==> k in files && files[k] == Raw(f.data)
    requires dest + "/manifest.json" in files && files[dest + "/manifest.json"] == Doc(m)
    ensures GivesBack(dest, tables, fqtns, m, files)
  {
    hide Download.PlaceUpTo;
  }
}
