/**
 What the grace period does not protect: an old object that a running backup has found in the pool and
 keeps. A concrete course of events in which it is lost, action by action as the source allows them.
 */
module Witness {
  import opened Text
  import opened IndexNames
  import opened ObjectStorage
  import opened Layout
  import opened NodeListing
  import opened Purge
  import opened PurgeIsolation
  import opened TableKeys
  import opened PoolIndex
  import opened Snapshots
  import opened Manifests
  import opened Protocol
  import opened Invariant
  import opened ProtocolSafety
  import opened PurgeCalls
  import Verify
  import Content

  // ---------------------------------------------------------------- runs that only respect the grace period

  /** Like Protected, but without its second condition: only the uploads need to be young. */
  ghost predicate Young(s: Site, w: World, a: Action)
    requires a.SweepList? && Enabled(s, w, a)
  {
    forall id :: UploadingOn(w, a.fqdn, id) ==> Cutoff(w.clock, a.graceDays) < w.running[id].began
  }

  ghost predicate GraceAllows(s: Site, w: World, a: Action) {
    Enabled(s, w, a) && (a.SweepList? ==> Young(s, w, a)) && (a.ListPool? ==> OutOfTheWay(s, w, a))
  }

  ghost predicate GraceRun(s: Site, w: World, actions: seq<Action>)
    decreases |actions|
  {
    actions == [] || (GraceAllows(s, w, actions[0]) && GraceRun(s, Apply(s, w, actions[0]), actions[1..]))
  }

  ghost function GraceEnd(s: Site, w: World, actions: seq<Action>): World
    requires GraceRun(s, w, actions)
    decreases |actions|
  {
    if actions == [] then w else GraceEnd(s, Apply(s, w, actions[0]), actions[1..])
  }

  /** Without a sweep in it, a valid run respects the grace period. */
  lemma {:induction false} ValidIsGrace(s: Site, w: World, actions: seq<Action>)
    requires ValidRun(s, w, actions) && NoSweep(actions)
    ensures GraceRun(s, w, actions) && GraceEnd(s, w, actions) == After(s, w, actions)
    decreases |actions|
  {
    hide Enabled, Apply, OutOfTheWay, Protected, Young;
    if actions != [] {
      assert actions[0] in actions && forall a :: a in actions[1..] ==> a in actions;
      ValidIsGrace(s, Apply(s, w, actions[0]), actions[1..]);
    }
  }

  lemma {:induction false} GraceJoin(s: Site, w: World, a: seq<Action>, b: seq<Action>)
    requires GraceRun(s, w, a) && GraceRun(s, GraceEnd(s, w, a), b)
    ensures GraceRun(s, w, a + b) && GraceEnd(s, w, a + b) == GraceEnd(s, GraceEnd(s, w, a), b)
    decreases |a|
  {
    hide Apply, OutOfTheWay, Young;
    if a == [] {
      assert a + b == b;
    } else {
      assert (a + b)[0] == a[0] && (a + b)[1..] == a[1..] + b;
      GraceJoin(s, Apply(s, w, a[0]), a[1..], b);
    }
  }

  lemma GraceOne(s: Site, w: World, a: Action)
    requires GraceAllows(s, w, a) && Enabled(s, w, a)
    ensures GraceRun(s, w, [a]) && GraceEnd(s, w, [a]) == Apply(s, w, a)
  {
    hide Enabled, Apply, GraceAllows;
    var rest := [a][1..];
    assert rest == [] && GraceRun(s, Apply(s, w, a), rest) && GraceEnd(s, Apply(s, w, a), rest) == Apply(s, w, a);
  }

  lemma GraceThree(s: Site, w: World, a: Action, b: Action, c: Action)
    requires GraceAllows(s, w, a) && Enabled(s, w, a)
    requires var w1 := Apply(s, w, a);
             && GraceAllows(s, w1, b) && Enabled(s, w1, b)
             && var w2 := Apply(s, w1, b); GraceAllows(s, w2, c) && Enabled(s, w2, c)
    ensures GraceRun(s, w, [a, b, c]) && GraceEnd(s, w, [a, b, c]) == Apply(s, Apply(s, Apply(s, w, a), b), c)
  {
    hide *;
    var w1 := Apply(s, w, a);
    var w2 := Apply(s, w1, b);
    GraceOne(s, w, a);
    GraceOne(s, w1, b);
    GraceOne(s, w2, c);
    GraceJoin(s, w1, [b], [c]);
    GraceJoin(s, w, [a], [b] + [c]);
    assert [a] + ([b] + [c]) == [a, b, c];
  }

  // ---------------------------------------------------------------- one backup up to its listing

  /** Only keys of one backup were written. */
  ghost predicate OnlyOwn(s: Site, me: BackupId, st: Store, st': Store) {
    forall g :: ValidForm(s, g) && !BelongsTo(g, me) ==>
      (Stored(s, st', g) <==> Stored(s, st, g)) && (Stored(s, st, g) ==> st'[Render(s.p, g)] == st[Render(s.p, g)])
  }

  lemma OwnWrite(s: Site, me: BackupId, st: Store, f: KeyForm, b: Blob)
    requires GoodSite(s) && InSite(s, me) && ValidForm(s, f) && BelongsTo(f, me)
    ensures OnlyOwn(s, me, st, st[Render(s.p, f) := b])
  {
    hide Render, GoodSite, InSite, ValidForm;
    forall g | ValidForm(s, g) && !BelongsTo(g, me) ensures Render(s.p, g) != Render(s.p, f) { ForeignKeysDiffer(s, g, f, me); }
  }

  lemma OwnTwice(s: Site, me: BackupId, a: Store, b: Store, c: Store)
    requires OnlyOwn(s, me, a, b) && OnlyOwn(s, me, b, c)
    ensures OnlyOwn(s, me, a, c)
  {
    hide Render, ValidForm, BelongsTo;
  }

  lemma OwnNothing(s: Site, me: BackupId, st: Store)
    ensures OnlyOwn(s, me, st, st)
  {
    hide Render, ValidForm, BelongsTo;
  }

  ghost predicate HeadWritten(s: Site, w: World, id: BackupId, mode: Mode, w': World) {
    && id in w'.running && w'.running[id].Starting?
    && w' == w.(store := w'.store, running := w.running[id := w'.running[id]])
    && w'.running[id].mode == mode && w'.running[id].done == |Head(id, mode, w'.running[id].started)|
    && OnlyOwn(s, id, w.store, w'.store)
  }

  lemma HeadOne(s: Site, w: World, id: BackupId)
    requires id in w.running && w.running[id].Starting? && id !in w.disturbed
    requires w.running[id].done < |Head(id, w.running[id].mode, StartedAt(w, w.running[id]))|
    ensures Allowed(s, w, WriteHead(id, 1, ""))
    ensures var proc := w.running[id];
            var started := StartedAt(w, proc);
            Apply(s, w, WriteHead(id, 1, "")) == w.(store := w.store[Render(s.p, Head(id, proc.mode, started)[proc.done]) := Blob(1, w.clock, "", Raw(""))],
                                                    running := w.running[id := Starting(proc.mode, proc.done + 1, started)])
  {
    hide Head, Render;
  }

  lemma HeadLength(id: BackupId, mode: Mode, a: nat, b: nat)
    ensures |Head(id, mode, a)| == |Head(id, mode, b)|
  {
  }

  /** The writes of start_backup, all of them. */
  lemma {:induction false} HeadAll(s: Site, w: World, id: BackupId) returns (run: seq<Action>)
    requires GoodSite(s) && InSite(s, id) && id in w.running && w.running[id].Starting? && id !in w.disturbed
    requires w.running[id].done <= |Head(id, w.running[id].mode, StartedAt(w, w.running[id]))|
    ensures ValidRun(s, w, run) && NoSweep(run) && HeadWritten(s, w, id, w.running[id].mode, After(s, w, run))
    decreases |Head(id, w.running[id].mode, StartedAt(w, w.running[id]))| - w.running[id].done
  {
    hide Head, Render, Apply, Allowed, ValidRun, After, GoodSite, InSite, OnlyOwn, Enabled, NoSweep;
    var proc := w.running[id];
    var started := StartedAt(w, proc);
    HeadLength(id, proc.mode, started, proc.started);
    if proc.done == |Head(id, proc.mode, started)| {
      NoStep(s, w);
      OwnNothing(s, id, w.store);
      NoSweepOne(Stop(id));
      run := [];
      assert w.running[id := proc] == w.running;
    } else {
      var a := WriteHead(id, 1, "");
      HeadOne(s, w, id);
      OneStep(s, w, a);
      var w1 := Apply(s, w, a);
      var f := Head(id, proc.mode, started)[proc.done];
      HeadForms(id, proc.mode, started, proc.done);
      Content.HeadFormIn(s, id, proc.mode, started, proc.done);
      OwnWrite(s, id, w.store, f, Blob(1, w.clock, "", Raw("")));
      var rest := HeadAll(s, w1, id);
      RunsJoin(s, w, [a], rest);
      NoSweepOne(a);
      SweepFree([a], rest);
      run := [a] + rest;
      OwnTwice(s, id, w.store, w1.store, After(s, w1, rest).store);
      var w2 := After(s, w1, rest);
      assert w1.running[id := w2.running[id]] == w.running[id := w2.running[id]];
    }
  }

  /** A snapshot of one table with one file. */
  ghost predicate OneFile(t: Table, f: SnapFile) { GoodTableFiles(t) && t.files == [f] && Eligible(f) && f.size > 0 }

  const ROOT: seq<string> := ["r"]
  const TAG: string := "t"

  lemma TagGood()
    ensures |ROOT| >= 1 && GoodTag(TAG)
  {
    assert TAG[0] == 't' && |TAG| == 1;
  }

  function Listing(id: BackupId, order: seq<string>, t: Table): Action { ListPool(id, order, ROOT, TAG, [t], false) }

  function PoolName(s: Site, h: string, t: Table, f: SnapFile): string { PoolPath(s.p, h) + "/" + Relative(t.keyspace, t.folder, f.sub, f.name) }

  /** The backup has been listed; what it will upload and what it keeps are settled. */
  ghost predicate ListedOnly(s: Site, w: World, id: BackupId, order: seq<string>, t: Table, w': World) {
    && id in w.running && w.running[id].Starting? && w.running[id].mode.Differential?
    && w' == w.(running := w.running[id := UploadingFrom(s, w, Listing(id, order, t))])
  }

  /** begin, the head, and the listing of the pool */
  lemma UpToListing(s: Site, w: World, id: BackupId, order: seq<string>, t: Table, f: SnapFile) returns (run: seq<Action>, w1: World)
    requires GoodSite(s) && Inv(s, w) && InSite(s, id) && OneFile(t, f) && id !in w.running && id !in w.disturbed && w.sweeps == map[]
    requires forall g :: ValidForm(s, g) && BelongsTo(g, id) ==> !Stored(s, w.store, g)
    requires Enumerates(order, ListBlobs(w.store, PoolPath(s.p, id.fqdn) + "/"))
    ensures ValidRun(s, w, run) && NoSweep(run) && ListedOnly(s, w1, id, order, t, After(s, w, run))
    ensures Inv(s, w1) && Enabled(s, w1, Listing(id, order, t)) && OnlyOwn(s, id, w.store, w1.store)
    ensures w1 == w.(store := w1.store, running := w1.running, purges := w1.purges)
    ensures w.purges == map[] ==> w1.purges == map[]
    ensures forall o :: o != id ==> (o in w1.running <==> o in w.running) && (o in w1.running ==> w1.running[o] == w.running[o])
  {
    hide *;
    var begin := Begin(id, Layout.Differential);
    ListingIs(id, order, t);
    IdHost(s, id);
    BeginAllowed(s, w, id);
    OneStep(s, w, begin);
    var w0 := Apply(s, w, begin);
    BeginApplies(s, w, begin);
    AlarmedNothing(w.purges, id);
    var headRun := HeadAll(s, w0, id);
    RunsJoin(s, w, [begin], headRun);
    w1 := After(s, w0, headRun);
    InvOverRuns(s, w, [begin] + headRun);
    WrittenUse(s, w0, id, Layout.Differential, w1);
    SamePoolListing(s, w, w1, id, id.fqdn);
    ListingAllowed(s, w1, id, order, t, f);
    OneStep(s, w1, Listing(id, order, t));
    ListApplies(s, w1, Listing(id, order, t));
    RunsJoin(s, w, [begin] + headRun, [Listing(id, order, t)]);
    run := [begin] + headRun + [Listing(id, order, t)];
    NoSweepOne(begin);
    NoSweepOne(Listing(id, order, t));
    SweepFree([begin], headRun);
    SweepFree([begin] + headRun, [Listing(id, order, t)]);
    ListedMake(s, w1, id, order, t, After(s, w, run));
  }

  lemma ListingIs(id: BackupId, order: seq<string>, t: Table)
    ensures Listing(id, order, t) == ListPool(id, order, ROOT, TAG, [t], false)
  {
  }

  lemma ListedMake(s: Site, w: World, id: BackupId, order: seq<string>, t: Table, w': World)
    requires id in w.running && w.running[id].Starting? && w.running[id].mode.Differential?
    requires w' == w.(running := w.running[id := UploadingFrom(s, w, Listing(id, order, t))])
    ensures ListedOnly(s, w, id, order, t, w')
  {
    hide UploadingFrom;
  }

  lemma BeginAllowed(s: Site, w: World, id: BackupId)
    requires InSite(s, id) && id !in w.running
    requires forall g :: ValidForm(s, g) && BelongsTo(g, id) ==> !Stored(s, w.store, g)
    ensures Allowed(s, w, Begin(id, Layout.Differential))
    ensures var w' := Apply(s, w, Begin(id, Layout.Differential));
            && id in w'.running && w'.running[id] == Starting(Layout.Differential, 0, 0)
            && w'.running[id].done <= |Head(id, Layout.Differential, StartedAt(w', w'.running[id]))|
  {
    OwnIsValid(s, id, "schema.cql");
    MetaBelongs(id, "schema.cql");
    hide Render, Head, Alarmed;
  }

  lemma AlarmedNothing(purges: map<nat, PurgeJob>, id: BackupId)
    ensures purges == map[] ==> Alarmed(purges, id) == map[]
  {
  }

  lemma WrittenUse(s: Site, w: World, id: BackupId, mode: Mode, w': World)
    requires HeadWritten(s, w, id, mode, w')
    ensures id in w'.running && w'.running[id].Starting? && w'.running[id].mode == mode
    ensures w' == w.(store := w'.store, running := w.running[id := w'.running[id]])
    ensures w'.running[id].done == |Head(id, mode, w'.running[id].started)| && OnlyOwn(s, id, w.store, w'.store)
  {
    hide OnlyOwn, Head;
  }

  /** Writing a backup's own keys leaves every pool listing as it was. */
  lemma SamePoolListing(s: Site, w: World, w': World, me: BackupId, h: string)
    requires GoodSite(s) && Inv(s, w) && Inv(s, w') && OnlyOwn(s, me, w.store, w'.store) && h in s.hosts
    ensures ListBlobs(w'.store, PoolPath(s.p, h) + "/") == ListBlobs(w.store, PoolPath(s.p, h) + "/")
  {
    InvParts(s, w);
    InvParts(s, w');
    hide Inv, GoodSite, Render, AllKnown, Sized, AllSettled, LivesOk, RunsOk, PurgesOk, SweepsOk, PoolPath, ValidForm;
    forall k ensures k in ListBlobs(w'.store, PoolPath(s.p, h) + "/") <==> k in ListBlobs(w.store, PoolPath(s.p, h) + "/") {
      if k in ListBlobs(w'.store, PoolPath(s.p, h) + "/") {
        var f := KnownForm(s, w'.store, k);
        PoolPathReaches(s, h, f);
      }
      if k in ListBlobs(w.store, PoolPath(s.p, h) + "/") {
        var f := KnownForm(s, w.store, k);
        PoolPathReaches(s, h, f);
      }
    }
  }

  lemma ListingAllowed(s: Site, w: World, id: BackupId, order: seq<string>, t: Table, f: SnapFile)
    requires id in w.running && w.running[id].Starting? && w.running[id].done == |Head(id, w.running[id].mode, w.running[id].started)|
    requires OneFile(t, f) && w.sweeps == map[] && Enumerates(order, ListBlobs(w.store, PoolPath(s.p, id.fqdn) + "/"))
    ensures Enabled(s, w, Listing(id, order, t)) && Allowed(s, w, Listing(id, order, t))
  {
    TagGood();
    hide Head, Enumerates, ListBlobs, GoodTableFiles, GoodTag, RunFor, ManifestOf, ManifestPaths, PoolPath;
  }

  // ---------------------------------------------------------------- what the two listings decide

  lemma KeyIsPoolName(s: Site, w: World, a: Action, t: Table, f: SnapFile)
    requires GoodSite(s) && Inv(s, w) && a.ListPool? && Enabled(s, w, a) && OneFile(t, f)
    ensures GoodRun(RunFor(s, w, a, Layout.Differential)) && IndexedFrom(RunFor(s, w, a, Layout.Differential), ItemsFor(w, a, Layout.Differential))
    ensures KeyFor(RunFor(s, w, a, Layout.Differential), t, f) == PoolName(s, a.id.fqdn, t, f)
    ensures GoodTableFiles(t) && GoodFile(f) && DataKey(s, a.id, Layout.Differential, PoolName(s, a.id.fqdn, t, f)) && InSite(s, a.id)
  {
    InvParts(s, w);
    ListApplies(s, w, a);
    RunInSite(s, w, a.id);
    RunIsGood(s, w, a, Layout.Differential);
    var run := RunFor(s, w, a, Layout.Differential);
    assert run.p == s.p && run.id == a.id && run.mode == Layout.Differential;
    assert f in t.files;
    hide RunFor, Inv, GoodSite, Enabled, ItemsFor, IndexedFrom, GoodRun;
    KeyForShape(run, t, f);
    Content.FileIsData(s, run, t, f);
    hide KeyFor, Relative;
  }

  lemma OneTable(t: Table)
    ensures forall u :: u in [t] <==> u == t
  {
  }

  /** With an empty pool the file is uploaded. */
  lemma FirstListing(s: Site, w: World, id: BackupId, t: Table, f: SnapFile)
    requires GoodSite(s) && Inv(s, w) && Enabled(s, w, Listing(id, [], t)) && OneFile(t, f)
    requires id in w.running && w.running[id].Starting? && w.running[id].mode.Differential?
    ensures var proc := UploadingFrom(s, w, Listing(id, [], t));
            && proc.Uploading? && proc.mode.Differential?
            && proc.pending == {Upload(PoolName(s, id.fqdn, t, f), f.size, f.md5, f.data)}
  {
    hide *;
    var a := Listing(id, [], t);
    ListingIs(id, [], t);
    KeyIsPoolName(s, w, a, t, f);
    var run := RunFor(s, w, a, Layout.Differential);
    FromRun(s, w, a);
    FileUse(t, f);
    JudgedPresent(run, [], t, f);
    Verify.EligibleVerdict(run, t, f);
    OneTable(t);
    UploadsMember(run, [t]);
    var u := UploadFor(run, t, f);
    UploadFields(run, t, f);
    forall v ensures v in PendingOf(run, [t]) <==> v == u {
      PendingUse(run, [t], v);
      if v in PendingOf(run, [t]) {
        var x, g := UploadWho(run, [t], v);
      }
    }
  }

  /** The process a listing gives, in differential mode. */
  lemma FromRun(s: Site, w: World, a: Action)
    requires a.ListPool? && a.id in w.running && w.running[a.id].Starting? && w.running[a.id].mode.Differential?
    ensures var run := RunFor(s, w, a, Layout.Differential);
            var proc := UploadingFrom(s, w, a);
            && run.mode.Differential? && proc.Uploading? && proc.mode.Differential? && proc.began == w.clock
            && proc.pending == PendingOf(run, a.tables) && proc.manifest == ManifestOf(run, a.tables)
            && ItemsFor(w, a, Layout.Differential) == Items(w.store, a.order)
    ensures a.order == [] ==> ItemsFor(w, a, Layout.Differential) == []
  {
    hide PendingOf, ManifestOf, KeptOf;
  }

  lemma PendingUse(run: Run, tables: seq<Table>, v: Upload)
    ensures v in PendingOf(run, tables) <==> v in UploadsOf(run, tables)
  {
    hide UploadsOf;
  }

  lemma UploadWho(run: Run, tables: seq<Table>, v: Upload) returns (t: Table, f: SnapFile)
    requires UploadedBy(run, tables, v)
    ensures t in tables && f in t.files && v == UploadFor(run, t, f)
  {
    hide GoodTableFiles, ToUpload, UploadFor;
    t, f :| t in tables && UploadOf(run, t, f, v);
  }

  lemma UploadFields(run: Run, t: Table, f: SnapFile)
    ensures UploadFor(run, t, f) == Upload(KeyFor(run, t, f), f.size, f.md5, f.data)
  {
    hide KeyFor;
  }

  lemma FileUse(t: Table, f: SnapFile)
    requires OneFile(t, f)
    ensures GoodTableFiles(t) && t.files == [f] && f in t.files && Eligible(f) && f.size > 0 && GoodFile(f)
    ensures Component(t.keyspace) && GoodTable(t.folder)
  {
    hide Eligible, GoodFile, GoodTable;
  }

  /** A lookup in a pool of one object finds it. */
  lemma FoundAlone(run: Run, t: Table, f: SnapFile, o: ManifestObject)
    requires GoodRun(run) && run.mode.Differential? && IndexedFrom(run, [o]) && GoodTableFiles(t) && f in t.files && Eligible(f)
    requires o == ManifestObject(KeyFor(run, t, f), f.size, f.md5)
    ensures Judge(run, t, f) == Present(o)
  {
    assert GoodFile(f);
    KeyForShape(run, t, f);
    DataPartsGood(run);
    DataPathJoined(run.p, run.id, run.mode);
    var parts := DataParts(run.p, run.id, run.mode);
    LocalAndStoredKeysAgree(parts, run.root, t.keyspace, t.folder, run.tag, f);
    StoredKeyReads(parts, t.keyspace, t.folder, f.sub, f.name);
    var table := TableKey(t.folder, f.sub);
    hide SanitizeLocal, LocalPath, ParsePath, SanitizeStored, NameUp, KeyFor, StoredKey, IndexOf, Find, TableKey, GoodFile, GoodTable;
    assert PoolIndex.Matches(o, t.keyspace, table, f.name);
    assert Contiguous([o]);
    assert [o][0] == o;
    IndexComplete([o], t.keyspace, table, f.name);
    IndexSound([o], t.keyspace, table, f.name);
  }

  /** With the file in the pool it is kept, and the manifest names it. */
  lemma SecondListing(s: Site, w: World, id: BackupId, t: Table, f: SnapFile)
    requires GoodSite(s) && Inv(s, w) && OneFile(t, f) && Enabled(s, w, Listing(id, [PoolName(s, id.fqdn, t, f)], t))
    requires id in w.running && w.running[id].Starting? && w.running[id].mode.Differential?
    requires var k := PoolName(s, id.fqdn, t, f); k in w.store && w.store[k].size == f.size && w.store[k].md5 == f.md5
    ensures var k := PoolName(s, id.fqdn, t, f);
            var proc := UploadingFrom(s, w, Listing(id, [k], t));
            && proc.Uploading? && proc.mode.Differential? && proc.began == w.clock
            && proc.pending == {} && k in ManifestPaths(proc.manifest)
  {
    hide *;
    var k := PoolName(s, id.fqdn, t, f);
    var a := Listing(id, [k], t);
    ListingIs(id, [k], t);
    KeyIsPoolName(s, w, a, t, f);
    var run := RunFor(s, w, a, Layout.Differential);
    var o := ManifestObject(k, f.size, f.md5);
    FromRun(s, w, a);
    OneItem(w.store, k);
    FileUse(t, f);
    FoundAlone(run, t, f, o);
    OneTable(t);
    UploadsMember(run, [t]);
    forall v ensures v !in PendingOf(run, [t]) {
      PendingUse(run, [t], v);
      if v in UploadsOf(run, [t]) { NotToUpload(run, t, f, v, o); }
    }
    Content.FileNamed(run, [o], [t], t, f);
  }

  lemma OneItem(st: Store, k: string)
    requires k in st
    ensures Items(st, [k]) == [ManifestObject(k, st[k].size, st[k].md5)]
  {
  }

  lemma NotToUpload(run: Run, t: Table, f: SnapFile, v: Upload, o: ManifestObject)
    requires t.files == [f] && Judge(run, t, f) == Present(o)
    ensures !UploadedBy(run, [t], v)
  {
    hide Judge, GoodTableFiles, UploadFor;
  }

  // ---------------------------------------------------------------- the first backup, and its purge

  lemma InitialFacts(s: Site, w: World)
    requires Initial(w)
    ensures Inv(s, w) && w.sweeps == map[] && w.purges == map[] && w.running == map[] && w.live == map[] && w.disturbed == {} && w.stale == {}
    ensures w.store == map[] && forall f :: !Stored(s, w.store, f)
    ensures forall prefix :: Enumerates([], ListBlobs(w.store, prefix))
  {
    InitialInv(s, w);
    hide Inv, Render;
  }

  lemma SendOne(s: Site, w: World, id: BackupId, u: Upload)
    requires id in w.running && w.running[id].Uploading? && w.running[id].pending == {u}
    ensures Allowed(s, w, Send(id, u))
    ensures Apply(s, w, Send(id, u)) == w.(store := w.store[u.key := BlobOf(u, w.clock)], running := w.running[id := w.running[id].(pending := {})])
  {
    hide BlobOf;
    assert {u} - {u} == {};
  }

  lemma PublishOne(s: Site, w: World, id: BackupId)
    requires id in w.running && w.running[id].Uploading? && w.running[id].pending == {} && id !in w.disturbed
    ensures Allowed(s, w, Publish(id, 1)) && Enabled(s, w, Publish(id, 1))
    ensures var proc := w.running[id];
            Apply(s, w, Publish(id, 1))
            == w.(store := w.store[Render(s.p, Meta(id, "manifest.json")) := Blob(1, w.clock, "", Doc(proc.manifest))],
                  running := w.running[id := Finishing(proc.mode, proc.manifest, 0, w.clock)], live := w.live[id := CompleteFrom(proc)],
                  stale := w.stale - {id})
  {
    hide Render, Meta;
  }

  lemma StopOne(s: Site, w: World, id: BackupId)
    requires id in w.running
    ensures Allowed(s, w, Stop(id)) && Apply(s, w, Stop(id)) == w.(running := w.running - {id})
  {
  }

  lemma TickOne(s: Site, w: World, seconds: nat)
    ensures Allowed(s, w, Tick(seconds)) && Apply(s, w, Tick(seconds)) == w.(clock := w.clock + seconds)
  {
  }

  lemma AppendFree(run: seq<Action>, a: Action)
    requires NoSweep(run) && !a.SweepList?
    ensures NoSweep(run + [a])
  {
    NoSweepOne(a);
    SweepFree(run, [a]);
  }

  lemma Appended(s: Site, w: World, run: seq<Action>, a: Action)
    requires ValidRun(s, w, run) && NoSweep(run) && Allowed(s, After(s, w, run), a) && !a.SweepList?
    ensures Enabled(s, After(s, w, run), a)
    ensures ValidRun(s, w, run + [a]) && NoSweep(run + [a]) && After(s, w, run + [a]) == Apply(s, After(s, w, run), a)
  {
    hide Allowed, Apply, ValidRun, After, Enabled, NoSweep;
    AppendFree(run, a);
    AllowedEnabled(s, After(s, w, run), a);
    OneStep(s, After(s, w, run), a);
    RunsJoin(s, w, run, [a]);
  }

  /** What the store is known to hold after the first backup: one pool object, and nothing of any other backup. */
  ghost predicate OnePoolObject(s: Site, st: Store, id: BackupId, k: string, b: Blob) {
    && ListBlobs(st, PoolPath(s.p, id.fqdn) + "/") == {k} && k in st && st[k] == b
    && forall o, g :: o != id && ValidForm(s, g) && BelongsTo(g, o) && InSite(s, o) ==> !Stored(s, st, g)
  }

  lemma PoolFacts(s: Site, st: Store, st': Store, id: BackupId, k: string, b: Blob, mid: Store, f: KeyForm, m: Blob)
    requires GoodSite(s) && InSite(s, id) && (forall f :: !Stored(s, st, f)) && PoolKey(s, id.fqdn, k)
    requires OnlyOwn(s, id, st, mid) && ValidForm(s, f) && BelongsTo(f, id) && st' == mid[k := b][Render(s.p, f) := m]
    requires AllKnown(s, st')
    ensures OnePoolObject(s, st', id, k, b)
  {
    assert forall g :: ValidForm(s, g) && !BelongsTo(g, id) ==> !Stored(s, mid, g);
    hide Render, GoodSite, AllKnown, PoolPath, ValidForm, InSite;
    var p :| ValidForm(s, p) && p.Pool? && p.fqdn == id.fqdn && k == Render(s.p, p);
    ForeignKeysDiffer(s, p, f, id);
    IdHost(s, id);
    PoolPathReaches(s, id.fqdn, p);
    forall x ensures x in ListBlobs(st', PoolPath(s.p, id.fqdn) + "/") <==> x == k {
      if x in ListBlobs(st', PoolPath(s.p, id.fqdn) + "/") && x != k {
        var g := KnownForm(s, st', x);
        PoolPathReaches(s, id.fqdn, g);
        ForeignKeysDiffer(s, g, f, id);
      }
    }
    forall o, g | o != id && ValidForm(s, g) && BelongsTo(g, o) && InSite(s, o) ensures !Stored(s, st', g) {
      ForeignKeysDiffer(s, g, f, id);
      ForeignKeysDiffer(s, p, g, o);
    }
  }

  lemma IdHost(s: Site, id: BackupId)
    requires InSite(s, id)
    ensures id.fqdn in s.hosts && id.name in s.names
  {
  }

  /** The state after the first backup was taken and its process is over. */
  ghost predicate FirstTaken(s: Site, w: World, id: BackupId, k: string, f: SnapFile, clock: nat) {
    && Inv(s, w) && w.clock == clock && w.running == map[] && w.purges == map[] && w.sweeps == map[] && w.disturbed == {} && w.stale == {}
    && w.live.Keys == {id}
    && OnePoolObject(s, w.store, id, k, Blob(f.size, clock, f.md5, Raw(f.data)))
  }

  lemma FirstBackup(s: Site, w: World, id: BackupId, t: Table, f: SnapFile) returns (run: seq<Action>)
    requires GoodSite(s) && Initial(w) && InSite(s, id) && OneFile(t, f)
    ensures ValidRun(s, w, run) && NoSweep(run) && FirstTaken(s, After(s, w, run), id, PoolName(s, id.fqdn, t, f), f, w.clock)
  {
    var k := PoolName(s, id.fqdn, t, f);
    hide *;
    InitialFacts(s, w);
    var w1;
    run, w1 := UpToListing(s, w, id, [], t, f);
    ListedUse(s, w1, id, [], t, After(s, w, run));
    FirstListing(s, w1, id, t, f);
    ListingIs(id, [], t);
    KeyIsPoolName(s, w1, Listing(id, [], t), t, f);
    Content.DataIsPool(s, id, k);
    var w2 := After(s, w, run);
    var u := Upload(k, f.size, f.md5, f.data);
    SendOne(s, w2, id, u);
    Appended(s, w, run, Send(id, u));
    run := run + [Send(id, u)];
    var w3 := After(s, w, run);
    PublishOne(s, w3, id);
    Appended(s, w, run, Publish(id, 1));
    run := run + [Publish(id, 1)];
    var w4 := After(s, w, run);
    StopOne(s, w4, id);
    Appended(s, w, run, Stop(id));
    run := run + [Stop(id)];
    var w5 := After(s, w, run);
    InvOverRuns(s, w, run);
    InvParts(s, w5);
    OwnIsValid(s, id, "manifest.json");
    MetaBelongs(id, "manifest.json");
    BelongsMeta(Meta(id, "manifest.json"), id);
    BlobFields(u, w.clock);
    assert w5.store == w1.store[k := BlobOf(u, w.clock)][Render(s.p, Meta(id, "manifest.json")) := Blob(1, w.clock, "", Doc(w3.running[id].manifest))];
    PoolFacts(s, w.store, w5.store, id, k, BlobOf(u, w.clock), w1.store, Meta(id, "manifest.json"), Blob(1, w.clock, "", Doc(w3.running[id].manifest)));
    assert w5.running == map[];
    assert w5.live.Keys == {id};
    TakenMake(s, w5, id, k, f, w.clock);
  }

  lemma BelongsMeta(f: KeyForm, id: BackupId)
    requires f.Own? && f.id == id
    ensures BelongsTo(f, id)
  {
  }

  lemma BlobFields(u: Upload, now: nat)
    ensures BlobOf(u, now) == Blob(u.size, now, u.md5, Raw(u.data))
  {
  }

  lemma TakenMake(s: Site, w: World, id: BackupId, k: string, f: SnapFile, clock: nat)
    requires Inv(s, w) && w.clock == clock && w.running == map[] && w.purges == map[] && w.sweeps == map[] && w.disturbed == {} && w.stale == {}
    requires w.live.Keys == {id} && OnePoolObject(s, w.store, id, k, Blob(f.size, clock, f.md5, Raw(f.data)))
    ensures FirstTaken(s, w, id, k, f, clock)
  {
    hide Inv, OnePoolObject;
  }

  lemma ListedUse(s: Site, w: World, id: BackupId, order: seq<string>, t: Table, w': World)
    requires ListedOnly(s, w, id, order, t, w')
    ensures id in w.running && w.running[id].Starting? && w.running[id].mode.Differential?
    ensures w' == w.(running := w.running[id := UploadingFrom(s, w, Listing(id, order, t))])
  {
    hide UploadingFrom;
  }

  // ---------------------------------------------------------------- the second backup, the purge, the sweep

  /** The second backup keeps the object, the first has been purged, and the grace period for the object is over. */
  ghost predicate KeptAlone(s: Site, w: World, a: BackupId, b: BackupId, k: string, size: nat, mtime: nat, days: nat) {
    && Inv(s, w) && w.live == map[] && w.sweeps == map[] && w.disturbed <= {a} && w.stale == {} && b != a
    && w.running.Keys == {b} && w.running[b].Uploading? && w.running[b].mode.Differential? && w.running[b].pending == {}
    && k in ManifestPaths(w.running[b].manifest) && w.running[b].began == w.clock
    && k in w.store && w.store[k].size == size && w.store[k].mtime == mtime && Cutoff(w.clock, days) == mtime
    && (forall f :: ValidForm(s, f) && BelongsTo(f, a) ==> !StoredNonEmpty(s, w.store, f))
  }

  lemma PurgedAll(s: Site, st: Store, a: BackupId)
    requires GoodSite(s) && InSite(s, a)
    ensures forall f :: ValidForm(s, f) && BelongsTo(f, a) ==> !StoredNonEmpty(s, PurgeOne(st, s.p, a), f)
  {
    PurgeShrinks(st, s.p, a);
    hide Render, GoodSite, PurgeOne, InSite, ValidForm, BelongsTo;
    forall f | ValidForm(s, f) && BelongsTo(f, a) ensures !StoredNonEmpty(s, PurgeOne(st, s.p, a), f) {
      if Stored(s, st, f) { PurgeExact(s, st, a, f); }
    }
  }

  lemma PurgeKeepsPool(s: Site, st: Store, a: BackupId, h: string, k: string)
    requires GoodSite(s) && InSite(s, a) && PoolKey(s, h, k) && k in st
    ensures k in PurgeOne(st, s.p, a) && PurgeOne(st, s.p, a)[k] == st[k]
  {
    hide Render, GoodSite, PurgeOne, InSite, ValidForm;
    var f :| ValidForm(s, f) && f.Pool? && f.fqdn == h && k == Render(s.p, f);
    PurgeExact(s, st, a, f);
  }

  /** The second backup keeps the object; the first is still there. */
  ghost predicate KeptByBoth(s: Site, w: World, a: BackupId, b: BackupId, k: string, blob: Blob, days: nat) {
    && Inv(s, w) && w.live.Keys == {a} && w.sweeps == map[] && w.purges == map[] && w.disturbed == {} && w.stale == {}
    && w.running.Keys == {b} && w.running[b].Uploading? && w.running[b].mode.Differential? && w.running[b].pending == {}
    && k in ManifestPaths(w.running[b].manifest) && w.running[b].began == w.clock
    && k in w.store && w.store[k] == blob && Cutoff(w.clock, days) == blob.mtime && PoolKey(s, b.fqdn, k)
  }

  lemma BothKeep(s: Site, w: World, a: BackupId, b: BackupId, t: Table, f: SnapFile, days: nat) returns (run: seq<Action>)
    requires GoodSite(s) && Initial(w) && InSite(s, a) && InSite(s, b) && a != b && a.fqdn == b.fqdn && OneFile(t, f) && days > 0
    ensures ValidRun(s, w, run) && NoSweep(run)
    ensures KeptByBoth(s, After(s, w, run), a, b, PoolName(s, b.fqdn, t, f), Blob(f.size, w.clock, f.md5, Raw(f.data)), days)
  {
    var k, c, blob := PoolName(s, b.fqdn, t, f), w.clock, Blob(f.size, w.clock, f.md5, Raw(f.data));
    assert Cutoff(c + days * SECONDS_PER_DAY, days) == c;
    hide *;
    run := FirstBackup(s, w, a, t, f);
    var w1 := After(s, w, run);
    TakenUse(s, w1, a, k, f, c);
    TickOne(s, w1, days * SECONDS_PER_DAY);
    Appended(s, w, run, Tick(days * SECONDS_PER_DAY));
    run := run + [Tick(days * SECONDS_PER_DAY)];
    var w2 := After(s, w, run);
    InitialInv(s, w);
    InvOverRuns(s, w, run);
    AloneListed(s, w2.store, a, b, k, blob);
    var second, w3 := UpToListing(s, w2, b, [k], t, f);
    RunsJoin(s, w, run, second);
    SweepFree(run, second);
    run := run + second;
    var w4 := After(s, w, run);
    InvOverRuns(s, w, run);
    SecondKeeps(s, w2, w3, w4, a, b, t, f, blob);
    BothMake(s, w4, a, b, k, blob, days);
  }

  lemma SecondKeeps(s: Site, w2: World, w3: World, w4: World, a: BackupId, b: BackupId, t: Table, f: SnapFile, blob: Blob)
    requires GoodSite(s) && Inv(s, w3) && InSite(s, b) && OneFile(t, f) && blob.size == f.size && blob.md5 == f.md5
    requires var k := PoolName(s, b.fqdn, t, f);
             && ListedOnly(s, w3, b, [k], t, w4) && Enabled(s, w3, Listing(b, [k], t)) && OnlyOwn(s, b, w2.store, w3.store)
             && k in w2.store && w2.store[k] == blob
    requires w2.running == map[] && forall o :: o != b ==> (o in w3.running <==> o in w2.running)
    ensures var k := PoolName(s, b.fqdn, t, f);
            && w4 == w3.(running := w4.running) && w4.running.Keys == {b} && w4.running[b].Uploading? && w4.running[b].mode.Differential?
            && w4.running[b].pending == {} && k in ManifestPaths(w4.running[b].manifest) && w4.running[b].began == w3.clock
            && k in w4.store && w4.store[k] == blob && PoolKey(s, b.fqdn, k)
  {
    hide *;
    var k := PoolName(s, b.fqdn, t, f);
    ListedUse(s, w3, b, [k], t, w4);
    ListingIs(b, [k], t);
    KeyIsPoolName(s, w3, Listing(b, [k], t), t, f);
    Content.DataIsPool(s, b, k);
    PoolUnchanged(s, b, w2.store, w3.store, k);
    SecondListing(s, w3, b, t, f);
    assert w4.running.Keys == {b};
  }

  lemma BothMake(s: Site, w: World, a: BackupId, b: BackupId, k: string, blob: Blob, days: nat)
    requires Inv(s, w) && w.live.Keys == {a} && w.sweeps == map[] && w.purges == map[] && w.disturbed == {} && w.stale == {}
    requires w.running.Keys == {b} && w.running[b].Uploading? && w.running[b].mode.Differential? && w.running[b].pending == {}
    requires k in ManifestPaths(w.running[b].manifest) && w.running[b].began == w.clock
    requires k in w.store && w.store[k] == blob && Cutoff(w.clock, days) == blob.mtime && PoolKey(s, b.fqdn, k)
    ensures KeptByBoth(s, w, a, b, k, blob, days)
  {
    hide Inv, ManifestPaths, Cutoff, PoolKey;
  }

  lemma BothUse(s: Site, w: World, a: BackupId, b: BackupId, k: string, blob: Blob, days: nat)
    requires KeptByBoth(s, w, a, b, k, blob, days)
    ensures Inv(s, w) && w.live.Keys == {a} && w.sweeps == map[] && w.purges == map[] && w.disturbed == {} && w.stale == {}
    ensures w.running.Keys == {b} && w.running[b].Uploading? && w.running[b].mode.Differential? && w.running[b].pending == {}
    ensures k in ManifestPaths(w.running[b].manifest) && w.running[b].began == w.clock
    ensures k in w.store && w.store[k] == blob && Cutoff(w.clock, days) == blob.mtime && PoolKey(s, b.fqdn, k)
  {
    hide Inv, ManifestPaths, Cutoff, PoolKey;
  }

  lemma Kept(s: Site, w: World, a: BackupId, b: BackupId, t: Table, f: SnapFile, days: nat) returns (run: seq<Action>)
    requires GoodSite(s) && Initial(w) && InSite(s, a) && InSite(s, b) && a != b && a.fqdn == b.fqdn && OneFile(t, f) && days > 0
    ensures ValidRun(s, w, run) && NoSweep(run)
    ensures KeptAlone(s, After(s, w, run), a, b, PoolName(s, b.fqdn, t, f), f.size, w.clock, days)
  {
    hide *;
    var k, blob := PoolName(s, b.fqdn, t, f), Blob(f.size, w.clock, f.md5, Raw(f.data));
    run := BothKeep(s, w, a, b, t, f, days);
    var w4 := After(s, w, run);
    BothUse(s, w4, a, b, k, blob, days);
    var third := PurgeOneRun(s, w4, 0, a);
    var w5 := After(s, w4, third);
    InvOverRuns(s, w4, third);
    RunsJoin(s, w, run, third);
    SweepFree(run, third);
    run := run + third;
    PurgedAll(s, w4.store, a);
    PurgeKeepsPool(s, w4.store, a, b.fqdn, k);
    DisturbedAtMost(w4, a, w5.disturbed);
    assert w5.live == map[];
    KeptMake(s, w5, a, b, k, f.size, w.clock, days);
  }

  lemma DisturbedAtMost(w: World, id: BackupId, disturbed: set<BackupId>)
    requires DisturbsAtMost(w, id, disturbed) && w.disturbed == {}
    ensures disturbed <= {id}
  {
  }

  lemma TakenUse(s: Site, w: World, id: BackupId, k: string, f: SnapFile, clock: nat)
    requires FirstTaken(s, w, id, k, f, clock)
    ensures Inv(s, w) && w.clock == clock && w.running == map[] && w.purges == map[] && w.sweeps == map[] && w.disturbed == {} && w.stale == {}
    ensures w.live.Keys == {id} && OnePoolObject(s, w.store, id, k, Blob(f.size, clock, f.md5, Raw(f.data)))
  {
    hide Inv, OnePoolObject;
  }

  lemma AloneListed(s: Site, st: Store, a: BackupId, b: BackupId, k: string, blob: Blob)
    requires OnePoolObject(s, st, a, k, blob) && a != b && InSite(s, b) && a.fqdn == b.fqdn
    ensures Enumerates([k], ListBlobs(st, PoolPath(s.p, b.fqdn) + "/")) && k in st && st[k] == blob
    ensures forall g :: ValidForm(s, g) && BelongsTo(g, b) ==> !Stored(s, st, g)
  {
    hide Render, PoolPath, ValidForm, InSite, ListBlobs;
    assert [k][0] == k;
  }

  lemma PoolUnchanged(s: Site, me: BackupId, st: Store, st': Store, k: string)
    requires OnlyOwn(s, me, st, st') && PoolKey(s, me.fqdn, k) && k in st
    ensures k in st' && st'[k] == st[k]
  {
    hide Render, ValidForm;
    var f :| ValidForm(s, f) && f.Pool? && f.fqdn == me.fqdn && k == Render(s.p, f);
  }

  lemma KeptMake(s: Site, w: World, a: BackupId, b: BackupId, k: string, size: nat, mtime: nat, days: nat)
    requires Inv(s, w) && w.live == map[] && w.sweeps == map[] && w.disturbed <= {a} && w.stale == {} && b != a
    requires w.running.Keys == {b} && w.running[b].Uploading? && w.running[b].mode.Differential? && w.running[b].pending == {}
    requires k in ManifestPaths(w.running[b].manifest) && w.running[b].began == w.clock
    requires k in w.store && w.store[k].size == size && w.store[k].mtime == mtime && Cutoff(w.clock, days) == mtime
    requires forall f :: ValidForm(s, f) && BelongsTo(f, a) ==> !StoredNonEmpty(s, w.store, f)
    ensures KeptAlone(s, w, a, b, k, size, mtime, days)
  {
    hide Inv, ManifestPaths, Cutoff, ValidForm, BelongsTo, StoredNonEmpty;
  }

  lemma KeptUse(s: Site, w: World, a: BackupId, b: BackupId, k: string, size: nat, mtime: nat, days: nat)
    requires KeptAlone(s, w, a, b, k, size, mtime, days)
    ensures Inv(s, w) && w.live == map[] && w.sweeps == map[] && w.disturbed <= {a} && w.stale == {} && b != a
    ensures w.running.Keys == {b} && w.running[b].Uploading? && w.running[b].mode.Differential? && w.running[b].pending == {}
    ensures k in ManifestPaths(w.running[b].manifest) && w.running[b].began == w.clock
    ensures k in w.store && w.store[k].size == size && w.store[k].mtime == mtime && Cutoff(w.clock, days) == mtime
    ensures forall f :: ValidForm(s, f) && BelongsTo(f, a) ==> !StoredNonEmpty(s, w.store, f)
  {
    hide Inv, ManifestPaths, Cutoff, ValidForm, BelongsTo, StoredNonEmpty;
  }

  /** There is no manifest left that a sweep could read. */
  lemma NoManifest(s: Site, w: World, a: BackupId, id: BackupId)
    requires GoodSite(s) && Inv(s, w) && w.live == map[] && w.disturbed <= {a} && w.stale == {} && InSite(s, id)
    requires forall f :: ValidForm(s, f) && BelongsTo(f, a) ==> !StoredNonEmpty(s, w.store, f)
    ensures MetaKey(s.p, id, "manifest.json") !in w.store
  {
    InvParts(s, w);
    SettledParts(s, w);
    MetaRenders(s.p, id, "manifest.json");
    OwnIsValid(s, id, "manifest.json");
    MetaBelongs(id, "manifest.json");
    hide Inv, GoodSite, AllKnown, AllSettled, LivesOk, RunsOk, PurgesOk, SweepsOk, Render, MetaKey, Meta;
    if id !in w.disturbed {
      assert Settled(s, w.store, MayHave(w), id);
    } else {
      assert BelongsTo(Meta(id, "manifest.json"), a);
      assert !StoredNonEmpty(s, w.store, Meta(id, "manifest.json"));
    }
  }

  lemma NamedNeedsManifest(s: Site, st: Store, id: BackupId, path: string)
    requires NamesPath(s, st, id, path)
    ensures InSite(s, id) && MetaKey(s.p, id, "manifest.json") in st
  {
    hide MetaKey, IndexKey, IndexRoot, ManifestPaths;
  }

  lemma NothingMarked(s: Site, w: World, a: BackupId, order: seq<string>, h: string, cutoff: int)
    requires GoodSite(s) && Inv(s, w) && w.live == map[] && w.disturbed <= {a} && w.stale == {} && Enumerates(order, ListObjects(w.store, IndexRoot(s.p)))
    requires forall f :: ValidForm(s, f) && BelongsTo(f, a) ==> !StoredNonEmpty(s, w.store, f)
    ensures CleanupObsolete(w.store, s.p, order, h, cutoff).Cleaned? && CleanupObsolete(w.store, s.p, order, h, cutoff).marked == {}
  {
    hide *;
    SweepMarksLive(s, w, order, h, cutoff);
    var marked := CleanupObsolete(w.store, s.p, order, h, cutoff).marked;
    forall path ensures path !in marked {
      if path in marked {
        var id: BackupId :| Selected(s.p, id, Some(h)) && NamesPath(s, w.store, id, path);
        NamedNeedsManifest(s, w.store, id, path);
        NoManifest(s, w, a, id);
      }
    }
  }

  lemma {:induction false} OrderOf(keys: set<string>) returns (order: seq<string>)
    ensures Enumerates(order, keys)
    decreases |keys|
  {
    if keys == {} {
      order := [];
    } else {
      var k :| k in keys;
      var rest := OrderOf(keys - {k});
      order := [k] + rest;
      assert forall i :: 0 <= i < |rest| ==> rest[i] in keys - {k};
      forall x | x in keys ensures x in order { assert x == k || x in rest; }
    }
  }

  lemma SweepEnabledHere(s: Site, w: World, h: string, order: seq<string>, days: nat, b: BackupId)
    requires h in s.hosts && w.sweeps == map[] && Enumerates(order, ListObjects(w.store, IndexRoot(s.p)))
    requires w.running.Keys == {b} && w.running[b].Uploading? && Cutoff(w.clock, days) < w.running[b].began
    ensures Enabled(s, w, SweepList(0, h, order, days)) && GraceAllows(s, w, SweepList(0, h, order, days))
  {
    hide Enumerates, ListObjects, IndexRoot, Cutoff;
  }

  lemma LaterSteps(s: Site, w: World, w1: World, b: BackupId, k: string)
    requires w1 == w.(store := w1.store, sweeps := w1.sweeps) && 0 in w1.sweeps && k in w1.sweeps[0].todo
    requires b in w.running && w.running[b].Uploading? && w.running[b].pending == {} && b !in w.disturbed
    ensures Enabled(s, w1, SweepDelete(0, k)) && GraceAllows(s, w1, SweepDelete(0, k))
    ensures var w2 := Apply(s, w1, SweepDelete(0, k));
            && Enabled(s, w2, Publish(b, 1)) && GraceAllows(s, w2, Publish(b, 1))
            && var w3 := Apply(s, w2, Publish(b, 1));
               && b in w3.live && w3.live[b].manifest == w.running[b].manifest
               && w3.store == (w1.store - {k})[Render(s.p, Meta(b, "manifest.json")) := Blob(1, w.clock, "", Doc(w.running[b].manifest))]
  {
    hide Render, Meta;
  }

  /** The sweep deletes the object, and the manifest that names it is published afterwards. */
  lemma Lost(s: Site, w: World, a: BackupId, b: BackupId, k: string, size: nat, mtime: nat, days: nat) returns (run: seq<Action>)
    requires GoodSite(s) && InSite(s, b) && KeptAlone(s, w, a, b, k, size, mtime, days) && size > 0 && mtime < w.clock
    ensures GraceRun(s, w, run)
    ensures var w' := GraceEnd(s, w, run); b in w'.live && k in ManifestPaths(w'.live[b].manifest) && k !in w'.store
  {
    hide *;
    KeptUse(s, w, a, b, k, size, mtime, days);
    IdHost(s, b);
    var order := OrderOf(ListObjects(w.store, IndexRoot(s.p)));
    var sweep := SweepList(0, b.fqdn, order, days);
    SweepEnabledHere(s, w, b.fqdn, order, days, b);
    UploadingMeans(w, b.fqdn, b);
    SweepSelectsExactly(s, w, sweep, b, k);
    NothingMarked(s, w, a, order, b.fqdn, Cutoff(w.clock, days));
    SweepListed(s, w, sweep);
    var w1 := Apply(s, w, sweep);
    LaterSteps(s, w, w1, b, k);
    GraceThree(s, w, sweep, SweepDelete(0, k), Publish(b, 1));
    run := [sweep, SweepDelete(0, k), Publish(b, 1)];
    NotTheManifest(s, w, b, k);
  }

  lemma UploadingMeans(w: World, h: string, id: BackupId)
    requires id in w.running && id.fqdn == h && id !in w.disturbed && w.running[id].Uploading? && w.running[id].mode.Differential?
    ensures UploadingOn(w, h, id)
  {
  }

  lemma NotTheManifest(s: Site, w: World, b: BackupId, k: string)
    requires GoodSite(s) && Inv(s, w) && b in w.running && b !in w.disturbed && w.running[b].Uploading? && k in ManifestPaths(w.running[b].manifest)
    ensures Render(s.p, Meta(b, "manifest.json")) != k
  {
    hide *;
    InvParts(s, w);
    UploadingUse(s, w, b);
    UploadPaths(s, w.store, w.clock, b, w.running[b]);
    OwnIsValid(s, b, "manifest.json");
    Content.ManifestNotData(b);
    Content.DataUntouched(s, b, w.running[b].mode, k, Meta(b, "manifest.json"));
  }

  /**
   On every good site, for every snapshot with one file and every grace period of a day or more, there is a
   course of events, possible in the source, that loses an object of a published backup: a backup uploads
   the file, a second one finds it in the pool and keeps it, the first is purged, a sweep past the object's
   grace period but within that of the second backup selects and deletes it, and the second backup
   publishes a manifest that names it. So the second condition of Protected cannot be dropped.
   */
  lemma KeptObjectLost(s: Site, w: World, h: string, m: string, n: string, t: Table, f: SnapFile, days: nat) returns (run: seq<Action>)
    requires GoodSite(s) && Initial(w) && h in s.hosts && m in s.names && n in s.names && m != n && OneFile(t, f) && days > 0
    ensures GraceRun(s, w, run) && PossibleRun(s, w, run)
    ensures GraceEnd(s, w, run) == Reached(s, w, run) && !SurvivorsIntact(s, Reached(s, w, run))
  {
    var a, b := BackupId(h, m), BackupId(h, n);
    assert InSite(s, a) && InSite(s, b) && a != b && a.fqdn == b.fqdn && f.size > 0;
    var k := PoolName(s, h, t, f);
    assert Cutoff(w.clock + days * SECONDS_PER_DAY, days) == w.clock && days * SECONDS_PER_DAY > 0;
    hide *;
    var first := Kept(s, w, a, b, t, f, days);
    ValidIsGrace(s, w, first);
    var w1 := After(s, w, first);
    KeptUse(s, w1, a, b, k, f.size, w.clock, days);
    CutoffEarlier(w1.clock, days);
    var second := Lost(s, w1, a, b, k, f.size, w.clock, days);
    GraceJoin(s, w, first, second);
    run := first + second;
    GraceIsPossible(s, w, run);
    NotIntact(s, GraceEnd(s, w, run), b, k);
  }

  lemma CutoffEarlier(now: nat, days: nat)
    requires days > 0
    ensures Cutoff(now, days) < now
  {
  }

  lemma NotIntact(s: Site, w: World, id: BackupId, k: string)
    requires id in w.live && k in ManifestPaths(w.live[id].manifest) && k !in w.store
    ensures !SurvivorsIntact(s, w)
  {
    hide ManifestPaths, MetaKey;
  }

  lemma {:induction false} GraceIsPossible(s: Site, w: World, actions: seq<Action>)
    requires GraceRun(s, w, actions)
    ensures PossibleRun(s, w, actions) && Reached(s, w, actions) == GraceEnd(s, w, actions)
    decreases |actions|
  {
    hide Enabled, Apply, OutOfTheWay, Young;
    if actions != [] {
      GraceIsPossible(s, Apply(s, w, actions[0]), actions[1..]);
    }
  }
}
