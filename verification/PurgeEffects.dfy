/**
 What a whole purge_backups call does to every pool: which objects of the swept hosts go and which stay,
 told from the store before the call.
 */
module PurgeEffects {
  import opened Text
  import opened IndexNames
  import opened ObjectStorage
  import opened Layout
  import opened NodeListing
  import opened Purge
  import opened PurgeIsolation
  import opened Protocol
  import opened Invariant
  import opened ProtocolSafety
  import opened AnyRun
  import opened Unpurged
  import opened PurgeCalls
  import Content

  // ---------------------------------------------------------------- backups that count

  /** Some complete differential backup of the host, none of the excepted ones, names the object. */
  ghost predicate Named(s: Site, st: Store, h: string, but: seq<BackupId>, k: string) {
    exists id: BackupId :: id.fqdn == h && id !in but && NamesPath(s, st, id, k)
  }

  /** And this backup's schema is there, so that every listing has it. */
  ghost predicate NamedFirmly(s: Site, st: Store, h: string, but: seq<BackupId>, k: string) {
    exists id: BackupId :: id.fqdn == h && id !in but && NamesPath(s, st, id, k) && NodeListing.Exists(st, s.p, id)
  }

  lemma NamesParts(s: Site, st: Store, id: BackupId, k: string)
    ensures NamesPath(s, st, id, k) <==>
            && InSite(s, id)
            && IndexedKey(s.p, id, Tokenmap, 0) in ListObjects(st, IndexRoot(s.p))
            && IndexedKey(s.p, id, IndexNames.Differential, 0) in ListObjects(st, IndexRoot(s.p))
            && var key := MetaKey(s.p, id, "manifest.json"); key in st && st[key].body.Doc? && k in ManifestPaths(st[key].body.sections)
  {
    hide IndexedKey, MetaKey, IndexRoot, ManifestPaths, InSite;
  }

  lemma ShrinkListed(st: Store, st': Store, prefix: string, k: string)
    requires Shrinks(st, st')
    ensures k in ListObjects(st', prefix) ==> k in ListObjects(st, prefix)
    ensures k in st' && k in ListObjects(st, prefix) ==> k in ListObjects(st', prefix)
  {
  }

  lemma ShrinkNames(s: Site, st: Store, st': Store, id: BackupId, k: string)
    requires Shrinks(st, st') && NamesPath(s, st', id, k)
    ensures NamesPath(s, st, id, k)
  {
    hide *;
    NamesParts(s, st, id, k);
    NamesParts(s, st', id, k);
    ShrinkListed(st, st', IndexRoot(s.p), IndexedKey(s.p, id, Tokenmap, 0));
    ShrinkListed(st, st', IndexRoot(s.p), IndexedKey(s.p, id, IndexNames.Differential, 0));
    ShrinkUse(st, st', MetaKey(s.p, id, "manifest.json"));
  }

  lemma ShrinkUse(st: Store, st': Store, k: string)
    requires Shrinks(st, st')
    ensures k in st' ==> k in st && st'[k] == st[k]
  {
  }

  /** A backup all of whose keys stay goes on naming its objects. */
  lemma KeptNames(s: Site, st: Store, st': Store, id: BackupId, k: string)
    requires Shrinks(st, st') && KeepsOwn(s, st, st', id) && NamesPath(s, st, id, k)
    ensures NamesPath(s, st', id, k)
    ensures NodeListing.Exists(st, s.p, id) ==> NodeListing.Exists(st', s.p, id)
  {
    hide *;
    NamesParts(s, st, id, k);
    NamesParts(s, st', id, k);
    EntryStill(s, st, st', id, Tokenmap);
    EntryStill(s, st, st', id, IndexNames.Differential);
    MetaStill(s, st, st', id, "manifest.json");
    MetaStill(s, st, st', id, "schema.cql");
    SchemaExists(s, st, id);
    SchemaExists(s, st', id);
    StoredMeta(s, st, id, "schema.cql");
    StoredMeta(s, st', id, "schema.cql");
  }

  lemma StoredMeta(s: Site, st: Store, id: BackupId, file: string)
    ensures Stored(s, st, Meta(id, file)) <==> MetaKey(s.p, id, file) in st
  {
    MetaRenders(s.p, id, file);
    hide Render, MetaKey, Meta;
  }

  lemma EntryStill(s: Site, st: Store, st': Store, id: BackupId, kind: Kind)
    requires Shrinks(st, st') && KeepsOwn(s, st, st', id) && InSite(s, id)
    ensures var k := IndexedKey(s.p, id, kind, 0); k in ListObjects(st, IndexRoot(s.p)) ==> k in ListObjects(st', IndexRoot(s.p))
  {
    hide *;
    var f, k := Entry(id, kind, 0), IndexedKey(s.p, id, kind, 0);
    EntryRenders(s.p, f);
    EntryOwned(s, id, kind);
    if k in ListObjects(st, IndexRoot(s.p)) {
      ListedIn(st, IndexRoot(s.p), k);
      StoredMeans(s, st, f);
      KeptUse(s, st, st', id, f);
      StoredMeans(s, st', f);
      ShrinkListed(st, st', IndexRoot(s.p), k);
    }
  }

  lemma EntryOwned(s: Site, id: BackupId, kind: Kind)
    requires InSite(s, id)
    ensures ValidForm(s, Entry(id, kind, 0)) && BelongsTo(Entry(id, kind, 0), id)
  {
  }

  lemma ListedIn(st: Store, prefix: string, k: string)
    requires k in ListObjects(st, prefix)
    ensures k in st && prefix <= k && st[k].size > 0
  {
  }

  lemma MetaStill(s: Site, st: Store, st': Store, id: BackupId, file: string)
    requires KeepsOwn(s, st, st', id) && InSite(s, id)
    ensures var k := MetaKey(s.p, id, file); k in st ==> k in st' && st'[k] == st[k]
  {
    MetaRenders(s.p, id, file);
    OwnIsValid(s, id, file);
    MetaBelongs(id, file);
    BelongsOwn(Meta(id, file), id);
    hide *;
    StoredMeans(s, st, Meta(id, file));
    StoredMeans(s, st', Meta(id, file));
    if MetaKey(s.p, id, file) in st { KeptUse(s, st, st', id, Meta(id, file)); }
  }

  // ---------------------------------------------------------------- one sweep

  lemma ShrinksTwice(a: Store, b: Store, c: Store)
    requires Shrinks(a, b) && Shrinks(b, c)
    ensures Shrinks(a, c)
  {
  }

  lemma WholeTwice(s: Site, a: Store, b: Store, c: Store)
    requires Whole(s, a, b) && Whole(s, b, c)
    ensures Whole(s, a, c)
  {
    hide Render, InSite, ValidForm, BelongsTo;
    forall id | InSite(s, id) && Stored(s, a, Meta(id, "schema.cql")) ensures KeepsOwn(s, a, c, id) {
      assert KeepsOwn(s, a, b, id);
      OwnIsValid(s, id, "schema.cql");
      MetaBelongs(id, "schema.cql");
      BelongsOwn(Meta(id, "schema.cql"), id);
      hide Meta;
      assert Stored(s, b, Meta(id, "schema.cql"));
      assert KeepsOwn(s, b, c, id);
    }
  }

  lemma SweepWhole(s: Site, st: Store, h: string, marked: set<string>, cutoff: int)
    requires GoodSite(s) && h in s.hosts
    ensures Whole(s, st, st - Doomed(st, s.p, h, marked, cutoff)) && Shrinks(st, st - Doomed(st, s.p, h, marked, cutoff))
  {
    hide Render, GoodSite, InSite, ValidForm, Meta, Doomed;
    var st' := st - Doomed(st, s.p, h, marked, cutoff);
    forall id, g | InSite(s, id) && ValidForm(s, g) && BelongsTo(g, id) && Stored(s, st, g) ensures Stored(s, st', g) {
      SweepExact(s, st, h, marked, cutoff, g);
    }
  }

  /** Told from an earlier store that has lost nothing but leftovers since: what one sweep does to an object. */
  lemma PassExact(s: Site, base: Store, st: Store, order: seq<string>, h: string, cutoff: int, f: KeyForm)
    requires GoodSite(s) && AllKnown(s, base) && h in s.hosts && Shrinks(base, st) && Whole(s, base, st)
    requires Enumerates(order, ListObjects(st, IndexRoot(s.p))) && CleanupObsolete(st, s.p, order, h, cutoff).Cleaned?
    requires ValidForm(s, f) && f.Pool? && Render(s.p, f) in base
    ensures var st', k := CleanupObsolete(st, s.p, order, h, cutoff).store, Render(s.p, f);
            && Shrinks(base, st') && Whole(s, base, st') && Shrinks(st, st')
            && (k in st' && f.fqdn == h && base[k].size > 0 && base[k].mtime <= cutoff ==> Named(s, base, h, [], k))
            && (k in st && (f.fqdn != h || base[k].size == 0 || base[k].mtime > cutoff || NamedFirmly(s, base, h, [], k)) ==> k in st')
  {
    hide *;
    var c, k := CleanupObsolete(st, s.p, order, h, cutoff), Render(s.p, f);
    ShrinkKeepsKnown(s, base, st);
    KnownIndex(s, st);
    GoodTellsApart(s, st);
    CleanupMarks(s, st, order, h, cutoff);
    ListingWhole(s, st, order, Some(h));
    BeforeIsListed(st, s.p, order, h, cutoff);
    LostOnlyIndex(s.p, st, c.before);
    Content.ShrinksMake(st, c.before);
    SweepWhole(s, c.before, h, c.marked, cutoff);
    ShrinksTwice(st, c.before, c.store);
    ShrinksTwice(base, st, c.store);
    WholeTwice(s, st, c.before, c.store);
    WholeTwice(s, base, st, c.store);
    ShrinkUse(base, st, k);
    ShrinkUse(st, c.before, k);
    ShrinkUse(c.before, c.store, k);
    if k in c.before { SweepExact(s, c.before, h, c.marked, cutoff, f); }
    if k in c.store && f.fqdn == h && base[k].size > 0 && base[k].mtime <= cutoff {
      assert k in c.marked;
      var id: BackupId :| Selected(s.p, id, Some(h)) && NamesPath(s, st, id, k);
      NamesUse(s, st, id, k);
      SelectsExactly(s, h, id);
      ShrinkNames(s, base, st, id, k);
      NamedMake(s, base, id, [], k);
    }
    PoolNotIndexed(s, f);
    if k in st && f.fqdn == h && NamedFirmly(s, base, h, [], k) {
      var id := NamedBy(s, base, h, [], k);
      NamesUse(s, base, id, k);
      SchemaExists(s, base, id);
      WholeUse(s, base, st, id);
      KeptNames(s, base, st, id, k);
      NamesUse(s, st, id, k);
      OwnSelected(s.p, id);
      CountableUse(s, st, h, id);
    }
  }

  lemma PoolNotIndexed(s: Site, f: KeyForm)
    requires GoodSite(s) && ValidForm(s, f) && f.Pool?
    ensures !(IndexRoot(s.p) <= Render(s.p, f))
  {
    hide Render, GoodSite, IndexRoot;
    IndexRootReaches(s, f);
  }

  lemma NamedMake(s: Site, st: Store, id: BackupId, but: seq<BackupId>, k: string)
    requires NamesPath(s, st, id, k) && id !in but
    ensures Named(s, st, id.fqdn, but, k)
    ensures NodeListing.Exists(st, s.p, id) ==> NamedFirmly(s, st, id.fqdn, but, k)
  {
    hide NamesPath, NodeListing.Exists;
  }

  lemma NamedBy(s: Site, st: Store, h: string, but: seq<BackupId>, k: string) returns (id: BackupId)
    requires NamedFirmly(s, st, h, but, k)
    ensures id.fqdn == h && id !in but && NamesPath(s, st, id, k) && NodeListing.Exists(st, s.p, id)
  {
    hide NamesPath, NodeListing.Exists;
    id :| id.fqdn == h && id !in but && NamesPath(s, st, id, k) && NodeListing.Exists(st, s.p, id);
  }

  lemma NamedSome(s: Site, st: Store, h: string, but: seq<BackupId>, k: string) returns (id: BackupId)
    requires Named(s, st, h, but, k)
    ensures id.fqdn == h && id !in but && NamesPath(s, st, id, k)
  {
    hide NamesPath;
    id :| id.fqdn == h && id !in but && NamesPath(s, st, id, k);
  }

  // ---------------------------------------------------------------- all sweeps

  lemma AbortsAll(st: Store, p: string, passes: seq<Pass>, cutoff: int)
    requires passes != [] && SweepAll(st, p, passes, cutoff).Cleaned?
    ensures CleanupObsolete(st, p, passes[0].order, passes[0].fqdn, cutoff).Cleaned?
  {
    hide CleanupObsolete;
  }

  lemma ShrinksSame(st: Store)
    ensures Shrinks(st, st)
  {
  }

  lemma {:induction false} SweepAllExact(s: Site, base: Store, st: Store, passes: seq<Pass>, cutoff: int, f: KeyForm)
    requires GoodSite(s) && AllKnown(s, base) && PassHosts(passes) <= s.hosts && Shrinks(base, st) && Whole(s, base, st)
    requires Enumerated(st, s.p, passes, cutoff) && SweepAll(st, s.p, passes, cutoff).Cleaned?
    requires ValidForm(s, f) && f.Pool? && Render(s.p, f) in base
    ensures var st', k := SweepAll(st, s.p, passes, cutoff).store, Render(s.p, f);
            && Shrinks(st, st')
            && (k in st' && f.fqdn in PassHosts(passes) && base[k].size > 0 && base[k].mtime <= cutoff ==> Named(s, base, f.fqdn, [], k))
            && (k in st && (f.fqdn !in PassHosts(passes) || base[k].size == 0 || base[k].mtime > cutoff || NamedFirmly(s, base, f.fqdn, [], k)) ==> k in st')
    decreases |passes|
  {
    hide *;
    HostsOfPasses(passes);
    AllUnfolds(st, s.p, passes, cutoff);
    if passes == [] {
      ShrinksSame(st);
    } else {
      AbortsAll(st, s.p, passes, cutoff);
      var st1 := CleanupObsolete(st, s.p, passes[0].order, passes[0].fqdn, cutoff).store;
      PassExact(s, base, st, passes[0].order, passes[0].fqdn, cutoff, f);
      SweepAllExact(s, base, st1, passes[1..], cutoff, f);
      ShrinksTwice(st, st1, SweepAll(st, s.p, passes, cutoff).store);
      ShrinkUse(st1, SweepAll(st, s.p, passes, cutoff).store, Render(s.p, f));
    }
  }

  // ---------------------------------------------------------------- the purges before them

  /** Purging some backups removes their own keys and no others. */
  lemma {:induction false} PurgeEachExact(s: Site, st: Store, ids: seq<BackupId>, f: KeyForm)
    requires GoodSite(s) && (forall id :: id in ids ==> InSite(s, id)) && ValidForm(s, f)
    ensures var st', k := PurgeEach(st, s.p, ids), Render(s.p, f);
            && Shrinks(st, st')
            && (k in st' <==> k in st && !(st[k].size > 0 && exists id :: id in ids && BelongsTo(f, id)))
    decreases |ids|
  {
    hide PurgeOne, GoodSite, InSite, ValidForm, Render, BelongsTo;
    if ids != [] {
      var st1 := PurgeOne(st, s.p, ids[0]);
      assert ids[0] in ids && forall id :: id in ids <==> id == ids[0] || id in ids[1..];
      PurgeShrinks(st, s.p, ids[0]);
      if Render(s.p, f) in st { PurgeExact(s, st, ids[0], f); }
      PurgeEachExact(s, st1, ids[1..], f);
    }
  }

  lemma PurgedShrinks(s: Site, st: Store, ids: seq<BackupId>)
    requires GoodSite(s) && (forall id :: id in ids ==> InSite(s, id))
    ensures Shrinks(st, PurgeEach(st, s.p, ids))
  {
    var f := Latest("", "");
    assert ValidForm(s, f);
    hide *;
    PurgeEachExact(s, st, ids, f);
  }

  /** The backups left alone keep all their keys. */
  lemma OthersKeep(s: Site, st: Store, ids: seq<BackupId>, id: BackupId)
    requires GoodSite(s) && (forall o :: o in ids ==> InSite(s, o)) && id !in ids
    ensures KeepsOwn(s, st, PurgeEach(st, s.p, ids), id)
  {
    hide Render, GoodSite, InSite, ValidForm, PurgeEach;
    var st' := PurgeEach(st, s.p, ids);
    forall f | ValidForm(s, f) && BelongsTo(f, id) && Stored(s, st, f) ensures Stored(s, st', f) && st'[Render(s.p, f)] == st[Render(s.p, f)] {
      PurgeEachExact(s, st, ids, f);
    }
  }

  lemma PurgedNamesNothing(s: Site, st: Store, ids: seq<BackupId>, id: BackupId, k: string)
    requires GoodSite(s) && (forall o :: o in ids ==> InSite(s, o)) && id in ids
    ensures !NamesPath(s, PurgeEach(st, s.p, ids), id, k)
  {
    var st' := PurgeEach(st, s.p, ids);
    EntryRenders(s.p, Entry(id, Tokenmap, 0));
    hide *;
    NamesParts(s, st', id, k);
    if NamesPath(s, st', id, k) {
      EntryOwned(s, id, Tokenmap);
      ListedIn(st', IndexRoot(s.p), IndexedKey(s.p, id, Tokenmap, 0));
      PurgedShrinks(s, st, ids);
      ShrinkUse(st, st', IndexedKey(s.p, id, Tokenmap, 0));
      PurgeEachExact(s, st, ids, Entry(id, Tokenmap, 0));
    }
  }

  /**
   purge_backups and the pools, on a good site, when the call ends well: an object of a swept host that is
   not empty, was last modified a grace period or longer ago, and is named by no complete differential backup
   of its host outside the purged ones, is gone. An object stays, as it is, if its host is not swept, if it is
   younger or empty, or if such a backup that exists names it.
   */
  lemma PurgeCallExact(s: Site, st: Store, ids: seq<BackupId>, passes: seq<Pass>, now: int, graceDays: int, f: KeyForm)
    requires GoodSite(s) && AllKnown(s, st) && (forall id :: id in ids ==> InSite(s, id)) && PassHosts(passes) <= s.hosts
    requires Enumerated(PurgeEach(st, s.p, ids), s.p, passes, Cutoff(now, graceDays))
    requires SweepAll(PurgeEach(st, s.p, ids), s.p, passes, Cutoff(now, graceDays)).Cleaned?
    requires ValidForm(s, f) && f.Pool? && Render(s.p, f) in st
    ensures var st', k := SweepAll(PurgeEach(st, s.p, ids), s.p, passes, Cutoff(now, graceDays)).store, Render(s.p, f);
            var past := st[k].mtime <= now - graceDays * 86400;
            && (k in st' ==> st'[k] == st[k])
            && (f.fqdn in PassHosts(passes) && st[k].size > 0 && past && !Named(s, st, f.fqdn, ids, k) ==> k !in st')
            && (f.fqdn !in PassHosts(passes) || st[k].size == 0 || !past || NamedFirmly(s, st, f.fqdn, ids, k) ==> k in st')
  {
    assert Cutoff(now, graceDays) == now - graceDays * 86400;
    hide *;
    var purged, cutoff, k := PurgeEach(st, s.p, ids), Cutoff(now, graceDays), Render(s.p, f);
    PoolNobodys(f, ids);
    PurgeEachExact(s, st, ids, f);
    ShrinkKeepsKnown(s, st, purged);
    ShrinksSame(purged);
    SameWhole(s, purged);
    SweepAllExact(s, purged, purged, passes, cutoff, f);
    var st' := SweepAll(purged, s.p, passes, cutoff).store;
    ShrinkUse(st, purged, k);
    ShrinkUse(purged, st', k);
    if Named(s, purged, f.fqdn, [], k) {
      var id := NamedSome(s, purged, f.fqdn, [], k);
      if id in ids { PurgedNamesNothing(s, st, ids, id, k); }
      ShrinkNames(s, st, purged, id, k);
      NamedMake(s, st, id, ids, k);
    }
    if NamedFirmly(s, st, f.fqdn, ids, k) {
      var id := NamedBy(s, st, f.fqdn, ids, k);
      OthersKeep(s, st, ids, id);
      KeptNames(s, st, purged, id, k);
      NamedMake(s, purged, id, [], k);
    }
  }

  lemma PoolNobodys(f: KeyForm, ids: seq<BackupId>)
    requires f.Pool?
    ensures forall id :: id in ids ==> !BelongsTo(f, id)
  {
  }
}
