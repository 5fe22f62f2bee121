/**
 What a purge and a sweep remove, key by key: exactly the purged backup's non-empty objects
 and index entries, exactly the unmarked old objects of one host's pool. Then the families of
 names for which the string prefixes of the source reach too far.
 */
module PurgeIsolation {
  import opened Text
  import opened IndexNames
  import opened ObjectStorage
  import opened Layout
  import opened NodeListing
  import opened Purge

  lemma CleanIndexExact(s: Site, st: Store, id: BackupId, f: KeyForm)
    requires GoodSite(s) && InSite(s, id) && ValidForm(s, f)
    requires Render(s.p, f) in st
    ensures Render(s.p, f) in CleanIndex(st, s.p, id) <==> !(f.Entry? && f.id == id && st[Render(s.p, f)].size > 0)
  {
    IndexDirReaches(s, id.name, f);
    if f.Entry? && f.id.name == id.name {
      EntryMentions(s, id, f);
    }
    hide Render, IndexDir, Contains;
  }

  /** Purging one backup removes exactly its own non-empty objects and index entries. */
  lemma PurgeExact(s: Site, st: Store, id: BackupId, f: KeyForm)
    requires GoodSite(s) && InSite(s, id) && ValidForm(s, f)
    requires Render(s.p, f) in st
    ensures var after := PurgeOne(st, s.p, id);
            && (Render(s.p, f) in after <==> !(BelongsTo(f, id) && st[Render(s.p, f)].size > 0))
            && (Render(s.p, f) in after ==> after[Render(s.p, f)] == st[Render(s.p, f)])
  {
    hide Render, CleanIndex, BackupPath, GoodSite;
    BackupPathReaches(s, id, f);
    var middle := st - ListObjects(st, BackupPath(s.p, id));
    CleanIndexOnlyIndex(middle, s.p, id);
    if Render(s.p, f) in middle {
      CleanIndexExact(s, middle, id, f);
    }
  }

  lemma PurgeShrinks(st: Store, p: string, id: BackupId)
    ensures PurgeOne(st, p, id).Keys <= st.Keys
    ensures forall k :: k in PurgeOne(st, p, id) ==> PurgeOne(st, p, id)[k] == st[k]
  {
    var middle := st - ListObjects(st, BackupPath(p, id));
    CleanIndexOnlyIndex(middle, p, id);
  }

  /** A sweep removes exactly the host's unmarked, non-empty pool objects past the cutoff. */
  lemma SweepExact(s: Site, st: Store, h: string, marked: set<string>, cutoff: int, f: KeyForm)
    requires GoodSite(s) && h in s.hosts && ValidForm(s, f)
    requires Render(s.p, f) in st
    ensures var k := Render(s.p, f);
            k in st - Doomed(st, s.p, h, marked, cutoff)
            <==> !(f.Pool? && f.fqdn == h && st[k].size > 0 && k !in marked && st[k].mtime <= cutoff)
  {
    hide Render, PoolPath, GoodSite;
    PoolPathReaches(s, h, f);
  }

  // ---------------------------------------------------------------- the mark phase

  /** Every manifest of the site is a JSON document. */
  ghost predicate ManifestsParse(s: Site, st: Store) {
    forall id :: InSite(s, id) && MetaKey(s.p, id, "manifest.json") in st ==> st[MetaKey(s.p, id, "manifest.json")].body.Doc?
  }

  ghost predicate CompleteDifferential(s: Site, st: Store, id: BackupId) {
    var keys := ListObjects(st, IndexRoot(s.p));
    && InSite(s, id)
    && IndexedKey(s.p, id, Tokenmap, 0) in keys
    && IndexedKey(s.p, id, IndexNames.Differential, 0) in keys
    && MetaKey(s.p, id, "manifest.json") in st
    && st[MetaKey(s.p, id, "manifest.json")].body.Doc?
  }

  /** The manifest names the path. */
  ghost predicate NamesPath(s: Site, st: Store, id: BackupId, path: string) {
    CompleteDifferential(s, st, id) && path in ManifestPaths(st[MetaKey(s.p, id, "manifest.json")].body.sections)
  }

  /** A listed backup that the mark phase keeps a path for. */
  predicate Keeps(st: Store, p: string, nb: NodeBackup, path: string) {
    var key := MetaKey(p, nb.id, "manifest.json");
    nb.differential && key in st && st[key].body.Doc? && path in ManifestPaths(st[key].body.sections)
  }

  /** The mark phase ends unless one of the manifests it reads is not JSON, and marks what they name. */
  lemma {:induction false} MarkedFrom(st: Store, p: string, backups: seq<NodeBackup>)
    ensures MarkedPaths(st, p, backups).Some? <==>
            forall nb :: nb in backups && nb.differential && MetaKey(p, nb.id, "manifest.json") in st ==> st[MetaKey(p, nb.id, "manifest.json")].body.Doc?
    ensures MarkedPaths(st, p, backups).Some? ==>
              forall path :: path in MarkedPaths(st, p, backups).value <==> exists nb :: nb in backups && Keeps(st, p, nb, path)
  {
    hide MetaKey, ManifestPaths;
    if backups != [] {
      var rest := backups[1..];
      MarkedFrom(st, p, rest);
      assert backups[0] in backups && forall nb :: nb in backups <==> nb == backups[0] || nb in rest;
      if MarkedPaths(st, p, backups).Some? {
        forall path ensures path in MarkedPaths(st, p, backups).value <==> exists nb :: nb in backups && Keeps(st, p, nb, path) {
          if path in MarkedPaths(st, p, rest).value {
            var nb :| nb in rest && Keeps(st, p, nb, path);
            assert nb in backups;
          }
        }
      }
    }
  }

  lemma ReadsDifferential(s: Site, st: Store, nb: NodeBackup)
    requires ReadsBack(s, st, nb)
    ensures InSite(s, nb.id)
    ensures nb.differential <==> IndexedKey(s.p, nb.id, IndexNames.Differential, 0) in ListObjects(st, IndexRoot(s.p))
  {
  }

  lemma MetaNotIndexed(p: string, id: BackupId, file: string)
    requires PlainHost(id.fqdn)
    ensures !(IndexRoot(p) <= MetaKey(p, id, file))
  {
    var x := id.name + "/meta/" + file;
    assert MetaKey(p, id, file) == p + id.fqdn + "/" + x;
    hide MetaKey;
    NeverIndex(p, id.fqdn, x, MetaKey(p, id, file));
  }

  /** The manifests that a listing leaves behind are those that were there. */
  lemma ManifestsStay(s: Site, st: Store, st': Store)
    requires ReadableSite(s) && OnlyIndexLost(s.p, st, st') && ("index" !in s.hosts || st' == st)
    ensures forall id :: InSite(s, id) ==>
              var key := MetaKey(s.p, id, "manifest.json"); (key in st' <==> key in st) && (key in st ==> st'[key] == st[key])
  {
    hide MetaKey, IndexRoot;
    forall id | InSite(s, id)
      ensures var key := MetaKey(s.p, id, "manifest.json"); (key in st' <==> key in st) && (key in st ==> st'[key] == st[key])
    {
      if st' != st {
        SitePlain(s, id.fqdn);
        MetaNotIndexed(s.p, id, "manifest.json");
      }
    }
  }

  /** What NamesPath says, on a store that only lost index entries. */
  lemma NamesKept(s: Site, st: Store, st': Store, nb: NodeBackup, path: string)
    requires ReadsBack(s, st, nb) && IndexedKey(s.p, nb.id, Tokenmap, 0) in ListObjects(st, IndexRoot(s.p))
    requires var key := MetaKey(s.p, nb.id, "manifest.json"); (key in st' <==> key in st) && (key in st ==> st'[key] == st[key])
    ensures Keeps(st', s.p, nb, path) <==> NamesPath(s, st, nb.id, path)
  {
    ReadsDifferential(s, st, nb);
    hide MetaKey, IndexKey, IndexRoot, ManifestPaths, ReadsBack;
  }

  /** The paths marked for a listing are those its backups' manifests name. */
  lemma MarkedExact(s: Site, st: Store, order: seq<string>, h: string)
    requires ReadableSite(s) && IndexWritten(s, st) && IndexTellsApart(s, st)
    requires Enumerates(order, ListObjects(st, IndexRoot(s.p)))
    ensures var r := ListNodeBackups(st, s.p, order, Some(h));
            && r.Listed? && (ManifestsParse(s, st) ==> MarkedPaths(r.store, s.p, r.backups).Some?)
            && (MarkedPaths(r.store, s.p, r.backups).Some? ==>
                  forall path :: path in MarkedPaths(r.store, s.p, r.backups).value
                    <==> exists nb :: nb in r.backups && NamesPath(s, st, nb.id, path))
  {
    hide *;
    ListingRoundTrip(s, st, order, Some(h));
    TellsApart(s, st);
    var r := ListNodeBackups(st, s.p, order, Some(h));
    ManifestsStay(s, st, r.store);
    if ManifestsParse(s, st) { ParseUse(s, st); }
    forall nb | nb in r.backups ensures InSite(s, nb.id) { ReadsInSite(s, st, nb); }
    MarkedFrom(r.store, s.p, r.backups);
    if MarkedPaths(r.store, s.p, r.backups).Some? {
      forall path ensures path in MarkedPaths(r.store, s.p, r.backups).value <==> exists nb :: nb in r.backups && NamesPath(s, st, nb.id, path) {
        forall nb | nb in r.backups ensures Keeps(r.store, s.p, nb, path) <==> NamesPath(s, st, nb.id, path) {
          NamesKept(s, st, r.store, nb, path);
        }
      }
    }
  }

  lemma ParseUse(s: Site, st: Store)
    requires ManifestsParse(s, st)
    ensures forall id :: InSite(s, id) && MetaKey(s.p, id, "manifest.json") in st ==> st[MetaKey(s.p, id, "manifest.json")].body.Doc?
  {
    hide MetaKey, InSite;
  }

  /** A backup the mark phase must know: it exists and its index entries and manifest are there. */
  ghost predicate Countable(s: Site, st: Store, h: string, id: BackupId) {
    Selected(s.p, id, Some(h)) && CompleteDifferential(s, st, id) && Exists(st, s.p, id)
  }

  lemma NamesUse(s: Site, st: Store, id: BackupId, path: string)
    requires NamesPath(s, st, id, path)
    ensures CompleteDifferential(s, st, id) && InSite(s, id) && IndexedKey(s.p, id, Tokenmap, 0) in ListObjects(st, IndexRoot(s.p))
  {
    hide MetaKey, IndexKey, IndexRoot, ManifestPaths;
  }

  lemma CountableUse(s: Site, st: Store, h: string, id: BackupId)
    ensures Countable(s, st, h, id) <==> Selected(s.p, id, Some(h)) && CompleteDifferential(s, st, id) && Exists(st, s.p, id)
  {
    hide Selected, CompleteDifferential, Exists;
  }

  lemma CleanupUnfolds(st: Store, p: string, order: seq<string>, h: string, cutoff: int)
    requires ListNodeBackups(st, p, order, Some(h)).Listed?
    ensures var r := ListNodeBackups(st, p, order, Some(h));
            var marked := MarkedPaths(r.store, p, r.backups);
            CleanupObsolete(st, p, order, h, cutoff)
            == if marked.None? then Aborted(r.store)
               else Cleaned(r.store - Doomed(r.store, p, h, marked.value, cutoff), r.store, marked.value)
  {
    hide ListNodeBackups, MarkedPaths, Doomed;
  }

  /**
   The sweep of host h ends unless it meets a manifest that is not JSON, takes nothing but index entries of
   vanished backups before it deletes, and marks only paths named by complete differential backups its
   listing selects, among them all paths of those that exist. When every indexed backup exists, the marked
   paths are exactly these and the index stays as it was.
   */
  lemma CleanupMarks(s: Site, st: Store, order: seq<string>, h: string, cutoff: int)
    requires ReadableSite(s) && IndexWritten(s, st) && IndexTellsApart(s, st)
    requires Enumerates(order, ListObjects(st, IndexRoot(s.p)))
    ensures ManifestsParse(s, st) ==> CleanupObsolete(st, s.p, order, h, cutoff).Cleaned?
    ensures var c := CleanupObsolete(st, s.p, order, h, cutoff);
            c.Cleaned? ==>
              && OnlyIndexLost(s.p, st, c.before) && (IndexedExist(s, st) ==> c.before == st)
              && c.store == c.before - Doomed(c.before, s.p, h, c.marked, cutoff)
              && (forall path :: path in c.marked ==> exists id: BackupId :: Selected(s.p, id, Some(h)) && NamesPath(s, st, id, path))
              && (forall id: BackupId, path :: Countable(s, st, h, id) && NamesPath(s, st, id, path) ==> path in c.marked)
              && (forall id: BackupId, path :: IndexedExist(s, st) && NamesPath(s, st, id, path) && Selected(s.p, id, Some(h)) ==> path in c.marked)
  {
    hide *;
    ListingRoundTrip(s, st, order, Some(h));
    MarkedExact(s, st, order, h);
    CleanupUnfolds(st, s.p, order, h, cutoff);
    var c := CleanupObsolete(st, s.p, order, h, cutoff);
    if c.Cleaned? {
      forall id: BackupId, path | NamesPath(s, st, id, path) && Selected(s.p, id, Some(h)) && (Exists(st, s.p, id) || IndexedExist(s, st))
        ensures path in c.marked
      {
        NamesUse(s, st, id, path);
        if IndexedExist(s, st) { IndexedExists(s, st, id); }
      }
      forall id: BackupId, path | Countable(s, st, h, id) && NamesPath(s, st, id, path) ensures path in c.marked {
        CountableUse(s, st, h, id);
      }
    }
  }

  // ---------------------------------------------------------------- which entries a listing drops

  lemma {:induction false} EmitExact(s: Site, st: Store, sorted: seq<NodeBackup>, f: KeyForm, k: nat)
    requires GoodSite(s) && (forall nb :: nb in sorted ==> InSite(s, nb.id)) && ValidForm(s, f) && Render(s.p, f) in st
    requires k <= |sorted| && (forall i :: 0 <= i < k ==> !Exists(st, s.p, sorted[i].id))
    requires k < |sorted| ==> Exists(st, s.p, sorted[k].id)
    ensures Render(s.p, f) in Emit(st, s.p, sorted, false).1
            <==> !(f.Entry? && st[Render(s.p, f)].size > 0 && exists i :: 0 <= i < k && sorted[i].id == f.id)
    decreases |sorted|
  {
    hide Render, GoodSite, CleanIndex, Exists;
    if k == 0 {
      EmitAll(st, s.p, sorted);
    } else {
      var gone, rest := sorted[0].id, sorted[1..];
      var st' := CleanIndex(st, s.p, gone);
      CleanIndexExact(s, st, gone, f);
      CleanIndexOnlyIndex(st, s.p, gone);
      forall nb | nb in sorted ensures Exists(st', s.p, nb.id) <==> Exists(st, s.p, nb.id) {
        GoodSitePlain(s, nb.id.fqdn);
        SchemaNotIndexed(st, s.p, gone, nb.id);
      }
      assert forall i :: 0 <= i < |rest| ==> rest[i] == sorted[i + 1];
      if Render(s.p, f) in st' {
        EmitExact(s, st', rest, f, k - 1);
        assert f.Entry? && st[Render(s.p, f)].size > 0 ==> f.id != gone;
        if i :| 0 <= i < k && f.Entry? && sorted[i].id == f.id && st[Render(s.p, f)].size > 0 {
          assert rest[i - 1].id == f.id;
        }
      } else {
        EmitOnlyIndex(st', s.p, rest, false);
      }
    }
  }

  lemma EmitAll(st: Store, p: string, sorted: seq<NodeBackup>)
    requires sorted != [] ==> Exists(st, p, sorted[0].id)
    ensures Emit(st, p, sorted, false).1 == st
  {
    hide Exists;
    if sorted != [] { EmitRest(st, p, sorted[1..]); }
  }

  lemma {:induction false} EmitRest(st: Store, p: string, sorted: seq<NodeBackup>)
    ensures Emit(st, p, sorted, true) == (sorted, st)
  {
    hide Exists;
    if sorted != [] {
      EmitRest(st, p, sorted[1..]);
      assert sorted == [sorted[0]] + sorted[1..];
    }
  }

  lemma GoodSitePlain(s: Site, h: string)
    requires GoodSite(s) && h in s.hosts
    ensures PlainHost(h) && "index" !in s.hosts
  {
    hide Clean, IndexApart, CleanPrefix;
    assert Clean(h);
    assert '/' !in h by { CleanNoSlash(h); }
  }

  lemma CleanNoSlash(h: string)
    requires Clean(h)
    ensures '/' !in h
  {
    hide Contains;
  }

  /**
   Exactly which entries a listing drops: the non-empty ones of the backups that come before the first one
   that exists, none of which exists any more.
   */
  lemma ListingDropsExactly(s: Site, st: Store, order: seq<string>, fqdn: Option<string>) returns (k: nat)
    requires GoodSite(s) && IndexWritten(s, st) && Enumerates(order, ListObjects(st, IndexRoot(s.p)))
    ensures var r := ListNodeBackups(st, s.p, order, fqdn);
            var read := Read(st, s.p, order, fqdn);
            && r.Listed? && k <= |read| && r.backups == read[k..]
            && (forall i :: 0 <= i < k ==> !Exists(st, s.p, read[i].id))
            && (k < |read| ==> Exists(st, s.p, read[k].id))
            && forall f :: ValidForm(s, f) && Render(s.p, f) in st ==>
                 (Render(s.p, f) in r.store
                  <==> !(f.Entry? && st[Render(s.p, f)].size > 0 && exists i :: 0 <= i < k && read[i].id == f.id))
  {
    hide *;
    GoodIsReadable(s);
    ReadBack(s, st, order, fqdn);
    InSiteUse(s);
    var read := Read(st, s.p, order, fqdn);
    forall nb | nb in read ensures InSite(s, nb.id) && PlainHost(nb.id.fqdn) {
      ReadsInSite(s, st, nb);
      GoodSitePlain(s, nb.id.fqdn);
    }
    k := EmitSplits(st, s.p, read);
    forall f | ValidForm(s, f) && Render(s.p, f) in st
      ensures Render(s.p, f) in Emit(st, s.p, read, false).1
              <==> !(f.Entry? && st[Render(s.p, f)].size > 0 && exists i :: 0 <= i < k && read[i].id == f.id)
    {
      EmitExact(s, st, read, f, k);
    }
  }

  lemma GoodIsReadable(s: Site)
    requires GoodSite(s)
    ensures ReadableSite(s)
  {
    hide Clean, IndexApart, CleanPrefix;
  }

  /** The host filter selects exactly the host's own backups. */
  lemma SelectsExactly(s: Site, h: string, id: BackupId)
    requires GoodSite(s) && h in s.hosts && InSite(s, id)
    ensures Selected(s.p, id, Some(h)) <==> id.fqdn == h
  {
    if id.fqdn == h {
      OwnSelected(s.p, id);
    } else {
      var key := IndexedKey(s.p, id, Tokenmap, 0);
      assert IndexApart(s.p, id.name, h, id.fqdn);
      assert !Contains(key, "_" + h);
      LongerContains(key, "_" + h, ".");
    }
  }

  lemma LongerContains(k: string, w: string, more: string)
    ensures Contains(k, w + more) ==> Contains(k, w)
  {
    if Contains(k, w + more) {
      var i :| 0 <= i <= |k| - |w + more| && OccursAt(k, w + more, i);
      assert k[i..i + |w|] == k[i..i + |w + more|][..|w|] == w;
      assert OccursAt(k, w, i);
    }
  }

  // ---------------------------------------------------------------- names that reach too far

  /** Purging one backup reaches another one's objects exactly when its name is a prefix of the other's. */
  lemma PurgeReachesByPrefix(p: string, id: BackupId, other: BackupId, rest: string)
    requires '/' !in id.fqdn && '/' !in other.fqdn && '/' !in id.name
    ensures BackupPath(p, id) <= Render(p, Own(other, rest)) <==> id.fqdn == other.fqdn && id.name <= other.name
  {
    hide Render, BackupPath;
    assert BackupPath(p, id) == p + (id.fqdn + ['/'] + id.name) by { RegroupPath(p, id); }
    ReachParts(p, id.fqdn, id.name, Own(other, rest));
    WordBeforeSlash(id.name, other.name, rest);
  }

  lemma RegroupPath(p: string, id: BackupId)
    ensures BackupPath(p, id) == p + (id.fqdn + ['/'] + id.name)
  {
  }

  /** The sweep of a host's pool also lists a backup's own objects exactly when the name starts with `data`. */
  lemma SweepReachesDataNames(p: string, h: string, other: BackupId, rest: string)
    requires '/' !in h && '/' !in other.fqdn
    ensures PoolPath(p, h) <= Render(p, Own(other, rest)) <==> h == other.fqdn && "data" <= other.name
  {
    hide Render, PoolPath;
    assert PoolPath(p, h) == p + (h + ['/'] + "data") by { RegroupPool(p, h); }
    ReachParts(p, h, "data", Own(other, rest));
    assert '/' !in "data";
    WordBeforeSlash("data", other.name, rest);
  }

  lemma RegroupPool(p: string, h: string)
    ensures PoolPath(p, h) == p + (h + ['/'] + "data")
  {
    assert "/data" == ['/'] + "data";
  }

  /** A backup whose name starts with `data` loses its manifest to the first sweep after the grace period. */
  lemma DataNameLosesManifest(p: string, id: BackupId, st: Store, marked: set<string>, cutoff: int)
    requires '/' !in id.fqdn && "data" <= id.name
    requires MetaKey(p, id, "manifest.json") in st && st[MetaKey(p, id, "manifest.json")].size > 0
    requires st[MetaKey(p, id, "manifest.json")].mtime <= cutoff
    requires MetaKey(p, id, "manifest.json") !in marked
    ensures MetaKey(p, id, "manifest.json") !in st - Doomed(st, p, id.fqdn, marked, cutoff)
  {
    assert MetaKey(p, id, "manifest.json") == Render(p, Own(id, "meta/manifest.json")) by {
      RegroupMeta(BackupPath(p, id), "manifest.json");
    }
    hide MetaKey, Render, PoolPath;
    SweepReachesDataNames(p, id.fqdn, id, "meta/manifest.json");
  }

  lemma RegroupMeta(path: string, file: string)
    ensures path + "/meta/" + file == path + "/" + ("meta/" + file)
  {
    assert "/meta/" == "/" + "meta/";
  }

  /** Cleaning the index for one host removes another host's entry whenever its name starts with the first. */
  lemma HostPrefixMentions(p: string, n: string, k: Kind, h: string, g: string, ts: nat)
    requires h <= g
    ensures Contains(IndexKey(p, n, k, g, ts), "_" + h)
    ensures IndexDir(p, n) <= IndexKey(p, n, k, g, ts)
  {
    var t := Tail(k, g, ts);
    TailStarts(k, g, ts);
    assert t[..|h|] == h;
    hide Tail, Word, Contains;
    ContainsInside(IndexDir(p, n) + "/" + Word(k), "_" + h, t[|h|..]);
    assert t == h + t[|h|..];
    Layout.RegroupTail(IndexDir(p, n), Word(k), h, t[|h|..]);
  }

  /**
   Purging a backup of `node1` unlists the backup of the same name of `node10`: after it, the
   sweep of the second host marks nothing for that backup, so its pool objects go with age.
   */
  lemma HostPrefixUnmarks(s: Site, st: Store, order: seq<string>, n: string, h: string, g: string, cutoff: int)
    requires ReadableSite(s) && n in s.names && h in s.hosts && g in s.hosts
    requires h != g && h <= g
    requires var after := PurgeOne(st, s.p, BackupId(h, n));
             IndexWritten(s, after) && IndexTellsApart(s, after) && ManifestsParse(s, after)
             && Enumerates(order, ListObjects(after, IndexRoot(s.p)))
    ensures var after := PurgeOne(st, s.p, BackupId(h, n));
            var c := CleanupObsolete(after, s.p, order, g, cutoff);
            && c.Cleaned?
            && !CompleteDifferential(s, after, BackupId(g, n))
            && (forall path :: path in c.marked ==> exists id :: id != BackupId(g, n) && NamesPath(s, after, id, path))
  {
    var after := PurgeOne(st, s.p, BackupId(h, n));
    var k := IndexedKey(s.p, BackupId(g, n), Tokenmap, 0);
    HostPrefixMentions(s.p, n, Tokenmap, h, g, 0);
    hide IndexKey, IndexDir, Contains, IndexRoot;
    assert k !in ListObjects(after, IndexRoot(s.p));
    assert !CompleteDifferential(s, after, BackupId(g, n));
    CleanupMarks(s, after, order, g, cutoff);
    hide CleanupObsolete, CompleteDifferential, PurgeOne, Selected, Countable;
    forall path, id | NamesPath(s, after, id, path) ensures id != BackupId(g, n) { NamesUse(s, after, id, path); }
  }

  // ---------------------------------------------------------------- a checkable condition on names

  /** No `_`, no `/`, no prefix of `index`, and not the beginning of a timestamp. */
  ghost predicate PlainName(h: string) {
    h != "" && '_' !in h && '/' !in h && !(h <= "index") && forall ts :: !(h <= Decimal(ts) + ".timestamp")
  }

  /** Names that begin with a letter are not the beginning of a timestamp, and neither are IP addresses. */
  lemma NotATimestamp(h: string, ts: nat)
    requires h != "" && (!IsDigit(h[0]) || exists i :: 0 <= i < |h| - 1 && h[i] == '.' && h[i + 1] != 't')
    ensures !(h <= Decimal(ts) + ".timestamp")
  {
    var digits, t := Decimal(ts), Decimal(ts) + ".timestamp";
    assert IsDigit(t[0]);
    forall i | 0 <= i < |t| - 1 && t[i] == '.' ensures t[i + 1] == 't' {
      assert i < |digits| ==> IsDigit(t[i]);
      assert i >= |digits| ==> t[i] == ".timestamp"[i - |digits|];
    }
  }

  /** `_h` occurs in `a_b` (a without underscore) exactly when h starts b or `_h` occurs in b. */
  lemma UnderscoreStep(a: string, b: string, h: string)
    requires '_' !in a && '_' !in h
    ensures Contains(a + "_" + b, "_" + h) ==> h <= b || Contains(b, "_" + h)
  {
    var s, w := a + "_" + b, "_" + h;
    if Contains(s, w) {
      var i :| 0 <= i <= |s| - |w| && OccursAt(s, w, i);
      assert s[i..i + |w|][0] == s[i] == '_';
      assert s[|a| + 1..] == b;
      if i == |a| {
        assert b[..|h|] == s[i..i + |w|][1..] == h;
      } else {
        assert i > |a|;
        OccursInSuffix(s, w, i, |a| + 1);
      }
    }
  }

  lemma NoUnderscoreNothing(b: string, h: string)
    requires '_' !in b
    ensures !Contains(b, "_" + h)
  {
    forall i | 0 <= i <= |b| - |"_" + h| ensures !OccursAt(b, "_" + h, i) {
      assert b[i..i + |"_" + h|][0] == b[i];
    }
  }

  lemma PrefixOfEither(h: string, g: string, y: string)
    ensures h <= g + y ==> h <= g || g <= h
  {
    if h <= g + y {
      assert h == (g + y)[..|h|];
    }
  }

  lemma TailApart(k: Kind, h: string, g: string, ts: nat)
    requires PlainName(h) && PlainName(g) && Apart(h, g)
    ensures !(h <= Tail(k, g, ts)) && !Contains(Tail(k, g, ts), "_" + h)
  {
    var t := Tail(k, g, ts);
    if k.Stamped() {
      var d := Decimal(ts) + ".timestamp";
      assert t == g + "_" + d;
      PrefixOfEither(h, g, "_" + d);
      assert t == g + ("_" + d);
      assert !(h <= d);
      UnderscoreStep(g, d, h);
      assert '_' !in Decimal(ts) && '_' !in ".timestamp";
      NoUnderscoreNothing(d, h);
    } else {
      var y := t[|g|..];
      assert t == g + y;
      assert '_' !in t && (y == "" || y[0] == '.');
      PrefixOfEither(h, g, y);
      NoUnderscoreNothing(t, h);
    }
  }

  /** For plain host names, and a prefix and backup names without underscores, prefix-freeness is enough. */
  lemma PlainNamesApart(p: string, n: string, h: string, g: string)
    requires PlainName(h) && PlainName(g) && Apart(h, g)
    requires '_' !in p && '_' !in n
    ensures IndexApart(p, n, h, g)
  {
    forall k, ts ensures !Contains(IndexKey(p, n, k, g, ts), "_" + h) {
      KeyApart(p, n, k, h, g, ts);
    }
  }

  /** And it is needed: plain hosts keep each other's entries exactly when neither name starts the other. */
  lemma PlainNamesExact(p: string, n: string, h: string, g: string)
    requires PlainName(h) && PlainName(g) && h != g && '_' !in p && '_' !in n
    ensures IndexApart(p, n, h, g) && IndexApart(p, n, g, h) <==> Apart(h, g)
  {
    hide PlainName;
    if Apart(h, g) {
      PlainNamesApart(p, n, h, g);
      PlainNamesApart(p, n, g, h);
    } else if h <= g {
      HostPrefixMentions(p, n, Tokenmap, h, g, 0);
    } else {
      HostPrefixMentions(p, n, Tokenmap, g, h, 0);
    }
  }

  lemma KeyApart(p: string, n: string, k: Kind, h: string, g: string, ts: nat)
    requires PlainName(h) && PlainName(g) && Apart(h, g)
    requires '_' !in p && '_' !in n
    ensures !Contains(IndexKey(p, n, k, g, ts), "_" + h)
  {
    var t := Tail(k, g, ts);
    TailApart(k, h, g, ts);
    hide Tail, Contains;
    var b := "index/" + n + "/" + Word(k);
    SplitAtUnderscores(p, n, Word(k), t);
    assert '_' !in "index/" && '_' !in "/";
    assert '_' !in b;
    UnderscoreStep(b, t, h);
    assert '_' !in "index/backup";
    UnderscoreStep(p + "index/backup", b + "_" + t, h);
    assert h <= b + "_" + t ==> h <= "index" by {
      if h <= b + "_" + t {
        assert b + "_" + t == "index" + "/" + (n + "/" + Word(k) + "_" + t) by { SplitAtSlash(n, Word(k), t); }
        WordBeforeSlash(h, "index", n + "/" + Word(k) + "_" + t);
      }
    }
  }

  lemma SplitAtUnderscores(p: string, n: string, w: string, t: string)
    ensures p + "index/backup_index/" + n + "/" + (w + "_" + t) == p + "index/backup" + "_" + ("index/" + n + "/" + w + "_" + t)
  {
    assert "index/backup_index/" == "index/backup" + "_" + "index/";
  }

  lemma SplitAtSlash(n: string, w: string, t: string)
    ensures "index/" + n + "/" + w + "_" + t == "index" + "/" + (n + "/" + w + "_" + t)
  {
    assert "index/" == "index" + "/";
  }

  // ---------------------------------------------------------------- sites as they are by default

  /** A default backup name: twelve digits. */
  predicate DefaultName(n: string) { |n| == 12 && AllDigits(n) }

  lemma DigitsClean(n: string)
    requires n != "" && AllDigits(n)
    ensures Clean(n)
  {
    forall k ensures !Contains(n, Word(k)) { DigitsHideNothing(n, k); }
    forall e | e in EXTENSIONS ensures !Contains(n, e) {
      assert e[0] == '.';
      forall i | 0 <= i <= |n| - |e| ensures !OccursAt(n, e, i) {
        assert n[i..i + |e|][0] == n[i] && IsDigit(n[i]);
      }
    }
  }

  /**
   The naming conditions of all results about purging hold for default backup names and plain,
   prefix-free host names, under any readable prefix without underscores.
   */
  lemma DefaultSiteIsGood(s: Site)
    requires CleanPrefix(s.p) && '_' !in s.p
    requires forall n :: n in s.names ==> DefaultName(n)
    requires forall h :: h in s.hosts ==> Clean(h) && PlainName(h) && GoodHost(s.p, h)
    requires forall h, g :: h in s.hosts && g in s.hosts && h != g ==> Apart(h, g)
    ensures GoodSite(s)
  {
    hide Clean, CleanPrefix, PlainName, IndexApart;
    forall n | n in s.names ensures Clean(n) && Apart(n, "data") && n != "." && '_' !in n {
      DigitsClean(n);
      assert IsDigit(n[0]);
    }
    forall n, m | n in s.names && m in s.names && n != m ensures Apart(n, m) { EqualLengthApart(n, m); }
    forall n, h, g | n in s.names && h in s.hosts && g in s.hosts && h != g ensures IndexApart(s.p, n, h, g) {
      PlainNamesApart(s.p, n, h, g);
    }
  }
}
