/**
 When a download succeeds, that every backup that survives a run of the protocol can be downloaded, and how
 one that has lost its manifest looks.
 */
module Recovery {
  import opened Text
  import opened IndexNames
  import opened ObjectStorage
  import opened Layout
  import opened Purge
  import opened Download
  import opened NodeListing
  import opened PurgeIsolation
  import Protocol
  import Invariant
  import ProtocolSafety
  import Unpurged
  import Verify
  import Content

  lemma {:induction false} FetchSucceeds(st: Store, folder: string, objects: seq<ManifestObject>, files: map<string, Body>)
    ensures Fetch(st, folder, objects, files).Some? <==> forall o :: o in objects ==> o.path in st
  {
    hide Target;
    if objects != [] {
      var rest, last := objects[..|objects| - 1], objects[|objects| - 1];
      assert forall o :: o in objects <==> o in rest || o == last;
      FetchSucceeds(st, folder, rest, files);
    }
  }

  /** Section i is downloaded. */
  predicate Chosen(m: Manifest, fqtns: set<string>, i: nat) {
    i < |m| && m[i].objects != [] && Wanted(fqtns, m[i].keyspace, m[i].columnfamily)
  }

  ghost predicate Folders(dest: string, m: Manifest, fqtns: set<string>, n: nat, folders: set<string>) {
    forall folder :: folder in folders <==> exists i: nat :: i < n && Chosen(m, fqtns, i) && folder == Folder(dest, m[i])
  }

  ghost predicate Complete(st: Store, sec: Section) { forall o :: o in sec.objects ==> o.path in st }

  /** No chosen section among the first n misses an object or shares its folder with an earlier one. */
  ghost predicate Fetchable(st: Store, dest: string, m: Manifest, fqtns: set<string>, n: nat) {
    && (forall i: nat :: i < n && Chosen(m, fqtns, i) ==> Complete(st, m[i]))
    && (forall i: nat, j: nat :: i < j < n && Chosen(m, fqtns, i) && Chosen(m, fqtns, j) ==> Folder(dest, m[i]) != Folder(dest, m[j]))
  }

  lemma SectionSucceeds(st: Store, dest: string, m: Manifest, fqtns: set<string>, n: nat, local: Local)
    requires n < |m| && Folders(dest, m, fqtns, n, local.folders)
    ensures var r := FetchSection(st, dest, m[n], fqtns, local);
            && (r.Some? <==> (Chosen(m, fqtns, n) ==> Complete(st, m[n]) && Folder(dest, m[n]) !in local.folders))
            && (r.Some? ==> Folders(dest, m, fqtns, n + 1, r.value.folders))
  {
    hide Fetch, Folder, Wanted;
    FetchSucceeds(st, Folder(dest, m[n]), m[n].objects, local.files);
  }

  lemma FetchableStep(st: Store, dest: string, m: Manifest, fqtns: set<string>, n: nat, folders: set<string>)
    requires n < |m| && Folders(dest, m, fqtns, n, folders)
    ensures Fetchable(st, dest, m, fqtns, n + 1) <==>
            Fetchable(st, dest, m, fqtns, n) && (Chosen(m, fqtns, n) ==> Complete(st, m[n]) && Folder(dest, m[n]) !in folders)
  {
    hide Folder, Complete, Chosen;
    if Chosen(m, fqtns, n) && Folder(dest, m[n]) in folders {
      var i: nat :| i < n && Chosen(m, fqtns, i) && Folder(dest, m[n]) == Folder(dest, m[i]);
    }
    if Fetchable(st, dest, m, fqtns, n) && (Chosen(m, fqtns, n) ==> Complete(st, m[n]) && Folder(dest, m[n]) !in folders) {
      forall i: nat, j: nat | i < j < n + 1 && Chosen(m, fqtns, i) && Chosen(m, fqtns, j) ensures i < |m| && j < |m| && Folder(dest, m[i]) != Folder(dest, m[j]) {
        ChosenIn(m, fqtns, i);
        if j == n { assert Folder(dest, m[i]) in folders; }
      }
    }
  }

  lemma ChosenIn(m: Manifest, fqtns: set<string>, i: nat)
    requires Chosen(m, fqtns, i)
    ensures i < |m|
  {
  }

  lemma {:induction false} DownloadUpTo(st: Store, dest: string, m: Manifest, fqtns: set<string>, n: nat)
    requires n <= |m|
    ensures var r := FetchUpTo(st, dest, m, fqtns, n);
            (r.Some? <==> Fetchable(st, dest, m, fqtns, n)) && (r.Some? ==> Folders(dest, m, fqtns, n, r.value.folders))
  {
    hide Fetchable, Folders, FetchSection, Chosen;
    if n == 0 {
      NothingChosen(st, dest, m, fqtns);
    } else {
      DownloadUpTo(st, dest, m, fqtns, n - 1);
      var before := FetchUpTo(st, dest, m, fqtns, n - 1);
      if before.Some? {
        SectionSucceeds(st, dest, m, fqtns, n - 1, before.value);
        FetchableStep(st, dest, m, fqtns, n - 1, before.value.folders);
      } else {
        FetchableLess(st, dest, m, fqtns, n);
      }
    }
  }

  lemma NothingChosen(st: Store, dest: string, m: Manifest, fqtns: set<string>)
    ensures Fetchable(st, dest, m, fqtns, 0) && Folders(dest, m, fqtns, 0, {})
  {
  }

  lemma FetchableLess(st: Store, dest: string, m: Manifest, fqtns: set<string>, n: nat)
    requires n > 0
    ensures Fetchable(st, dest, m, fqtns, n) ==> Fetchable(st, dest, m, fqtns, n - 1)
  {
    hide Folder, Complete, Chosen;
  }

  /** A download succeeds if and only if every object asked for is stored, no two folders coincide, and the metadata is there. */
  lemma DownloadSucceedsExactly(st: Store, dest: string, p: string, id: BackupId, m: Manifest, fqtns: set<string>)
    ensures Downloaded(st, dest, p, id, m, fqtns).Some? <==> Fetchable(st, dest, m, fqtns, |m|) && MetaStored(st, p, id)
  {
    DownloadUpTo(st, dest, m, fqtns, |m|);
    hide Fetchable, FetchUpTo, MetaKey, Fetch;
    var tables := FetchUpTo(st, dest, m, fqtns, |m|);
    if tables.Some? {
      FetchSucceeds(st, dest, Metadata(p, id), tables.value.files);
      MetadataStored(st, p, id);
    }
  }

  lemma MetadataStored(st: Store, p: string, id: BackupId)
    ensures (forall o :: o in Metadata(p, id) ==> o.path in st) <==> MetaStored(st, p, id)
  {
    hide MetaKey;
    var objects := Metadata(p, id);
    assert objects[0] in objects && objects[1] in objects && objects[2] in objects;
  }

  ghost predicate DistinctFolders(dest: string, m: Manifest) {
    forall i, j :: 0 <= i < j < |m| ==> Folder(dest, m[i]) != Folder(dest, m[j])
  }

  /**
   After any run of the protocol every complete backup whose purge has not begun can be downloaded, whole
   or in part, provided its sections go to different folders.
   */
  lemma SurvivorsDownload(s: Site, w: Protocol.World, actions: seq<Protocol.Action>, id: BackupId, dest: string, fqtns: set<string>)
    requires GoodSite(s) && Protocol.Initial(w) && Protocol.ValidRun(s, w, actions)
    requires var end := Protocol.After(s, w, actions); id in end.live && DistinctFolders(dest, end.live[id].manifest)
    ensures var end := Protocol.After(s, w, actions); Downloaded(end.store, dest, s.p, id, end.live[id].manifest, fqtns).Some?
  {
    var end := Protocol.After(s, w, actions);
    hide *;
    ProtocolSafety.InitialInv(s, w);
    ProtocolSafety.InvOverRuns(s, w, actions);
    ProtocolSafety.InvIsSafe(s, end);
    Invariant.InvParts(s, end);
    Invariant.LiveParts(s, end);
    Content.LiveMeta(s, end.store, id, end.live[id]);
    SurvivorFetchable(s, end, id, dest, fqtns);
    DownloadSucceedsExactly(end.store, dest, s.p, id, end.live[id].manifest, fqtns);
  }

  lemma SurvivorFetchable(s: Site, w: Protocol.World, id: BackupId, dest: string, fqtns: set<string>)
    requires ProtocolSafety.SurvivorsIntact(s, w) && id in w.live && DistinctFolders(dest, w.live[id].manifest)
    ensures Fetchable(w.store, dest, w.live[id].manifest, fqtns, |w.live[id].manifest|)
  {
    hide Folder, MetaKey, Wanted;
    var m := w.live[id].manifest;
    forall i: nat | i < |m| ensures Complete(w.store, m[i]) {
      forall o | o in m[i].objects ensures o.path in w.store {
        assert m[i] in m;
        assert o.path in ManifestPaths(m);
      }
    }
  }

  // ---------------------------------------------------------------- a purge cut short, seen from outside

  /** The listing of one host, or of all, shows the backup as finished. */
  ghost predicate ShownFinished(st: Store, p: string, id: BackupId, order: seq<string>, fqdn: Option<string>) {
    var r := ListNodeBackups(st, p, order, fqdn);
    r.Listed? && exists nb :: nb in r.backups && nb.id == id && nb.finished.Some?
  }

  lemma ShownMake(st: Store, p: string, id: BackupId, order: seq<string>, fqdn: Option<string>, nb: NodeBackup)
    requires ListNodeBackups(st, p, order, fqdn).Listed? && nb in ListNodeBackups(st, p, order, fqdn).backups
    requires nb.id == id && nb.finished.Some?
    ensures ShownFinished(st, p, id, order, fqdn)
  {
    hide ListNodeBackups;
  }

  /** Removing the manifest leaves every other key of the backup. */
  lemma ManifestAlone(s: Site, id: BackupId, ts: nat)
    requires GoodSite(s) && InSite(s, id)
    ensures var key := MetaKey(s.p, id, "manifest.json");
            && key != MetaKey(s.p, id, "schema.cql")
            && key != IndexedKey(s.p, id, Tokenmap, 0) && key != IndexedKey(s.p, id, Finished, ts)
  {
    hide GoodSite, InSite, Render, MetaKey, IndexedKey;
    var f := Protocol.Meta(id, "manifest.json");
    Invariant.MetaBelongs(id, "manifest.json");
    ProtocolSafety.OwnIsValid(s, id, "manifest.json");
    ProtocolSafety.MetaRenders(s.p, id, "manifest.json");
    ProtocolSafety.MetaRenders(s.p, id, "schema.cql");
    ProtocolSafety.EntryRenders(s.p, Entry(id, Tokenmap, 0));
    ProtocolSafety.EntryRenders(s.p, Entry(id, Finished, ts));
    EntryKeysDiffer(s, id, Tokenmap, 0, f);
    EntryKeysDiffer(s, id, Finished, ts, f);
    SchemaNotManifest(s, id);
  }

  lemma SchemaNotManifest(s: Site, id: BackupId)
    ensures Render(s.p, Protocol.Meta(id, "schema.cql")) != Render(s.p, Protocol.Meta(id, "manifest.json"))
  {
    Invariant.HeadFilesDiffer();
    Invariant.MetaFilesDiffer(id, "schema.cql", "manifest.json");
    hide Render;
    OwnKeysDiffer(s.p, id, "meta/" + "schema.cql", "meta/" + "manifest.json");
  }

  lemma LiveLasts(s: Site, st: Store, id: BackupId, c: Protocol.Complete)
    requires Invariant.LiveOk(s, st, id, c)
    ensures Unpurged.LiveLasts(s, st, id, c)
  {
    hide Invariant.HeadDone, Invariant.DataKey;
  }

  lemma FinishListed(s: Site, st: Store, id: BackupId, ts: nat)
    requires GoodSite(s) && InSite(s, id) && Invariant.Sized(s, st) && IndexedKey(s.p, id, Finished, ts) in st
    ensures IndexedKey(s.p, id, Finished, ts) in ListObjects(st, IndexRoot(s.p))
  {
    ProtocolSafety.EntryRenders(s.p, Entry(id, Finished, ts));
    hide Render, GoodSite, IndexRoot, IndexedKey;
    assert Invariant.Stored(s, st, Entry(id, Finished, ts));
    IndexRootReaches(s, Entry(id, Finished, ts));
  }

  lemma ListedStill(st: Store, key: string, k: string, prefix: string)
    requires k in ListObjects(st, prefix) && k != key
    ensures k in ListObjects(st - {key}, prefix)
  {
  }

  lemma FinishKnown(s: Site, st: Store, id: BackupId, ts: nat)
    requires IndexedKey(s.p, id, Finished, ts) in ListObjects(st, IndexRoot(s.p))
    ensures TimeKnown(s, st, id, Finished, IndexNames.Manifest, MetaKey(s.p, id, "manifest.json"))
  {
    hide IndexedKey, IndexRoot, MetaKey;
  }

  /**
   A purge that stops after the manifest leaves a backup that every listing shows as finished and that
   verifies without an error.
   */
  lemma HalfPurgedVerifies(s: Site, w: Protocol.World, id: BackupId, job: nat, ts: nat, order: seq<string>, fqdn: Option<string>, md5Checks: bool)
    requires GoodSite(s) && Invariant.Inv(s, w) && id in w.live && job !in w.purges && IndexedKey(s.p, id, Finished, ts) in w.store
    requires fqdn == None || fqdn == Some(id.fqdn)
    ensures var key := MetaKey(s.p, id, "manifest.json");
            var actions := [Protocol.PurgeList(job, id), Protocol.PurgeDelete(job, key), Protocol.PurgeEnd(job)];
            && Protocol.PossibleRun(s, w, actions)
            && var st := Protocol.Reached(s, w, actions).store;
               && key !in st
               && (Enumerates(order, ListObjects(st, IndexRoot(s.p))) ==> ShownFinished(st, s.p, id, order, fqdn))
               && Verify.ValidateManifest(st, s.p, id, w.live[id].mode, md5Checks) == {}
  {
    hide *;
    var key, c := MetaKey(s.p, id, "manifest.json"), w.live[id];
    ProtocolSafety.HalfPurged(s, w, id, job, ts);
    var st := w.store - {key};
    Verify.ValidateClean(st, s.p, id, c.mode, md5Checks);
    Invariant.InvParts(s, w);
    Invariant.LiveParts(s, w);
    LiveLasts(s, w.store, id, c);
    Unpurged.LastingListed(s, w.store, id, c);
    ManifestAlone(s, id, ts);
    FinishListed(s, w.store, id, ts);
    ListedStill(w.store, key, IndexedKey(s.p, id, Finished, ts), IndexRoot(s.p));
    ListedStill(w.store, key, IndexedKey(s.p, id, Tokenmap, 0), IndexRoot(s.p));
    StillExists(w.store, s.p, id, key);
    Invariant.GoneShrinks(w.store, {key});
    Invariant.ShrinkKeepsKnown(s, w.store, st);
    ProtocolSafety.KnownIndex(s, st);
    ProtocolSafety.GoodTellsApart(s, st);
    if Enumerates(order, ListObjects(st, IndexRoot(s.p))) {
      ListingRoundTrip(s, st, order, fqdn);
      SelectedBy(s.p, id, fqdn);
      var nb :| nb in ListNodeBackups(st, s.p, order, fqdn).backups && nb.id == id;
      FinishKnown(s, st, id, ts);
      FinishedKnown(s, st, nb);
      ShownMake(st, s.p, id, order, fqdn, nb);
    }
  }

  lemma StillExists(st: Store, p: string, id: BackupId, key: string)
    requires NodeListing.Exists(st, p, id) && key != MetaKey(p, id, "schema.cql")
    ensures NodeListing.Exists(st - {key}, p, id)
  {
    hide MetaKey;
  }
}
