/**
 Staggered backups as runs of the protocol: every backup reads the index, as stagger does, before it starts
 to upload. Which hosts have finished is what list_node_backups says at that moment.
 */
module StaggerRuns {
  import opened Text
  import opened IndexNames
  import opened ObjectStorage
  import opened Layout
  import opened NodeListing
  import opened PurgeIsolation
  import opened Purge
  import opened Ordering
  import opened Ring
  import opened Snapshots
  import opened Manifests
  import opened Stagger
  import opened Protocol
  import opened Invariant
  import opened ProtocolSafety
  import opened AnyRun
  import opened Unpurged
  import Content

  // ---------------------------------------------------------------- the decision, read from the store

  /** any(backup.finished for backup in backups), finish times being positive. */
  predicate AnyFinished(backups: seq<NodeBackup>) { exists nb | nb in backups :: nb.finished.Some? }

  /**
   stagger: the host's own backups are listed, then those of its predecessor. None is an exception; the
   store is what the listings leave.
   */
  function Check(st: Store, p: string, host: string, ring: seq<Node>, own: seq<string>, other: seq<string>): (Option<bool>, Store) {
    match ListNodeBackups(st, p, own, Some(host))
    case Failed => (None, st)
    case Listed(mine, st1) =>
      if AnyFinished(mine) then (Some(true), st1)
      else
        match IndexIn(Order(ring), host)
        case None => (None, st1)
        case Some(i) =>
          if i == 0 then (Some(true), st1)
          else
            match ListNodeBackups(st1, p, other, Some(Order(ring)[i - 1].item.host))
            case Failed => (None, st1)
            case Listed(previous, st2) => (Some(AnyFinished(previous)), st2)
  }

  /** The second listing is taken from the store the first one leaves. */
  ghost predicate SawIndex(st: Store, p: string, host: string, own: seq<string>, other: seq<string>) {
    && Enumerates(own, ListObjects(st, IndexRoot(p)))
    && (ListNodeBackups(st, p, own, Some(host)).Listed? ==>
          Enumerates(other, ListObjects(ListNodeBackups(st, p, own, Some(host)).store, IndexRoot(p))))
  }

  method StaggerHost(storage: ObjectStore, p: string, host: string, ring: seq<Node>)
    returns (r: Option<bool>, ghost own: seq<string>, ghost other: seq<string>)
    modifies storage
    ensures SawIndex(old(storage.blobs), p, host, own, other)
    ensures (r, storage.blobs) == Check(old(storage.blobs), p, host, ring, own, other)
  {
    hide ListNodeBackups, Order, Enumerates, ListObjects;
    other := [];
    var mine;
    mine, own := ListBackups(storage, p, Some(host));
    if mine.None? { return None, own, other; }
    ghost var order := storage.InDriverOrder(ListObjects(storage.blobs, IndexRoot(p)));
    other := order;
    if AnyFinished(mine.value) { return Some(true), own, other; }
    var index := IndexIn(Order(ring), host);
    if index.None? { return None, own, other; }
    if index.value == 0 { return Some(true), own, other; }
    var previous;
    previous, other := ListBackups(storage, p, Some(Order(ring)[index.value - 1].item.host));
    if previous.None? { return None, own, other; }
    r := Some(AnyFinished(previous.value));
  }

  /** The decision is that of Stagger.Passes for the hosts the two listings show as finished. */
  lemma CheckIsPasses(st: Store, p: string, host: string, ring: seq<Node>, own: seq<string>, other: seq<string>, seen: set<string>)
    requires var r := ListNodeBackups(st, p, own, Some(host));
             && r.Listed? && (host in seen <==> AnyFinished(r.backups))
             && forall i: nat :: IndexIn(Order(ring), host) == Some(i) && i > 0 ==>
                  var previous := Order(ring)[i - 1].item.host;
                  var q := ListNodeBackups(r.store, p, other, Some(previous));
                  q.Listed? && (previous in seen <==> AnyFinished(q.backups))
    ensures Check(st, p, host, ring, own, other).0 == Passes(host, ring, seen)
  {
    hide ListNodeBackups, AnyFinished, Order;
    var index := IndexIn(Order(ring), host);
    if index.Some? { assert index == Some(index.value); }
  }

  // ---------------------------------------------------------------- what the listings know

  /** Every manifest and finish entry belongs to a host that has published a manifest. */
  ghost predicate Manifested(s: Site, st: Store, ever: set<string>) {
    && (forall id :: InSite(s, id) && Stored(s, st, Meta(id, "manifest.json")) ==> id.fqdn in ever)
    && (forall id, kind, ts :: InSite(s, id) && (kind == IndexNames.Manifest || kind == Finished) && Stored(s, st, Entry(id, kind, ts))
          ==> id.fqdn in ever)
  }

  lemma ManifestedShrinks(s: Site, st: Store, st': Store, ever: set<string>)
    requires Manifested(s, st, ever) && Shrinks(st, st')
    ensures Manifested(s, st', ever)
  {
    hide Render, Meta;
    forall id, kind, ts | InSite(s, id) && (kind == IndexNames.Manifest || kind == Finished) && Stored(s, st', Entry(id, kind, ts))
      ensures id.fqdn in ever
    {
      assert Stored(s, st, Entry(id, kind, ts));
    }
  }

  lemma ManifestedGrows(s: Site, st: Store, ever: set<string>, more: set<string>)
    requires Manifested(s, st, ever) && ever <= more
    ensures Manifested(s, st, more)
  {
    hide Stored, Meta, InSite;
  }

  lemma PutKeepsManifested(s: Site, st: Store, f: KeyForm, b: Blob, ever: set<string>)
    requires GoodSite(s) && ValidForm(s, f) && Manifested(s, st, ever)
    requires f.Own? && f == Meta(f.id, "manifest.json") ==> f.id.fqdn in ever
    requires f.Entry? && (f.kind == IndexNames.Manifest || f.kind == Finished) ==> f.id.fqdn in ever
    ensures Manifested(s, st[Render(s.p, f) := b], ever)
  {
    hide Render, GoodSite, Meta;
    var st' := st[Render(s.p, f) := b];
    forall id | InSite(s, id) && Stored(s, st', Meta(id, "manifest.json")) ensures id.fqdn in ever {
      if Render(s.p, Meta(id, "manifest.json")) == Render(s.p, f) {
        SameManifestOwner(s, id, f);
        MetaIsOwn(id, "manifest.json");
      }
    }
    forall id, kind, ts | InSite(s, id) && (kind == IndexNames.Manifest || kind == Finished) && Stored(s, st', Entry(id, kind, ts))
      ensures id.fqdn in ever
    {
      if Render(s.p, Entry(id, kind, ts)) == Render(s.p, f) {
        SameEntryOwner(s, id, kind, ts, f);
      }
    }
  }

  lemma KnownManifested(s: Site, st: Store, id: BackupId, ever: set<string>)
    requires Manifested(s, st, ever) && InSite(s, id)
    requires TimeKnown(s, st, id, Finished, IndexNames.Manifest, MetaKey(s.p, id, "manifest.json"))
    ensures id.fqdn in ever
  {
    MetaRenders(s.p, id, "manifest.json");
    EntryRenders(s.p, Entry(id, IndexNames.Manifest, 0));
    forall ts ensures Render(s.p, Entry(id, Finished, ts)) == IndexedKey(s.p, id, Finished, ts) { EntryRenders(s.p, Entry(id, Finished, ts)); }
    hide Render, IndexedKey, MetaKey, Meta, IndexRoot, InSite;
    if ts :| IndexedKey(s.p, id, Finished, ts) in ListObjects(st, IndexRoot(s.p)) {
      assert Stored(s, st, Entry(id, Finished, ts));
    } else if IndexedKey(s.p, id, IndexNames.Manifest, 0) in ListObjects(st, IndexRoot(s.p)) {
      assert Stored(s, st, Entry(id, IndexNames.Manifest, 0));
    } else {
      assert Stored(s, st, Meta(id, "manifest.json"));
    }
  }

  /** A host seen as finished has published a manifest. */
  lemma SeenEver(s: Site, w: World, order: seq<string>, h: string, ever: set<string>)
    requires GoodSite(s) && Inv(s, w) && h in s.hosts && Manifested(s, w.store, ever) && Enumerates(order, ListObjects(w.store, IndexRoot(s.p)))
    ensures var r := ListNodeBackups(w.store, s.p, order, Some(h)); r.Listed? && (AnyFinished(r.backups) ==> h in ever)
  {
    hide *;
    InvParts(s, w);
    KnownIndex(s, w.store);
    GoodTellsApart(s, w.store);
    ListingRoundTrip(s, w.store, order, Some(h));
    var backups := ListNodeBackups(w.store, s.p, order, Some(h)).backups;
    if AnyFinished(backups) {
      var nb := FinishedOne(backups);
      FinishedKnown(s, w.store, nb);
      SelectsExactly(s, h, nb.id);
      KnownManifested(s, w.store, nb.id, ever);
    }
  }

  lemma FinishedOne(backups: seq<NodeBackup>) returns (nb: NodeBackup)
    requires AnyFinished(backups)
    ensures nb in backups && nb.finished.Some?
  {
    nb :| nb in backups && nb.finished.Some?;
  }

  lemma FinishedAny(backups: seq<NodeBackup>, nb: NodeBackup)
    requires nb in backups && nb.finished.Some?
    ensures AnyFinished(backups)
  {
  }

  /** What stagger decides when it lets a host go ahead. */
  lemma CheckPasses(s: Site, w: World, ring: seq<Node>, view: seq<Node>, i: nat, own: seq<string>, other: seq<string>, ever: set<string>)
    requires GoodSite(s) && Inv(s, w) && Manifested(s, w.store, ever) && GoodRing(ring) && ViewOf(ring, view) && Hosts(ring) == s.hosts
    requires i < |Order(ring)| && SawIndex(w.store, s.p, HostAt(ring, i), own, other)
    ensures var r := Check(w.store, s.p, HostAt(ring, i), view, own, other);
            && Inv(s, w.(store := r.1)) && Shrinks(w.store, r.1)
            && r.0.Some? && (r.0.value ==> HostAt(ring, i) in ever || i == 0 || HostAt(ring, i - 1) in ever)
  {
    hide *;
    var h := HostAt(ring, i);
    HostIn(ring, i);
    SawUse(w.store, s.p, h, own, other);
    SeenEver(s, w, own, h, ever);
    ListingKeepsInv(s, w, own, Some(h));
    ListingShrinks(s, w, own, Some(h));
    var st1 := ListNodeBackups(w.store, s.p, own, Some(h)).store;
    var w1 := w.(store := st1);
    ViewGood(ring, view);
    OrderAt(ring, i);
    IndexAt(ring, i);
    CheckFirst(w.store, s.p, h, view, own, other);
    if i > 0 && !AnyFinished(ListNodeBackups(w.store, s.p, own, Some(h)).backups) {
      HostIn(ring, i - 1);
      OrderAt(ring, i - 1);
      ManifestedShrinks(s, w.store, st1, ever);
      SeenEver(s, w1, other, HostAt(ring, i - 1), ever);
      ListingKeepsInv(s, w1, other, Some(HostAt(ring, i - 1)));
      ListingShrinks(s, w1, other, Some(HostAt(ring, i - 1)));
      ShrinksTwice(w.store, st1, ListNodeBackups(st1, s.p, other, Some(HostAt(ring, i - 1))).store);
      CheckSecond(w.store, s.p, h, view, own, other, i);
    }
  }

  lemma SawUse(st: Store, p: string, host: string, own: seq<string>, other: seq<string>)
    requires SawIndex(st, p, host, own, other)
    ensures Enumerates(own, ListObjects(st, IndexRoot(p)))
    ensures ListNodeBackups(st, p, own, Some(host)).Listed? ==>
              Enumerates(other, ListObjects(ListNodeBackups(st, p, own, Some(host)).store, IndexRoot(p)))
  {
    hide Enumerates, ListObjects, ListNodeBackups, IndexRoot;
  }

  lemma ListingShrinks(s: Site, w: World, order: seq<string>, fqdn: Option<string>)
    requires GoodSite(s) && Inv(s, w) && Enumerates(order, ListObjects(w.store, IndexRoot(s.p)))
    ensures var r := ListNodeBackups(w.store, s.p, order, fqdn); r.Listed? && Shrinks(w.store, r.store)
  {
    hide *;
    ListingHarmless(s, w, order, fqdn);
    GoneShrinks(w.store, w.store.Keys - ListNodeBackups(w.store, s.p, order, fqdn).store.Keys);
  }

  lemma ShrinksTwice(a: Store, b: Store, c: Store)
    requires Shrinks(a, b) && Shrinks(b, c)
    ensures Shrinks(a, c)
  {
  }

  lemma ViewGood(ring: seq<Node>, view: seq<Node>)
    requires GoodRing(ring) && ViewOf(ring, view)
    ensures Order(view) == Order(ring)
  {
    hide Order;
    OneOrder(ring, view);
  }

  lemma HostIn(ring: seq<Node>, i: nat)
    requires GoodRing(ring) && i < |Order(ring)|
    ensures HostAt(ring, i) in Hosts(ring)
  {
    hide Sort, LexLe;
    OrderOf(ring);
    assert Order(ring)[i] in Order(ring);
  }

  lemma OrderAt(ring: seq<Node>, i: nat)
    requires i < |Order(ring)|
    ensures Order(ring)[i].item.host == HostAt(ring, i)
  {
    hide Order;
  }

  lemma IndexAt(ring: seq<Node>, i: nat)
    requires GoodRing(ring) && i < |Order(ring)|
    ensures IndexIn(Order(ring), HostAt(ring, i)) == Some(i)
  {
    hide IsOrder, Order;
    OrderOf(ring);
    IndexExact(ring, Order(ring), i);
  }

  lemma CheckFirst(st: Store, p: string, h: string, view: seq<Node>, own: seq<string>, other: seq<string>)
    requires ListNodeBackups(st, p, own, Some(h)).Listed? && IndexIn(Order(view), h).Some?
    ensures var r := ListNodeBackups(st, p, own, Some(h));
            AnyFinished(r.backups) || IndexIn(Order(view), h).value == 0 ==> Check(st, p, h, view, own, other) == (Some(true), r.store)
  {
    hide ListNodeBackups, AnyFinished, IndexIn, Order;
  }

  lemma CheckSecond(st: Store, p: string, h: string, view: seq<Node>, own: seq<string>, other: seq<string>, i: nat)
    requires ListNodeBackups(st, p, own, Some(h)).Listed? && !AnyFinished(ListNodeBackups(st, p, own, Some(h)).backups)
    requires IndexIn(Order(view), h) == Some(i) && 0 < i < |Order(view)|
    requires ListNodeBackups(ListNodeBackups(st, p, own, Some(h)).store, p, other, Some(Order(view)[i - 1].item.host)).Listed?
    ensures var q := ListNodeBackups(ListNodeBackups(st, p, own, Some(h)).store, p, other, Some(Order(view)[i - 1].item.host));
            Check(st, p, h, view, own, other) == (Some(AnyFinished(q.backups)), q.store)
  {
    hide ListNodeBackups, AnyFinished, IndexIn, Order;
  }

  // ---------------------------------------------------------------- staggered runs

  /** passed: backups whose stagger test has succeeded. ever: hosts that have published a manifest at some point. */
  datatype Staggered = Staggered(w: World, passed: set<BackupId>, ever: set<string>)

  datatype Event =
    | Do(a: Action)
    | Test(id: BackupId, view: seq<Node>, own: seq<string>, other: seq<string>)

  ghost predicate Possible(s: Site, ring: seq<Node>, x: Staggered, e: Event) {
    match e
    case Do(a) => Enabled(s, x.w, a) && (a.ListPool? ==> a.id in x.passed)
    case Test(id, view, own, other) =>
      id in x.w.running && x.w.running[id].Starting? && ViewOf(ring, view) && SawIndex(x.w.store, s.p, id.fqdn, own, other)
  }

  ghost function Next(s: Site, x: Staggered, e: Event): Staggered
    requires e.Do? ==> Enabled(s, x.w, e.a)
  {
    match e
    case Do(a) =>
      Staggered(Apply(s, x.w, a),
                if a.ListPool? || a.Begin? || a.Stop? then x.passed - {a.id} else x.passed,
                if a.Publish? then x.ever + {a.id.fqdn} else x.ever)
    case Test(id, view, own, other) =>
      var r := Check(x.w.store, s.p, id.fqdn, view, own, other);
      Staggered(x.w.(store := r.1), if r.0 == Some(true) then x.passed + {id} else x.passed, x.ever)
  }

  ghost predicate StaggeredRun(s: Site, ring: seq<Node>, x: Staggered, events: seq<Event>)
    decreases |events|
  {
    events == [] ||
    (&& Possible(s, ring, x, events[0]) && (events[0].Do? ==> Enabled(s, x.w, events[0].a))
     && StaggeredRun(s, ring, Next(s, x, events[0]), events[1..]))
  }

  ghost function EndOf(s: Site, ring: seq<Node>, x: Staggered, events: seq<Event>): Staggered
    requires StaggeredRun(s, ring, x, events)
    decreases |events|
  {
    if events == [] then x else EndOf(s, ring, Next(s, x, events[0]), events[1..])
  }

  ghost predicate Starts(x: Staggered) { Initial(x.w) && x.passed == {} && x.ever == {} }

  /** The backup may upload, or is uploading. */
  ghost predicate Ahead(x: Staggered, id: BackupId) { id in x.passed || (id in x.w.running && x.w.running[id].Uploading?) }

  ghost predicate AheadOf(x: Staggered, h: string) { exists id: BackupId :: id.fqdn == h && Ahead(x, id) }

  ghost predicate Ordered(ring: seq<Node>, x: Staggered) {
    forall i: nat :: i < |Order(ring)| && (HostAt(ring, i) in x.ever || AheadOf(x, HostAt(ring, i))) ==> EarlierDone(ring, x.ever, i)
  }

  ghost predicate FinishingDone(x: Staggered) { forall id :: id in x.w.running && x.w.running[id].Finishing? ==> id.fqdn in x.ever }

  ghost predicate StaggerInv(s: Site, ring: seq<Node>, x: Staggered) {
    && Inv(s, Shadow(s, x.w)) && Manifested(s, x.w.store, x.ever) && FinishingDone(x) && x.ever <= s.hosts
    && (forall id :: id in x.passed ==> InSite(s, id)) && Ordered(ring, x)
  }

  lemma StaggerParts(s: Site, ring: seq<Node>, x: Staggered)
    ensures StaggerInv(s, ring, x) <==>
            && Inv(s, Shadow(s, x.w)) && Manifested(s, x.w.store, x.ever) && FinishingDone(x) && x.ever <= s.hosts
            && (forall id :: id in x.passed ==> InSite(s, id)) && Ordered(ring, x)
  {
    hide Inv, Manifested, FinishingDone, Ordered, InSite;
  }

  lemma OrderedUse(ring: seq<Node>, x: Staggered, i: nat)
    requires Ordered(ring, x) && i < |Order(ring)|
    ensures HostAt(ring, i) in x.ever || AheadOf(x, HostAt(ring, i)) ==> EarlierDone(ring, x.ever, i)
  {
    hide Order, HostAt, EarlierDone, AheadOf;
  }

  /** Nobody new is ahead, and nobody new has published. */
  lemma StillOrdered(ring: seq<Node>, x: Staggered, y: Staggered)
    requires Ordered(ring, x) && y.ever == x.ever && forall id :: Ahead(y, id) ==> Ahead(x, id)
    ensures Ordered(ring, y)
  {
    hide Order, HostAt, EarlierDone, Ahead;
    forall h | AheadOf(y, h) ensures AheadOf(x, h) {
      var id: BackupId :| id.fqdn == h && Ahead(y, id);
      assert Ahead(x, id);
    }
  }

  lemma PublishOrdered(ring: seq<Node>, x: Staggered, y: Staggered, id: BackupId)
    requires Ordered(ring, x) && Ahead(x, id) && y.ever == x.ever + {id.fqdn} && forall o :: Ahead(y, o) ==> Ahead(x, o)
    ensures Ordered(ring, y)
  {
    hide Order, HostAt, EarlierDone, Ahead;
    assert AheadOf(x, id.fqdn);
    forall h | AheadOf(y, h) ensures AheadOf(x, h) {
      var o: BackupId :| o.fqdn == h && Ahead(y, o);
      assert Ahead(x, o);
    }
    forall i: nat | i < |Order(ring)| && (HostAt(ring, i) in y.ever || AheadOf(y, HostAt(ring, i))) ensures EarlierDone(ring, y.ever, i) {
      assert EarlierDone(ring, x.ever, i);
      EarlierGrows(ring, x.ever, y.ever, i);
    }
  }

  /** A backup that passes the test has all earlier hosts done. */
  lemma PassOrdered(ring: seq<Node>, x: Staggered, y: Staggered, id: BackupId, at: nat)
    requires GoodRing(ring) && Ordered(ring, x) && y.ever == x.ever && at < |Order(ring)| && HostAt(ring, at) == id.fqdn
    requires forall o :: Ahead(y, o) ==> Ahead(x, o) || o == id
    requires HostAt(ring, at) in x.ever || at == 0 || HostAt(ring, at - 1) in x.ever
    ensures Ordered(ring, y)
  {
    hide Order, HostAt, Ahead, GoodRing;
    forall i: nat | i < |Order(ring)| && (HostAt(ring, i) in y.ever || AheadOf(y, HostAt(ring, i))) ensures EarlierDone(ring, y.ever, i) {
      if HostAt(ring, i) == id.fqdn {
        PositionsApart(ring, i, at);
        if HostAt(ring, at) !in x.ever && at > 0 { assert EarlierDone(ring, x.ever, at - 1); }
      } else if HostAt(ring, i) !in y.ever {
        var o: BackupId :| o.fqdn == HostAt(ring, i) && Ahead(y, o);
        assert Ahead(x, o);
        assert AheadOf(x, HostAt(ring, i));
      }
    }
  }

  lemma PossibleUse(s: Site, ring: seq<Node>, x: Staggered, e: Event)
    requires Possible(s, ring, x, e)
    ensures e.Do? ==> Enabled(s, x.w, e.a) && (e.a.ListPool? ==> e.a.id in x.passed)
    ensures e.Test? ==> e.id in x.w.running && ViewOf(ring, e.view) && SawIndex(x.w.store, s.p, e.id.fqdn, e.own, e.other)
  {
    hide Enabled, ViewOf, SawIndex;
  }

  lemma TestStep(s: Site, ring: seq<Node>, x: Staggered, e: Event)
    requires GoodSite(s) && GoodRing(ring) && Hosts(ring) == s.hosts && StaggerInv(s, ring, x) && e.Test? && Possible(s, ring, x, e)
    ensures StaggerInv(s, ring, Next(s, x, e))
  {
    hide *;
    PossibleUse(s, ring, x, e);
    var y := Next(s, x, e);
    TestApplies(s, x, e);
    StaggerParts(s, ring, x);
    ShadowFields(s, x.w);
    InvParts(s, Shadow(s, x.w));
    RunInSite(s, Shadow(s, x.w), e.id);
    Content.InSiteFqdn(s, e.id);
    var at := HostPosition(ring, e.id.fqdn);
    CheckPasses(s, Shadow(s, x.w), ring, e.view, at, e.own, e.other, x.ever);
    ManifestedShrinks(s, x.w.store, y.w.store, x.ever);
    SameFinishing(x, y);
    SameAhead(x, y, if y.passed == x.passed then {} else {e.id});
    if y.passed == x.passed {
      StillOrdered(ring, x, y);
    } else {
      PassOrdered(ring, x, y, e.id, at);
    }
    StaggerParts(s, ring, y);
  }

  lemma TestApplies(s: Site, x: Staggered, e: Event)
    requires e.Test?
    ensures var r := Check(x.w.store, s.p, e.id.fqdn, e.view, e.own, e.other);
            Next(s, x, e) == Staggered(x.w.(store := r.1), if r.0 == Some(true) then x.passed + {e.id} else x.passed, x.ever)
  {
    hide Check;
  }

  lemma SameFinishing(x: Staggered, y: Staggered)
    requires FinishingDone(x) && x.ever <= y.ever && y.w.running == x.w.running
    ensures FinishingDone(y)
  {
  }

  lemma SameAhead(x: Staggered, y: Staggered, more: set<BackupId>)
    requires y.w.running == x.w.running && y.passed <= x.passed + more
    ensures forall id :: Ahead(y, id) ==> Ahead(x, id) || id in more
  {
  }

  // -- the steps of the protocol

  ghost predicate OnlyRestarts(w: World, w': World, a: Action) {
    && (forall id :: id in w'.running && w'.running[id].Uploading? ==>
          (id in w.running && w.running[id].Uploading?) || (a.ListPool? && id == a.id))
    && (forall id :: id in w'.running && w'.running[id].Finishing? ==>
          (id in w.running && w.running[id].Finishing?) || (a.Publish? && id == a.id && id in w.running && w.running[id].Uploading?))
  }

  lemma RestartsOnly(s: Site, w: World, a: Action)
    requires GoodSite(s) && Inv(s, Shadow(s, w)) && Enabled(s, w, a)
    ensures OnlyRestarts(w, Apply(s, w, a), a)
  {
    hide *;
    if a.WriteHead? {
      HeadFields(s, w, a);
    } else if a.Send? {
      SendApplies(s, w, a);
      SentFields(w.running[a.id], a.upload);
    } else if a.Publish? {
      PublishApplies(s, w, a);
    } else if a.WriteTail? {
      TailApplies(s, w, a);
    } else if a.ListPool? {
      ListApplies(s, w, a);
      UploadingFromMode(s, w, a);
    } else if a.SweepList? {
      SweepBegins(s, w, a);
    } else {
      Content.LosesMake(a);
      Content.LosingStep(s, w, a);
      LosingRuns(s, w, a);
    }
    RestartsMake(w, Apply(s, w, a), a);
  }

  lemma LosingRuns(s: Site, w: World, a: Action)
    requires Enabled(s, w, a) && Content.Loses(a) && !a.SweepList?
    ensures var w' := Apply(s, w, a);
            forall id :: id in w'.running && w'.running[id].Finishing? ==> id in w.running && w.running[id].Finishing?
  {
    hide Render, ListObjects, EntryNames, Undisturbed, Alarmed, InSite;
  }

  lemma RestartsMake(w: World, w': World, a: Action)
    requires (forall id :: id in w'.running && w'.running[id].Uploading? ==>
                (id in w.running && w.running[id].Uploading?) || (a.ListPool? && id == a.id))
    requires (forall id :: id in w'.running && w'.running[id].Finishing? ==>
                (id in w.running && w.running[id].Finishing?) || (a.Publish? && id == a.id && id in w.running && w.running[id].Uploading?))
    ensures OnlyRestarts(w, w', a)
  {
  }

  lemma StepAhead(x: Staggered, y: Staggered, a: Action)
    requires OnlyRestarts(x.w, y.w, a) && y.passed <= x.passed && (a.ListPool? ==> a.id in x.passed)
    ensures forall id :: Ahead(y, id) ==> Ahead(x, id)
  {
  }

  lemma StepFinishing(x: Staggered, y: Staggered, a: Action)
    requires OnlyRestarts(x.w, y.w, a) && FinishingDone(x) && x.ever <= y.ever && (a.Publish? ==> a.id.fqdn in y.ever)
    ensures FinishingDone(y)
  {
  }

  /** Writes of manifests and finish entries come from hosts that publish. */
  lemma StepManifested(s: Site, w: World, a: Action, ever: set<string>, more: set<string>)
    requires GoodSite(s) && Inv(s, Shadow(s, w)) && Enabled(s, w, a) && Manifested(s, w.store, ever) && ever <= more
    requires a.Publish? ==> a.id.fqdn in more
    requires a.WriteTail? ==> a.id.fqdn in ever
    ensures Manifested(s, Apply(s, w, a).store, more)
  {
    hide *;
    ManifestedGrows(s, w.store, ever, more);
    if Writes(a) {
      var f, b := OneWrite(s, w, a);
      WrittenParts(s, w, a, f, b);
      PutKeepsManifested(s, w.store, f, b, more);
    } else {
      StepShrinks(s, w, a);
      ManifestedShrinks(s, w.store, Apply(s, w, a).store, more);
    }
  }

  lemma DoApplies(s: Site, x: Staggered, e: Event)
    requires e.Do? && Enabled(s, x.w, e.a)
    ensures var y := Next(s, x, e);
            && y.w == Apply(s, x.w, e.a) && y.passed <= x.passed
            && y.ever == (if e.a.Publish? then x.ever + {e.a.id.fqdn} else x.ever)
  {
    hide Apply, Enabled;
  }

  lemma DoStep(s: Site, ring: seq<Node>, x: Staggered, e: Event)
    requires GoodSite(s) && StaggerInv(s, ring, x) && e.Do? && Possible(s, ring, x, e) && Enabled(s, x.w, e.a)
    ensures StaggerInv(s, ring, Next(s, x, e))
  {
    hide *;
    PossibleUse(s, ring, x, e);
    var a, y := e.a, Next(s, x, e);
    DoApplies(s, x, e);
    StaggerParts(s, ring, x);
    ShadowFields(s, x.w);
    InvParts(s, Shadow(s, x.w));
    ShadowStep(s, x.w, a);
    RestartsOnly(s, x.w, a);
    StepAhead(x, y, a);
    StepFinishing(x, y, a);
    if a.Publish? {
      PublishApplies(s, x.w, a);
      RunInSite(s, Shadow(s, x.w), a.id);
      Content.InSiteFqdn(s, a.id);
      UploadingAhead(x, a.id);
      PublishOrdered(ring, x, y, a.id);
    } else {
      if a.WriteTail? {
        TailApplies(s, x.w, a);
        FinishingEver(x, a.id);
      }
      StillOrdered(ring, x, y);
    }
    StepManifested(s, x.w, a, x.ever, y.ever);
    StaggerParts(s, ring, y);
  }

  lemma UploadingAhead(x: Staggered, id: BackupId)
    requires id in x.w.running && x.w.running[id].Uploading?
    ensures Ahead(x, id)
  {
  }

  lemma FinishingEver(x: Staggered, id: BackupId)
    requires FinishingDone(x) && id in x.w.running && x.w.running[id].Finishing?
    ensures id.fqdn in x.ever
  {
  }

  lemma StaggerStarts(s: Site, ring: seq<Node>, x: Staggered)
    requires Starts(x)
    ensures StaggerInv(s, ring, x)
  {
    ShadowStarts(s, x.w);
    hide Inv, Render, Order, HostAt, Shadow;
  }

  lemma {:induction false} StaggerOverRuns(s: Site, ring: seq<Node>, x: Staggered, events: seq<Event>)
    requires GoodSite(s) && GoodRing(ring) && Hosts(ring) == s.hosts && StaggerInv(s, ring, x) && StaggeredRun(s, ring, x, events)
    ensures StaggerInv(s, ring, EndOf(s, ring, x, events))
    decreases |events|
  {
    hide StaggerInv, Possible, Next, GoodSite, GoodRing, Enabled, Hosts;
    if events != [] {
      if events[0].Do? { DoStep(s, ring, x, events[0]); } else { TestStep(s, ring, x, events[0]); }
      StaggerOverRuns(s, ring, Next(s, x, events[0]), events[1..]);
    }
  }

  // ---------------------------------------------------------------- the results

  /**
   With all nodes staggering on one token order, after any run of backups, crashes, purges and sweeps the
   hosts that have ever completed a backup are the first ones of the order.
   */
  lemma EverFinishedIsPrefix(s: Site, ring: seq<Node>, x: Staggered, events: seq<Event>)
    requires GoodSite(s) && GoodRing(ring) && Hosts(ring) == s.hosts && Starts(x) && StaggeredRun(s, ring, x, events)
    ensures exists n: nat :: IsPrefix(ring, EndOf(s, ring, x, events).ever, n)
  {
    hide *;
    StaggerStarts(s, ring, x);
    StaggerOverRuns(s, ring, x, events);
    var y := EndOf(s, ring, x, events);
    StaggerParts(s, ring, y);
    forall i: nat | i < |Order(ring)| && HostAt(ring, i) in y.ever ensures EarlierDone(ring, y.ever, i) { OrderedUse(ring, y, i); }
    var n := PrefixLength(ring, y.ever, 0);
  }

  /** And at most one host at a time is uploading a backup without having completed any. */
  lemma OneFirstUpload(s: Site, ring: seq<Node>, x: Staggered, events: seq<Event>, a: BackupId, b: BackupId)
    requires GoodSite(s) && GoodRing(ring) && Hosts(ring) == s.hosts && Starts(x) && StaggeredRun(s, ring, x, events)
    requires var y := EndOf(s, ring, x, events);
             && a in y.w.running && y.w.running[a].Uploading? && a.fqdn !in y.ever
             && b in y.w.running && y.w.running[b].Uploading? && b.fqdn !in y.ever
    ensures a.fqdn == b.fqdn
  {
    hide *;
    StaggerStarts(s, ring, x);
    StaggerOverRuns(s, ring, x, events);
    var y := EndOf(s, ring, x, events);
    StaggerParts(s, ring, y);
    ShadowFields(s, y.w);
    InvParts(s, Shadow(s, y.w));
    var i := UploaderAt(s, ring, y, a);
    var j := UploaderAt(s, ring, y, b);
    if i < j {
      EarlierUse(ring, y.ever, j, i);
    } else if j < i {
      EarlierUse(ring, y.ever, i, j);
    }
  }

  lemma UploaderAt(s: Site, ring: seq<Node>, x: Staggered, id: BackupId) returns (i: nat)
    requires GoodRing(ring) && Hosts(ring) == s.hosts && RunsOk(s, Shadow(s, x.w)) && Ordered(ring, x)
    requires id in x.w.running && x.w.running[id].Uploading?
    ensures i < |Order(ring)| && HostAt(ring, i) == id.fqdn && EarlierDone(ring, x.ever, i)
  {
    hide *;
    ShadowFields(s, x.w);
    RunInSite(s, Shadow(s, x.w), id);
    Content.InSiteFqdn(s, id);
    i := HostPosition(ring, id.fqdn);
    UploadingAhead(x, id);
    AheadHost(x, id);
    OrderedUse(ring, x, i);
  }

  lemma AheadHost(x: Staggered, id: BackupId)
    requires Ahead(x, id)
    ensures AheadOf(x, id.fqdn)
  {
    hide Ahead;
  }

  // ---------------------------------------------------------------- without purges

  ghost predicate PurgeFree(events: seq<Event>) { forall e :: e in events && e.Do? ==> !e.a.PurgeList? }

  /** Nothing has been purged, so every host that completed a backup still has one, with all it wrote first. */
  ghost predicate AllKept(s: Site, x: Staggered) {
    && x.w.disturbed == {} && x.w.purges == map[] && AllLast(s, x.w)
    && (forall h :: h in x.ever ==> exists id :: id in x.w.live && id.fqdn == h)
  }

  lemma KeptParts(s: Site, x: Staggered)
    ensures AllKept(s, x) <==>
            && x.w.disturbed == {} && x.w.purges == map[] && AllLast(s, x.w)
            && (forall h :: h in x.ever ==> exists id :: id in x.w.live && id.fqdn == h)
  {
    hide AllLast;
  }

  lemma KeptStep(s: Site, ring: seq<Node>, x: Staggered, e: Event)
    requires GoodSite(s) && GoodRing(ring) && Hosts(ring) == s.hosts && StaggerInv(s, ring, x) && AllKept(s, x) && Possible(s, ring, x, e)
    requires e.Do? ==> Enabled(s, x.w, e.a) && !e.a.PurgeList?
    ensures AllKept(s, Next(s, x, e))
  {
    hide *;
    var y := Next(s, x, e);
    KeptParts(s, x);
    StaggerParts(s, ring, x);
    PossibleUse(s, ring, x, e);
    if e.Test? {
      TestApplies(s, x, e);
      TestCarries(s, ring, x, e);
      StoreCarries(s, x.w, y.w.store);
    } else {
      DoApplies(s, x, e);
      LiveGains(s, x.w, e.a);
      LastingStep(s, x.w, e.a);
      forall h | h in y.ever ensures exists id :: id in y.w.live && id.fqdn == h {
        if h in x.ever {
          var id :| id in x.w.live && id.fqdn == h;
          assert id in y.w.live;
        } else {
          assert e.a.id in y.w.live && e.a.id.fqdn == h;
        }
      }
    }
    KeptParts(s, y);
  }

  /** The listings of a test remove nothing of a backup whose schema is there. */
  lemma TestCarries(s: Site, ring: seq<Node>, x: Staggered, e: Event)
    requires GoodSite(s) && StaggerInv(s, ring, x) && e.Test? && SawIndex(x.w.store, s.p, e.id.fqdn, e.own, e.other)
    ensures Carries(s, x.w.store, Check(x.w.store, s.p, e.id.fqdn, e.view, e.own, e.other).1)
  {
    hide *;
    var st, h := x.w.store, e.id.fqdn;
    StaggerParts(s, ring, x);
    ShadowFields(s, x.w);
    InvParts(s, Shadow(s, x.w));
    SawUse(st, s.p, h, e.own, e.other);
    ListingWhole(s, st, e.own, Some(h));
    ListingShrinks(s, Shadow(s, x.w), e.own, Some(h));
    var st1 := ListNodeBackups(st, s.p, e.own, Some(h)).store;
    ShrinkKeepsKnown(s, st, st1);
    var other := CheckStore(st, s.p, h, e.view, e.own, e.other);
    WholeCarries(s, st, st1);
    CarriesMake(s, st, st1);
    if other.Some? {
      ListingWhole(s, st1, e.other, other);
      var st2 := ListNodeBackups(st1, s.p, e.other, other).store;
      WholeCarries(s, st1, st2);
      CarriesMake(s, st1, st2);
      CarriesTwice(s, st, st1, st2);
    }
  }

  lemma CarriesTwice(s: Site, a: Store, b: Store, c: Store)
    requires Carries(s, a, b) && Carries(s, b, c)
    ensures Carries(s, a, c)
  {
    hide Lasts;
  }

  /** The store a test leaves is that of one listing or of two. */
  lemma CheckStore(st: Store, p: string, host: string, view: seq<Node>, own: seq<string>, other: seq<string>) returns (second: Option<string>)
    requires ListNodeBackups(st, p, own, Some(host)).Listed?
    ensures var st1 := ListNodeBackups(st, p, own, Some(host)).store;
            && (second.None? ==> Check(st, p, host, view, own, other).1 == st1)
            && (second.Some? && ListNodeBackups(st1, p, other, second).Listed? ==>
                  Check(st, p, host, view, own, other).1 == ListNodeBackups(st1, p, other, second).store)
  {
    hide ListNodeBackups, AnyFinished, IndexIn, Order;
    var index := IndexIn(Order(view), host);
    second := None;
    if !AnyFinished(ListNodeBackups(st, p, own, Some(host)).backups) && index.Some? && index.value > 0 {
      second := Some(Order(view)[index.value - 1].item.host);
    }
  }

  lemma LiveGains(s: Site, w: World, a: Action)
    requires Enabled(s, w, a) && !a.PurgeList? && w.disturbed == {} && w.purges == map[]
    ensures var w' := Apply(s, w, a);
            && w'.disturbed == {} && w'.purges == map[]
            && w'.live.Keys == (if a.Publish? then w.live.Keys + {a.id} else w.live.Keys)
  {
    hide Render, Head, Protocol.Tail, CleanupObsolete, ListObjects, EntryNames, InSite, ManifestOf, RunFor, Doomed, BlobOf, Enumerates;
  }

  lemma {:induction false} KeptOverRuns(s: Site, ring: seq<Node>, x: Staggered, events: seq<Event>)
    requires GoodSite(s) && GoodRing(ring) && Hosts(ring) == s.hosts
    requires StaggerInv(s, ring, x) && AllKept(s, x) && StaggeredRun(s, ring, x, events) && PurgeFree(events)
    ensures AllKept(s, EndOf(s, ring, x, events))
    decreases |events|
  {
    hide StaggerInv, AllKept, Possible, Next, Enabled, GoodSite, GoodRing, Hosts;
    if events != [] {
      assert events[0] in events && forall e :: e in events[1..] ==> e in events;
      KeptStep(s, ring, x, events[0]);
      if events[0].Do? { DoStep(s, ring, x, events[0]); } else { TestStep(s, ring, x, events[0]); }
      KeptOverRuns(s, ring, Next(s, x, events[0]), events[1..]);
    }
  }

  /** A host with a backup that has kept its first writes and its manifest is seen as finished. */
  lemma LastingSeen(s: Site, st: Store, order: seq<string>, id: BackupId, c: Complete)
    requires GoodSite(s) && AllKnown(s, st) && LiveLasts(s, st, id, c) && Enumerates(order, ListObjects(st, IndexRoot(s.p)))
    ensures var r := ListNodeBackups(st, s.p, order, Some(id.fqdn)); r.Listed? && AnyFinished(r.backups)
  {
    hide *;
    KnownIndex(s, st);
    GoodTellsApart(s, st);
    ListingRoundTrip(s, st, order, Some(id.fqdn));
    LastingListed(s, st, id, c);
    OwnSelected(s.p, id);
    var backups := ListNodeBackups(st, s.p, order, Some(id.fqdn)).backups;
    var nb :| nb in backups && nb.id == id;
    FinishedKnown(s, st, nb);
    ManifestKnown(s, st, id);
    FinishedAny(backups, nb);
  }

  lemma ManifestKnown(s: Site, st: Store, id: BackupId)
    requires MetaKey(s.p, id, "manifest.json") in st
    ensures TimeKnown(s, st, id, Finished, IndexNames.Manifest, MetaKey(s.p, id, "manifest.json"))
  {
    hide IndexKey, MetaKey, IndexRoot;
  }

  /** While its backups keep what they wrote, the listing of a host tells exactly whether it has completed one. */
  lemma SeenExactly(s: Site, w: World, order: seq<string>, h: string, ever: set<string>)
    requires GoodSite(s) && Inv(s, Shadow(s, w)) && AllLast(s, w) && h in s.hosts && Manifested(s, w.store, ever)
    requires Enumerates(order, ListObjects(w.store, IndexRoot(s.p)))
    requires h in ever ==> exists id :: id in w.live && id.fqdn == h
    ensures var r := ListNodeBackups(w.store, s.p, order, Some(h)); r.Listed? && (AnyFinished(r.backups) <==> h in ever)
  {
    hide *;
    ShadowFields(s, w);
    SeenEver(s, Shadow(s, w), order, h, ever);
    InvParts(s, Shadow(s, w));
    AllParts(s, w);
    if h in ever {
      var id :| id in w.live && id.fqdn == h;
      LastingSeen(s, w.store, order, id, w.live[id]);
    }
  }

  /**
   Without purges, when n hosts have completed a backup, the test succeeds for exactly the first n + 1 hosts
   of the order, read from whatever index the driver lists: the next first backup is that of the least
   unfinished host and of no other, and that host never waits.
   */
  lemma WithoutPurges(s: Site, ring: seq<Node>, x: Staggered, events: seq<Event>, view: seq<Node>, n: nat, i: nat, own: seq<string>, other: seq<string>)
    requires GoodSite(s) && GoodRing(ring) && Hosts(ring) == s.hosts && Starts(x) && StaggeredRun(s, ring, x, events) && PurgeFree(events)
    requires ViewOf(ring, view) && IsPrefix(ring, EndOf(s, ring, x, events).ever, n) && i < |Order(ring)|
    requires SawIndex(EndOf(s, ring, x, events).w.store, s.p, HostAt(ring, i), own, other)
    ensures Check(EndOf(s, ring, x, events).w.store, s.p, HostAt(ring, i), view, own, other).0 == Some(i <= n)
  {
    hide *;
    StaggerStarts(s, ring, x);
    StaggerOverRuns(s, ring, x, events);
    KeptStarts(s, x);
    KeptOverRuns(s, ring, x, events);
    var y := EndOf(s, ring, x, events);
    StaggerParts(s, ring, y);
    KeptParts(s, y);
    var w, h := y.w, HostAt(ring, i);
    ShadowFields(s, w);
    HostIn(ring, i);
    SawUse(w.store, s.p, h, own, other);
    SeenExactly(s, w, own, h, y.ever);
    ViewGood(ring, view);
    OrderAt(ring, i);
    IndexAt(ring, i);
    PrefixUse(ring, y.ever, n, i);
    CheckFirst(w.store, s.p, h, view, own, other);
    if i > 0 && h !in y.ever {
      var st1 := ListNodeBackups(w.store, s.p, own, Some(h)).store;
      var w1 := w.(store := st1);
      HostIn(ring, i - 1);
      OrderAt(ring, i - 1);
      PrefixUse(ring, y.ever, n, i - 1);
      ListingKeepsInv(s, Shadow(s, w), own, Some(h));
      ListingShrinks(s, Shadow(s, w), own, Some(h));
      ManifestedShrinks(s, w.store, st1, y.ever);
      InvParts(s, Shadow(s, w));
      ListingWhole(s, w.store, own, Some(h));
      WholeCarries(s, w.store, st1);
      CarriesMake(s, w.store, st1);
      StoreCarries(s, w, st1);
      SeenExactly(s, w1, other, HostAt(ring, i - 1), y.ever);
      CheckSecond(w.store, s.p, h, view, own, other, i);
    }
  }

  lemma PrefixUse(ring: seq<Node>, done: set<string>, n: nat, i: nat)
    requires IsPrefix(ring, done, n) && i < |Order(ring)|
    ensures HostAt(ring, i) in done <==> i < n
  {
    hide Order, HostAt;
  }

  lemma KeptStarts(s: Site, x: Staggered)
    requires Starts(x)
    ensures AllKept(s, x)
  {
    hide LiveLasts, RunLasts;
  }
}
