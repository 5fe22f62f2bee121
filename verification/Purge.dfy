/**
 Purging node backups and sweeping the differential data pool: every pool object that no
 complete differential backup's manifest names and that is past the grace period goes.
 */
module Purge {
  import opened Text
  import opened IndexNames
  import opened ObjectStorage
  import opened Layout
  import opened NodeListing

  const SECONDS_PER_DAY: nat := 86400

  /** Objects modified at or before this moment are past the grace period. */
  function Cutoff(now: int, graceDays: int): int { now - graceDays * SECONDS_PER_DAY }

  /** purge_backup: the backup's listing, then its index entries. */
  function PurgeOne(st: Store, p: string, id: BackupId): Store {
    CleanIndex(st - ListObjects(st, BackupPath(p, id)), p, id)
  }

  function PurgeEach(st: Store, p: string, ids: seq<BackupId>): Store
    decreases |ids|
  {
    if ids == [] then st else PurgeEach(PurgeOne(st, p, ids[0]), p, ids[1..])
  }

  function ManifestPaths(m: Manifest): set<string> {
    set s, o | s in m && o in s.objects :: o.path
  }

  /** The mark phase. None is a manifest that is not JSON, which aborts the sweep. */
  function MarkedPaths(st: Store, p: string, backups: seq<NodeBackup>): Option<set<string>> {
    if backups == [] then Some({})
    else
      match MarkedPaths(st, p, backups[1..])
      case None => None
      case Some(rest) =>
        var key := MetaKey(p, backups[0].id, "manifest.json");
        if !backups[0].differential || key !in st then Some(rest)
        else
          match st[key].body
          case Doc(m) => Some(rest + ManifestPaths(m))
          case Raw(_) => None
  }

  function Unmarked(st: Store, p: string, fqdn: string, marked: set<string>): set<string> {
    ListObjects(st, PoolPath(p, fqdn)) - marked
  }

  function Doomed(st: Store, p: string, fqdn: string, marked: set<string>, cutoff: int): set<string> {
    set k | k in Unmarked(st, p, fqdn, marked) && k in st && st[k].mtime <= cutoff
  }

  datatype Cleanup = Aborted(store: Store) | Cleaned(store: Store, before: Store, marked: set<string>)

  /** cleanup_obsolete_files, for one driver order of the index. */
  function CleanupObsolete(st: Store, p: string, order: seq<string>, fqdn: string, cutoff: int): Cleanup {
    match ListNodeBackups(st, p, order, Some(fqdn))
    case Failed => Aborted(st)
    case Listed(backups, st1) =>
      match MarkedPaths(st1, p, backups)
      case None => Aborted(st1)
      case Some(marked) => Cleaned(st1 - Doomed(st1, p, fqdn, marked, cutoff), st1, marked)
  }

  // ---------------------------------------------------------------- accounting

  function NonIndex(st: Store, p: string): set<string> {
    set k | k in st && !(IndexRoot(p) <= k)
  }

  /** Count and bytes of the non-index part, which the purge statistics must account for. */
  ghost predicate Accounted(st: Store, st': Store, p: string, count: nat, size: nat) {
    && NonIndex(st', p) <= NonIndex(st, p)
    && NonIndex(st, p) <= st.Keys && NonIndex(st', p) <= st'.Keys
    && count + |NonIndex(st', p)| == |NonIndex(st, p)|
    && size + SizeOf(st', NonIndex(st', p)) == SizeOf(st, NonIndex(st, p))
  }

  lemma AccountedTransitive(a: Store, b: Store, c: Store, p: string, n1: nat, s1: nat, n2: nat, s2: nat)
    requires Accounted(a, b, p, n1, s1) && Accounted(b, c, p, n2, s2)
    ensures Accounted(a, c, p, n1 + n2, s1 + s2)
  {
  }

  lemma AccountedRemoval(st: Store, p: string, gone: set<string>)
    requires gone <= NonIndex(st, p)
    ensures gone <= st.Keys && Accounted(st, st - gone, p, |gone|, SizeOf(st, gone))
  {
    var a, b := NonIndex(st, p), NonIndex(st - gone, p);
    assert b == a - gone;
    SizeOfSplit(st, a, gone);
    SizeOfSame(st, st - gone, b);
  }

  lemma AccountedIndexOnly(st: Store, st': Store, p: string)
    requires st'.Keys <= st.Keys
    requires forall k :: k in st && !(IndexRoot(p) <= k) ==> k in st'
    requires forall k :: k in st' ==> st[k] == st'[k]
    ensures Accounted(st, st', p, 0, 0)
  {
    assert NonIndex(st, p) == NonIndex(st', p);
    SizeOfSame(st, st', NonIndex(st, p));
  }

  // ---------------------------------------------------------------- the methods

  lemma {:induction false} EnumerationLength(order: seq<string>, keys: set<string>)
    requires Enumerates(order, keys)
    ensures |order| == |keys|
  {
    if order == [] {
      assert keys == {};
    } else {
      var rest := keys - {order[0]};
      assert order == [order[0]] + order[1..];
      assert Enumerates(order[1..], rest);
      EnumerationLength(order[1..], rest);
    }
  }

  function Names(names: seq<string>): set<string> { set k | k in names }

  function Without(start: Store, names: seq<string>): Store { start - Names(names) }

  ghost function Bytes(start: Store, names: seq<string>): nat
    requires Names(names) <= start.Keys
  {
    SizeOf(start, Names(names))
  }

  lemma DeleteStep(start: Store, names: seq<string>, i: nat)
    requires i < |names| && Names(names) <= start.Keys
    requires forall a, b :: 0 <= a < b < |names| ==> names[a] != names[b]
    ensures Names(names[..i]) <= start.Keys && Names(names[..i + 1]) <= start.Keys
    ensures names[i] in Without(start, names[..i]) && Without(start, names[..i])[names[i]] == start[names[i]]
    ensures Without(start, names[..i + 1]) == Without(start, names[..i]) - {names[i]}
    ensures |Names(names[..i + 1])| == |Names(names[..i])| + 1
    ensures Bytes(start, names[..i + 1]) == Bytes(start, names[..i]) + start[names[i]].size
  {
    var before, after := Names(names[..i]), Names(names[..i + 1]);
    assert names[..i + 1] == names[..i] + [names[i]];
    assert forall k :: k in names[..i] ==> k in names;
    assert names[i] !in names[..i];
    assert after == before + {names[i]};
    SizeOfRemove(start, after, names[i]);
    assert after - {names[i]} == before;
  }

  lemma NoneDeleted(st: Store)
    ensures Names([]) == {} && Without(st, []) == st && Names([]) <= st.Keys && Bytes(st, []) == 0
  {
  }

  /** Deletes every listed object, counting objects and bytes. */
  method DeleteListed(storage: ObjectStore, names: seq<string>) returns (count: nat, size: nat)
    requires Names(names) <= storage.blobs.Keys
    requires forall i, j :: 0 <= i < j < |names| ==> names[i] != names[j]
    modifies storage
    ensures storage.blobs == Without(old(storage.blobs), names)
    ensures count == |Names(names)| && size == Bytes(old(storage.blobs), names)
  {
    hide Names, Bytes, Without;
    ghost var start := storage.blobs;
    count, size := 0, 0;
    var i := 0;
    NoneDeleted(start);
    assert names[..0] == [];
    while i < |names|
      invariant 0 <= i <= |names|
      invariant Names(names[..i]) <= start.Keys
      invariant storage.blobs == Without(start, names[..i])
      invariant count == |Names(names[..i])| && size == Bytes(start, names[..i])
    {
      DeleteStep(start, names, i);
      count, size := count + 1, size + storage.blobs[names[i]].size;
      storage.Delete(names[i]);
      i := i + 1;
    }
    assert names[..i] == names;
  }

  method PurgeBackup(storage: ObjectStore, p: string, id: BackupId) returns (count: nat, size: nat)
    modifies storage
    ensures storage.blobs == PurgeOne(old(storage.blobs), p, id)
    ensures PlainHost(id.fqdn) ==> Accounted(old(storage.blobs), storage.blobs, p, count, size)
  {
    ghost var start := storage.blobs;
    var names := storage.List(BackupPath(p, id));
    ghost var gone := ListObjects(start, BackupPath(p, id));
    assert Names(names) == gone;
    count, size := DeleteListed(storage, names);
    ghost var middle := storage.blobs;
    CleanBackupFromIndex(storage, p, id);
    if PlainHost(id.fqdn) {
      forall k | k in gone ensures k in NonIndex(start, p) { NeverIndex(p, id.fqdn, id.name, k); }
      AccountedRemoval(start, p, gone);
      CleanIndexOnlyIndex(middle, p, id);
      AccountedIndexOnly(middle, storage.blobs, p);
      AccountedTransitive(start, middle, storage.blobs, p, count, size, 0, 0);
    }
  }

  /** get_file_paths_from_manifests_for_complete_differential_backups. */
  method CollectMarked(storage: ObjectStore, p: string, backups: seq<NodeBackup>) returns (r: Option<set<string>>)
    ensures r == MarkedPaths(storage.blobs, p, backups)
  {
    hide MetaKey, ManifestPaths;
    r := Some({});
    var i := |backups|;
    assert backups[i..] == [];
    while i > 0
      invariant 0 <= i <= |backups|
      invariant r == MarkedPaths(storage.blobs, p, backups[i..])
      invariant r.Some?
    {
      i := i - 1;
      assert backups[i..][1..] == backups[i + 1..];
      var key := MetaKey(p, backups[i].id, "manifest.json");
      if backups[i].differential && key in storage.blobs {
        match storage.blobs[key].body
        case Doc(m) => r := Some(r.value + ManifestPaths(m));
        case Raw(_) =>
          NoneStays(storage.blobs, p, backups, i);
          return None;
      }
    }
    assert backups[0..] == backups;
  }

  lemma {:induction false} NoneStays(st: Store, p: string, backups: seq<NodeBackup>, i: nat)
    requires i <= |backups| && MarkedPaths(st, p, backups[i..]).None?
    ensures MarkedPaths(st, p, backups).None?
  {
    hide MetaKey, ManifestPaths;
    if i == 0 {
      assert backups[0..] == backups;
    } else {
      assert backups[1..][i - 1..] == backups[i..];
      NoneStays(st, p, backups[1..], i - 1);
    }
  }

  /** The statistics are returned only when neither listing nor a manifest aborts the sweep. */
  method CleanupObsoleteFiles(storage: ObjectStore, p: string, fqdn: string, cutoff: int)
    returns (ok: bool, count: nat, size: nat, withinGrace: nat, ghost order: seq<string>)
    modifies storage
    ensures Enumerates(order, ListObjects(old(storage.blobs), IndexRoot(p)))
    ensures var c := CleanupObsolete(old(storage.blobs), p, order, fqdn, cutoff);
            && storage.blobs == c.store && (ok <==> c.Cleaned?)
            && (ok ==> withinGrace == Spared(c, p, fqdn, cutoff))
    ensures ok && PlainHost(fqdn) ==> Accounted(old(storage.blobs), storage.blobs, p, count, size)
  {
    ghost var start := storage.blobs;
    var backups;
    backups, order := ListBackups(storage, p, Some(fqdn));
    count, size, withinGrace := 0, 0, 0;
    if backups.None? {
      return false, 0, 0, 0, order;
    }
    var marked := CollectMarked(storage, p, backups.value);
    if marked.None? {
      return false, 0, 0, 0, order;
    }
    ok := true;
    ghost var before := storage.blobs;
    var candidates, doomed := SelectDoomed(storage, p, fqdn, marked.value, cutoff);
    assert Names(doomed) == Doomed(before, p, fqdn, marked.value, cutoff);
    assert Names(candidates) == Unmarked(before, p, fqdn, marked.value);
    count, size := DeleteListed(storage, doomed);
    withinGrace := |Names(candidates) - Names(doomed)|;
    if PlainHost(fqdn) {
      SweepAccounts(start, before, p, fqdn, order, marked.value, cutoff);
    }
  }

  lemma SweepAccounts(start: Store, before: Store, p: string, fqdn: string, order: seq<string>, marked: set<string>, cutoff: int)
    requires PlainHost(fqdn)
    requires ListNodeBackups(start, p, order, Some(fqdn)).Listed? && ListNodeBackups(start, p, order, Some(fqdn)).store == before
    ensures var gone := Doomed(before, p, fqdn, marked, cutoff);
            gone <= before.Keys && Accounted(start, before - gone, p, |gone|, SizeOf(before, gone))
  {
    hide Emit, ReadEntries, Malformed, Accounted, CleanIndex, IndexRoot;
    var gone := Doomed(before, p, fqdn, marked, cutoff);
    var nbs := ReadEntries(start, p, order, Tokenmaps(order, Some(fqdn))).value;
    EmitOnlyIndex(start, p, SortByStart(nbs), false);
    AccountedIndexOnly(start, before, p);
    forall k | k in gone ensures k in NonIndex(before, p) { NeverIndex(p, fqdn, "data", k); }
    AccountedRemoval(before, p, gone);
    AccountedTransitive(start, before, before - gone, p, 0, 0, |gone|, SizeOf(before, gone));
  }

  /** filter_files_within_gc_grace over the unreferenced objects of the pool listing. */
  method SelectDoomed(storage: ObjectStore, p: string, fqdn: string, marked: set<string>, cutoff: int)
    returns (candidates: seq<string>, doomed: seq<string>)
    ensures Enumerates(candidates, Unmarked(storage.blobs, p, fqdn, marked))
    ensures Enumerates(doomed, Doomed(storage.blobs, p, fqdn, marked, cutoff))
  {
    var listing := storage.List(PoolPath(p, fqdn));
    candidates, doomed := [], [];
    var i := 0;
    while i < |listing|
      invariant 0 <= i <= |listing|
      invariant forall k :: k in candidates <==> k in listing[..i] && k !in marked
      invariant forall k :: k in doomed <==> k in candidates && k in storage.blobs && storage.blobs[k].mtime <= cutoff
      invariant forall a, b :: 0 <= a < b < |candidates| ==> candidates[a] != candidates[b]
      invariant forall a, b :: 0 <= a < b < |doomed| ==> doomed[a] != doomed[b]
    {
      var k := listing[i];
      assert k !in listing[..i];
      if k !in marked {
        candidates := candidates + [k];
        if storage.blobs[k].mtime <= cutoff {
          doomed := doomed + [k];
        }
      }
      i := i + 1;
    }
    assert listing[..i] == listing;
    assert forall a :: 0 <= a < |candidates| ==> candidates[a] in candidates;
    assert forall a :: 0 <= a < |doomed| ==> doomed[a] in doomed;
  }

  /** One sweep of a host, with the driver order its index listing had. */
  datatype Pass = Pass(fqdn: string, order: seq<string>)

  /** purge_backups from the first sweep on; a failing sweep ends it. */
  function SweepAll(st: Store, p: string, passes: seq<Pass>, cutoff: int): Cleanup
    decreases |passes|
  {
    if passes == [] then Cleaned(st, st, {})
    else
      var c := CleanupObsolete(st, p, passes[0].order, passes[0].fqdn, cutoff);
      if c.Aborted? then c else SweepAll(c.store, p, passes[1..], cutoff)
  }

  /** Unreferenced objects of the pool that a finished sweep left because of the grace period. */
  ghost function Spared(c: Cleanup, p: string, fqdn: string, cutoff: int): nat {
    if c.Aborted? then 0 else |Unmarked(c.before, p, fqdn, c.marked) - Doomed(c.before, p, fqdn, c.marked, cutoff)|
  }

  /** These are the listed objects that nothing names and that are younger than the cutoff. */
  lemma SparedExact(c: Cleanup, p: string, fqdn: string, cutoff: int)
    requires c.Cleaned?
    ensures Spared(c, p, fqdn, cutoff)
            == |set k | k in c.before && PoolPath(p, fqdn) <= k && c.before[k].size > 0 && k !in c.marked && c.before[k].mtime > cutoff|
  {
    hide PoolPath;
    assert Unmarked(c.before, p, fqdn, c.marked) - Doomed(c.before, p, fqdn, c.marked, cutoff)
        == set k | k in c.before && PoolPath(p, fqdn) <= k && c.before[k].size > 0 && k !in c.marked && c.before[k].mtime > cutoff;
  }

  ghost function SparedByAll(st: Store, p: string, passes: seq<Pass>, cutoff: int): nat
    decreases |passes|
  {
    if passes == [] then 0
    else
      var c := CleanupObsolete(st, p, passes[0].order, passes[0].fqdn, cutoff);
      Spared(c, p, passes[0].fqdn, cutoff) + SparedByAll(c.store, p, passes[1..], cutoff)
  }

  lemma {:induction false} SparedAppend(st: Store, p: string, passes: seq<Pass>, last: Pass, cutoff: int)
    requires SweepAll(st, p, passes, cutoff).Cleaned?
    ensures SparedByAll(st, p, passes + [last], cutoff)
            == SparedByAll(st, p, passes, cutoff)
               + Spared(CleanupObsolete(SweepAll(st, p, passes, cutoff).store, p, last.order, last.fqdn, cutoff), p, last.fqdn, cutoff)
    decreases |passes|
  {
    hide CleanupObsolete, Spared;
    if passes == [] {
      assert passes + [last] == [last];
      assert [last][1..] == [];
    } else {
      assert (passes + [last])[1..] == passes[1..] + [last] && (passes + [last])[0] == passes[0];
      SparedAppend(CleanupObsolete(st, p, passes[0].order, passes[0].fqdn, cutoff).store, p, passes[1..], last, cutoff);
    }
  }

  /** Each sweep saw the index as its driver listed it at that moment. */
  ghost predicate Enumerated(st: Store, p: string, passes: seq<Pass>, cutoff: int)
    decreases |passes|
  {
    passes == [] ||
    (&& Enumerates(passes[0].order, ListObjects(st, IndexRoot(p)))
     && Enumerated(CleanupObsolete(st, p, passes[0].order, passes[0].fqdn, cutoff).store, p, passes[1..], cutoff))
  }

  lemma {:induction false} EnumeratedAppend(st: Store, p: string, passes: seq<Pass>, last: Pass, cutoff: int)
    requires Enumerated(st, p, passes, cutoff) && SweepAll(st, p, passes, cutoff).Cleaned?
    requires Enumerates(last.order, ListObjects(SweepAll(st, p, passes, cutoff).store, IndexRoot(p)))
    ensures Enumerated(st, p, passes + [last], cutoff)
    decreases |passes|
  {
    hide CleanupObsolete, Enumerates, ListObjects, IndexRoot;
    if passes == [] {
      assert passes + [last] == [last];
      assert [last][1..] == [];
    } else {
      assert (passes + [last])[1..] == passes[1..] + [last] && (passes + [last])[0] == passes[0];
      EnumeratedAppend(CleanupObsolete(st, p, passes[0].order, passes[0].fqdn, cutoff).store, p, passes[1..], last, cutoff);
    }
  }

  lemma {:induction false} SweepAllAppend(st: Store, p: string, passes: seq<Pass>, last: Pass, cutoff: int)
    ensures SweepAll(st, p, passes + [last], cutoff)
            == var c := SweepAll(st, p, passes, cutoff);
               if c.Aborted? then c
               else
                 var d := CleanupObsolete(c.store, p, last.order, last.fqdn, cutoff);
                 if d.Aborted? then d else Cleaned(d.store, d.store, {})
    decreases |passes|
  {
    hide CleanupObsolete;
    if passes == [] {
      assert passes + [last] == [last];
      assert [last][1..] == [];
    } else {
      assert (passes + [last])[1..] == passes[1..] + [last];
      var c := CleanupObsolete(st, p, passes[0].order, passes[0].fqdn, cutoff);
      if c.Cleaned? {
        SweepAllAppend(c.store, p, passes[1..], last, cutoff);
      }
    }
  }

  lemma {:induction false} PurgeEachAppend(st: Store, p: string, ids: seq<BackupId>, id: BackupId)
    ensures PurgeEach(st, p, ids + [id]) == PurgeOne(PurgeEach(st, p, ids), p, id)
    decreases |ids|
  {
    hide PurgeOne;
    if ids == [] {
      assert ids + [id] == [id];
      assert [id][1..] == [];
    } else {
      assert (ids + [id])[1..] == ids[1..] + [id];
      PurgeEachAppend(PurgeOne(st, p, ids[0]), p, ids[1..], id);
    }
  }

  function HostsOf(ids: seq<BackupId>, local: string): set<string> {
    if ids == [] then {local} else set id | id in ids :: id.fqdn
  }

  /** The purge loop alone. */
  method PurgeSelected(storage: ObjectStore, p: string, ids: seq<BackupId>) returns (count: nat, size: nat)
    modifies storage
    ensures storage.blobs == PurgeEach(old(storage.blobs), p, ids)
    ensures (forall id :: id in ids ==> PlainHost(id.fqdn)) ==> Accounted(old(storage.blobs), storage.blobs, p, count, size)
  {
    hide PurgeOne, Accounted;
    count, size := 0, 0;
    ghost var start := storage.blobs;
    AccountedIndexOnly(start, start, p);
    var i := 0;
    while i < |ids|
      invariant 0 <= i <= |ids|
      invariant storage.blobs == PurgeEach(start, p, ids[..i])
      invariant (forall id :: id in ids ==> PlainHost(id.fqdn)) ==> Accounted(start, storage.blobs, p, count, size)
    {
      ghost var before := storage.blobs;
      var c, s := PurgeBackup(storage, p, ids[i]);
      assert ids[..i + 1] == ids[..i] + [ids[i]];
      PurgeEachAppend(start, p, ids[..i], ids[i]);
      if forall id :: id in ids ==> PlainHost(id.fqdn) {
        assert ids[i] in ids;
        AccountedTransitive(start, before, storage.blobs, p, count, size, c, s);
      }
      count := count + c;
      size := size + s;
      i := i + 1;
    }
    assert ids[..i] == ids;
  }

  ghost predicate AllPlain(hosts: set<string>) { forall h :: h in hosts ==> PlainHost(h) }

  function PassHosts(passes: seq<Pass>): set<string> { set x | x in passes :: x.fqdn }

  lemma PassHostsAppend(passes: seq<Pass>, last: Pass)
    ensures PassHosts(passes + [last]) == PassHosts(passes) + {last.fqdn}
  {
    forall h | h in PassHosts(passes) + {last.fqdn} ensures h in PassHosts(passes + [last]) {
      if h == last.fqdn {
        assert last in passes + [last];
      } else {
        var x :| x in passes && x.fqdn == h;
        assert x in passes + [last];
      }
    }
  }

  /** Progress of the sweeps over a set of hosts. */
  ghost predicate Sweeping(start: Store, st: Store, p: string, passes: seq<Pass>, cutoff: int, done: set<string>, count: nat, size: nat, grace: nat) {
    && SweepAll(start, p, passes, cutoff).Cleaned?
    && st == SweepAll(start, p, passes, cutoff).store
    && PassHosts(passes) == done
    && Enumerated(start, p, passes, cutoff)
    && grace == SparedByAll(start, p, passes, cutoff)
    && (AllPlain(done) ==> Accounted(start, st, p, count, size))
  }

  lemma SweepingStarts(start: Store, p: string, cutoff: int)
    ensures Sweeping(start, start, p, [], cutoff, {}, 0, 0, 0)
  {
    AccountedIndexOnly(start, start, p);
  }

  lemma SweepingStep(start: Store, st: Store, p: string, passes: seq<Pass>, cutoff: int, done: set<string>, count: nat, size: nat, grace: nat,
                     pass: Pass, c: nat, s: nat)
    requires Sweeping(start, st, p, passes, cutoff, done, count, size, grace)
    requires Enumerates(pass.order, ListObjects(st, IndexRoot(p)))
    ensures var r := CleanupObsolete(st, p, pass.order, pass.fqdn, cutoff);
            var all := SweepAll(start, p, passes + [pass], cutoff);
            && all.store == r.store && (all.Cleaned? <==> r.Cleaned?)
            && PassHosts(passes + [pass]) == done + {pass.fqdn}
            && Enumerated(start, p, passes + [pass], cutoff)
            && (r.Cleaned? && (PlainHost(pass.fqdn) ==> Accounted(st, r.store, p, c, s)) ==>
                  Sweeping(start, r.store, p, passes + [pass], cutoff, done + {pass.fqdn}, count + c, size + s,
                           grace + Spared(r, p, pass.fqdn, cutoff)))
  {
    hide Accounted, CleanupObsolete, PlainHost, PassHosts, Enumerates, Enumerated, SweepAll, ListObjects, IndexRoot, Spared, SparedByAll;
    SweepAllAppend(start, p, passes, pass, cutoff);
    EnumeratedAppend(start, p, passes, pass, cutoff);
    SparedAppend(start, p, passes, pass, cutoff);
    PassHostsAppend(passes, pass);
    var r := CleanupObsolete(st, p, pass.order, pass.fqdn, cutoff);
    if r.Cleaned? && (PlainHost(pass.fqdn) ==> Accounted(st, r.store, p, c, s)) && AllPlain(done + {pass.fqdn}) {
      AccountedTransitive(start, st, r.store, p, count, size, c, s);
    }
  }

  lemma SweepingEnds(start: Store, st: Store, p: string, passes: seq<Pass>, cutoff: int, done: set<string>, count: nat, size: nat, grace: nat)
    requires Sweeping(start, st, p, passes, cutoff, done, count, size, grace)
    ensures grace == SparedByAll(start, p, passes, cutoff)
    ensures SweepAll(start, p, passes, cutoff).Cleaned? && st == SweepAll(start, p, passes, cutoff).store
    ensures PassHosts(passes) == done && Enumerated(start, p, passes, cutoff)
    ensures AllPlain(done) ==> Accounted(start, st, p, count, size)
  {
  }

  /** The sweeps of purge_backups, over a set of hosts in any order; a failing one ends them. */
  method SweepHosts(storage: ObjectStore, p: string, fqdns: set<string>, cutoff: int)
    returns (ok: bool, count: nat, size: nat, withinGrace: nat, ghost passes: seq<Pass>)
    modifies storage
    ensures storage.blobs == SweepAll(old(storage.blobs), p, passes, cutoff).store
    ensures ok <==> SweepAll(old(storage.blobs), p, passes, cutoff).Cleaned?
    ensures PassHosts(passes) <= fqdns && (ok ==> PassHosts(passes) == fqdns)
    ensures Enumerated(old(storage.blobs), p, passes, cutoff)
    ensures ok ==> withinGrace == SparedByAll(old(storage.blobs), p, passes, cutoff)
    ensures ok && AllPlain(fqdns) ==> Accounted(old(storage.blobs), storage.blobs, p, count, size)
  {
    hide *;
    ghost var start := storage.blobs;
    count, size, withinGrace, passes, ok := 0, 0, 0, [], true;
    var todo := fqdns;
    SweepingStarts(start, p, cutoff);
    assert fqdns - todo == {};
    while todo != {}
      invariant todo <= fqdns && ok
      invariant Sweeping(start, storage.blobs, p, passes, cutoff, fqdns - todo, count, size, withinGrace)
      decreases todo
    {
      var h :| h in todo;
      var c, s, g;
      ghost var order;
      ghost var st := storage.blobs;
      ok, c, s, g, order := CleanupObsoleteFiles(storage, p, h, cutoff);
      SweepingStep(start, st, p, passes, cutoff, fqdns - todo, count, size, withinGrace, Pass(h, order), c, s);
      passes := passes + [Pass(h, order)];
      assert fqdns - todo + {h} == fqdns - (todo - {h});
      if !ok {
        assert fqdns - todo + {h} <= fqdns;
        return false, 0, 0, 0, passes;
      }
      count, size, withinGrace := count + c, size + s, withinGrace + g;
      todo := todo - {h};
    }
    assert fqdns - todo == fqdns;
    SweepingEnds(start, storage.blobs, p, passes, cutoff, fqdns, count, size, withinGrace);
  }

  lemma HostsPlain(ids: seq<BackupId>, local: string)
    ensures AllPlain(HostsOf(ids, local)) ==> forall id :: id in ids ==> PlainHost(id.fqdn)
  {
    forall id | id in ids ensures id.fqdn in HostsOf(ids, local) {
    }
  }

  /** purge_backups: purge the chosen backups, then sweep each host touched (or the local one). */
  method PurgeBackups(storage: ObjectStore, p: string, ids: seq<BackupId>, local: string, now: int, graceDays: int)
    returns (ok: bool, count: nat, size: nat, withinGrace: nat, ghost passes: seq<Pass>)
    modifies storage
    ensures var c := SweepAll(PurgeEach(old(storage.blobs), p, ids), p, passes, Cutoff(now, graceDays));
            storage.blobs == c.store && (ok <==> c.Cleaned?)
    ensures PassHosts(passes) <= HostsOf(ids, local)
    ensures ok && ids == [] ==> PassHosts(passes) == {local}
    ensures ok && ids != [] ==> forall h :: h in PassHosts(passes) <==> exists id :: id in ids && id.fqdn == h
    ensures Enumerated(PurgeEach(old(storage.blobs), p, ids), p, passes, Cutoff(now, graceDays))
    ensures ok ==> withinGrace == SparedByAll(PurgeEach(old(storage.blobs), p, ids), p, passes, Cutoff(now, graceDays))
    ensures ok && AllPlain(HostsOf(ids, local)) ==> Accounted(old(storage.blobs), storage.blobs, p, count, size)
  {
    hide Accounted, CleanupObsolete, PlainHost, SweepAll, PassHosts, Enumerated, AllPlain, SparedByAll;
    ghost var start := storage.blobs;
    var fqdns := HostsOf(ids, local);
    assert AllPlain(fqdns) ==> forall id :: id in ids ==> PlainHost(id.fqdn) by { HostsPlain(ids, local); }
    count, size := PurgeSelected(storage, p, ids);
    ghost var purged := storage.blobs;
    var c, s;
    ok, c, s, withinGrace, passes := SweepHosts(storage, p, fqdns, Cutoff(now, graceDays));
    if ok && AllPlain(fqdns) {
      AccountedTransitive(start, purged, storage.blobs, p, count, size, c, s);
    }
    count, size := count + c, size + s;
  }
}
