/**
 Storage.list_node_backups: rebuilding the list of node backups from the names of the
 index blobs, sorted by start time, dropping leading entries whose backup no longer exists.
 Exceptions of the source (malformed names, wrong number of path parts) are `Failed`.
 */
module NodeListing {
  import opened Text
  import opened IndexNames
  import opened ObjectStorage
  import opened Layout

  datatype NodeBackup = NodeBackup(id: BackupId, started: Option<nat>, finished: Option<nat>, differential: bool)
  datatype Listing = Failed | Listed(backups: seq<NodeBackup>, store: Store)

  /** Number of path components of a proper index blob name. */
  function Arity(p: string): nat { if |p| <= 1 then 4 else 5 }

  predicate Proper(p: string, k: string) { |Split(k, '/')| == Arity(p) }

  function NamePart(p: string, k: string): string
    requires Proper(p, k)
  {
    Split(k, '/')[Arity(p) - 2]
  }

  function FilePart(p: string, k: string): string
    requires Proper(p, k)
  {
    Split(k, '/')[Arity(p) - 1]
  }

  function Filter(keys: seq<string>, keep: string -> bool): (r: seq<string>)
    ensures forall k :: k in r <==> k in keys && keep(k)
  {
    if keys == [] then []
    else if keep(keys[0]) then [keys[0]] + Filter(keys[1..], keep)
    else Filter(keys[1..], keep)
  }

  predicate GroupedUnder(p: string, id: BackupId, k: string) {
    Proper(p, k) && NamePart(p, k) == id.name && FqdnOf(k) == Some(id.fqdn)
  }

  /** group_backup_index_by_backup_and_node: sorting by (name, fqdn) first makes each group a filter. */
  function Group(p: string, order: seq<string>, id: BackupId): (r: seq<string>)
    ensures forall k :: k in r <==> k in order && GroupedUnder(p, id, k)
  {
    Filter(order, k => GroupedUnder(p, id, k))
  }

  /** lookup_blob: the first blob of the group whose name contains the word. */
  function Lookup(group: seq<string>, w: string): (r: Option<string>)
    ensures r.Some? ==> r.value in group && Contains(r.value, w)
    ensures r.None? ==> forall k :: k in group ==> !Contains(k, w)
  {
    if group == [] then None
    else if Contains(group[0], w) then Some(group[0])
    else Lookup(group[1..], w)
  }

  /** The mtime of the looked-up index blob, or of the blob in the meta folder. */
  function BlobTime(st: Store, group: seq<string>, w: string, meta: string): Option<nat> {
    match Lookup(group, w)
    case Some(b) => if b in st then Some(st[b].mtime) else None
    case None => if meta in st then Some(st[meta].mtime) else None
  }

  /** NodeBackup.started / NodeBackup.finished; the outer None is a failed assertion. */
  function TimeOf(st: Store, group: seq<string>, stamp: Kind, source: Kind, meta: string): Option<Option<nat>> {
    match Lookup(group, Word(stamp))
    case Some(b) =>
      (match TimestampOf(b)
       case Some(ts) => Some(Some(ts))
       case None => None)
    case None => Some(BlobTime(st, group, Word(source), meta))
  }

  /** One tokenmap entry of the index as a NodeBackup. */
  function ReadEntry(st: Store, p: string, order: seq<string>, k: string): Option<NodeBackup> {
    if !Proper(p, k) then None
    else
      match FqdnOf(FilePart(p, k))
      case None => None
      case Some(fqdn) => ReadGroup(st, p, Group(p, order, BackupId(fqdn, NamePart(p, k))), BackupId(fqdn, NamePart(p, k)))
  }

  function ReadGroup(st: Store, p: string, g: seq<string>, id: BackupId): Option<NodeBackup> {
    if g == [] then None
    else
      match TimeOf(st, g, Started, Schema, MetaKey(p, id, "schema.cql"))
      case None => None
      case Some(started) =>
        match TimeOf(st, g, Finished, Manifest, MetaKey(p, id, "manifest.json"))
        case None => None
        case Some(finished) =>
          Some(NodeBackup(id, started, finished,
                          Lookup(g, Word(IndexNames.Differential)).Some? || Lookup(g, Word(Incremental)).Some?))
  }

  function ReadEntries(st: Store, p: string, order: seq<string>, toks: seq<string>): Option<seq<NodeBackup>> {
    if toks == [] then Some([])
    else
      match ReadEntry(st, p, order, toks[0])
      case None => None
      case Some(nb) =>
        match ReadEntries(st, p, order, toks[1..])
        case None => None
        case Some(rest) => Some([nb] + rest)
  }

  /** Stable insertion of nb into a list sorted by start time. */
  function InsertByStart(nb: NodeBackup, sorted: seq<NodeBackup>): (r: seq<NodeBackup>)
    ensures multiset(r) == multiset(sorted) + multiset{nb}
  {
    if sorted == [] || StartOf(nb) <= StartOf(sorted[0]) then [nb] + sorted
    else
      assert sorted == [sorted[0]] + sorted[1..];
      [sorted[0]] + InsertByStart(nb, sorted[1..])
  }

  function StartOf(nb: NodeBackup): nat { if nb.started.Some? then nb.started.value else 0 }

  /** The backups with a known start, oldest first. */
  function SortByStart(s: seq<NodeBackup>): seq<NodeBackup> {
    if s == [] then []
    else if s[0].started.None? then SortByStart(s[1..])
    else InsertByStart(s[0], SortByStart(s[1..]))
  }

  /** clean_backup_from_index. */
  function CleanIndex(st: Store, p: string, id: BackupId): Store {
    st - (set k | k in ListObjects(st, IndexDir(p, id.name)) && Contains(k, "_" + id.fqdn))
  }

  predicate Exists(st: Store, p: string, id: BackupId) { MetaKey(p, id, "schema.cql") in st }

  /** Once one backup exists, all later ones are taken to exist; the others leave the index. */
  function Emit(st: Store, p: string, sorted: seq<NodeBackup>, previousExisted: bool): (seq<NodeBackup>, Store) {
    if sorted == [] then ([], st)
    else if previousExisted || Exists(st, p, sorted[0].id) then
      var (rest, st') := Emit(st, p, sorted[1..], true);
      ([sorted[0]] + rest, st')
    else Emit(CleanIndex(st, p, sorted[0].id), p, sorted[1..], false)
  }

  function TokenmapTest(fqdn: Option<string>): string -> bool {
    k => Contains(k, Word(Tokenmap)) && (fqdn.Some? ==> Contains(k, "_" + fqdn.value + "."))
  }

  /** Tokenmap entries of the index, for one host or for all. */
  function Tokenmaps(order: seq<string>, fqdn: Option<string>): (r: seq<string>)
    ensures forall k :: k in r <==> k in order && Contains(k, Word(Tokenmap))
                                    && (fqdn.Some? ==> Contains(k, "_" + fqdn.value + "."))
  {
    Filter(order, TokenmapTest(fqdn))
  }

  predicate Malformed(p: string, k: string) { Proper(p, k) && FqdnOf(k).None? }

  /** order is the driver's listing of `index/backup_index`. */
  function ListNodeBackups(st: Store, p: string, order: seq<string>, fqdn: Option<string>): Listing {
    if exists k | k in order :: Malformed(p, k) then Failed
    else
      match ReadEntries(st, p, order, Tokenmaps(order, fqdn))
      case None => Failed
      case Some(nbs) =>
        var (backups, st') := Emit(st, p, SortByStart(nbs), false);
        Listed(backups, st')
  }

  // ---------------------------------------------------------------- what the listing sees

  /** The index holds only entries written for backups of the site. */
  ghost predicate IndexWritten(s: Site, st: Store) {
    forall k :: k in ListObjects(st, IndexRoot(s.p)) ==> exists id, kind, ts :: IsEntry(s, k, id, kind, ts)
  }

  ghost predicate IsEntry(s: Site, k: string, id: BackupId, kind: Kind, ts: nat) {
    InSite(s, id) && kind != Incremental && k == IndexedKey(s.p, id, kind, ts)
  }

  /** Index entries are written after the schema, so an indexed backup has one. */
  ghost predicate IndexedExist(s: Site, st: Store) {
    forall id, kind, ts :: InSite(s, id) && IndexedKey(s.p, id, kind, ts) in ListObjects(st, IndexRoot(s.p)) ==> Exists(st, s.p, id)
  }

  lemma KeyIsJoined(p: string, n: string, file: string)
    ensures p + "index/backup_index/" + n + "/" + file == p + ("index" + "/" + "backup_index" + "/" + n + "/" + file)
  {
    assert "index/backup_index/" == "index" + "/" + "backup_index" + "/";
  }

  lemma PrefixedSplit(p: string, t: string)
    requires p == "" || (p[|p| - 1] == '/' && '/' !in p[..|p| - 1])
    ensures Split(p + t, '/') == (if p == "" then [] else [p[..|p| - 1]]) + Split(t, '/')
  {
    if p == "" {
      assert p + t == t;
    } else {
      assert p + t == p[..|p| - 1] + ['/'] + t;
      SplitConcat(p[..|p| - 1], '/', t);
      SplitWord(p[..|p| - 1], '/');
    }
  }

  lemma PartsOfKey(p: string, k: string, parts: seq<string>)
    requires |p| != 1 && |parts| == 4
    requires Split(k, '/') == (if p == "" then [] else [p[..|p| - 1]]) + parts
    ensures Proper(p, k) && NamePart(p, k) == parts[2] && FilePart(p, k) == parts[3]
  {
    hide Split;
  }

  /** An index key splits into prefix, `index`, `backup_index`, backup name and file. */
  lemma SplitKey(s: Site, id: BackupId, kind: Kind, ts: nat)
    requires ReadableSite(s) && InSite(s, id)
    ensures var k := IndexedKey(s.p, id, kind, ts);
            Proper(s.p, k) && NamePart(s.p, k) == id.name && FilePart(s.p, k) == FileName(kind, id.fqdn, ts)
  {
    hide FileName, Join, Split, Proper, NamePart, FilePart, Contains;
    var file := FileName(kind, id.fqdn, ts);
    PlainFile(kind, id.fqdn, ts);
    var parts := ["index", "backup_index", id.name, file];
    assert '/' !in "index" && '/' !in "backup_index";
    SplitJoin(parts, '/');
    PrefixedSplit(s.p, Join(parts, '/'));
    assert IndexedKey(s.p, id, kind, ts) == s.p + Join(parts, '/') by {
      JoinFour("index", "backup_index", id.name, file);
      KeyIsJoined(s.p, id.name, file);
    }
    PartsOfKey(s.p, IndexedKey(s.p, id, kind, ts), parts);
  }

  lemma PlainFile(kind: Kind, fqdn: string, ts: nat)
    requires '/' !in fqdn
    ensures '/' !in FileName(kind, fqdn, ts)
  {
    var d := Decimal(ts);
    assert '/' !in d;
    hide Decimal;
    hide Word;
    assert '/' !in Word(kind);
    assert '/' !in "_" && '/' !in ".json" && '/' !in ".cql" && '/' !in ".timestamp";
  }

  /** Grouping puts an entry under its own backup and under no other. */
  lemma GroupsUnderOwner(s: Site, k: string, id: BackupId, kind: Kind, ts: nat, other: BackupId)
    requires ReadableSite(s) && IsEntry(s, k, id, kind, ts)
    ensures GroupedUnder(s.p, other, k) <==> other == id
    ensures !Malformed(s.p, k)
    ensures forall j :: Contains(k, Word(j)) <==> j == kind
  {
    SplitKey(s, id, kind, ts);
    FqdnRoundTrip(s.p, id.name, kind, id.fqdn, ts);
    forall j ensures Contains(k, Word(j)) <==> j == kind { KeyWords(s.p, id.name, kind, id.fqdn, ts, j); }
  }

  lemma LookupEntry(s: Site, st: Store, order: seq<string>, id: BackupId, kind: Kind)
    requires ReadableSite(s) && IndexWritten(s, st) && InSite(s, id)
    requires Enumerates(order, ListObjects(st, IndexRoot(s.p)))
    ensures var r := Lookup(Group(s.p, order, id), Word(kind));
            && (r.Some? ==> exists ts :: IsEntry(s, r.value, id, kind, ts))
            && (r.Some? ==> r.value in ListObjects(st, IndexRoot(s.p)))
            && (r.None? ==> forall ts :: kind != Incremental ==> IndexedKey(s.p, id, kind, ts) !in ListObjects(st, IndexRoot(s.p)))
  {
    var g := Group(s.p, order, id);
    var r := Lookup(g, Word(kind));
    if r.Some? {
      var id', kind', ts :| IsEntry(s, r.value, id', kind', ts);
      GroupsUnderOwner(s, r.value, id', kind', ts, id);
    } else if kind != Incremental {
      forall ts ensures IndexedKey(s.p, id, kind, ts) !in ListObjects(st, IndexRoot(s.p)) {
        var k := IndexedKey(s.p, id, kind, ts);
        GroupsUnderOwner(s, k, id, kind, ts, id);
        assert Contains(k, Word(kind));
        assert k in g ==> !Contains(k, Word(kind));
      }
    }
  }

  /** What a NodeBackup read from the index says about the store. */
  ghost predicate ReadsBack(s: Site, st: Store, nb: NodeBackup) {
    && InSite(s, nb.id)
    && TimeRead(s, st, nb.id, Started, Schema, MetaKey(s.p, nb.id, "schema.cql"), nb.started)
    && TimeRead(s, st, nb.id, Finished, Manifest, MetaKey(s.p, nb.id, "manifest.json"), nb.finished)
    && (nb.differential <==> IndexedKey(s.p, nb.id, IndexNames.Differential, 0) in ListObjects(st, IndexRoot(s.p)))
  }

  /** A time is known from the stamped entry, or else from the blob that was written with it. */
  ghost predicate TimeKnown(s: Site, st: Store, id: BackupId, stamp: Kind, source: Kind, meta: string) {
    var keys := ListObjects(st, IndexRoot(s.p));
    (exists ts :: IndexedKey(s.p, id, stamp, ts) in keys) || IndexedKey(s.p, id, source, 0) in keys || meta in st
  }

  /** It is the time a stamped entry names, or else when that blob's index entry, or the blob itself, was modified. */
  ghost predicate TimeRead(s: Site, st: Store, id: BackupId, stamp: Kind, source: Kind, meta: string, t: Option<nat>) {
    var keys := ListObjects(st, IndexRoot(s.p));
    && (t.Some? <==> TimeKnown(s, st, id, stamp, source, meta))
    && (t.Some? && (exists ts :: IndexedKey(s.p, id, stamp, ts) in keys) ==> IndexedKey(s.p, id, stamp, t.value) in keys)
    && (t.Some? && !(exists ts :: IndexedKey(s.p, id, stamp, ts) in keys) ==>
          var key := IndexedKey(s.p, id, source, 0);
          if key in keys then key in st && t.value == st[key].mtime else meta in st && t.value == st[meta].mtime)
  }

  lemma FinishedKnown(s: Site, st: Store, nb: NodeBackup)
    requires ReadsBack(s, st, nb)
    ensures InSite(s, nb.id)
    ensures nb.finished.Some? <==> TimeKnown(s, st, nb.id, Finished, IndexNames.Manifest, MetaKey(s.p, nb.id, "manifest.json"))
  {
    hide IndexKey, MetaKey, IndexRoot, TimeKnown;
  }

  lemma ReadTime(s: Site, st: Store, order: seq<string>, id: BackupId, stamp: Kind, source: Kind, meta: string)
    requires ReadableSite(s) && IndexWritten(s, st) && InSite(s, id) && stamp.Stamped() && !source.Stamped() && source != Incremental
    requires Enumerates(order, ListObjects(st, IndexRoot(s.p)))
    ensures var t := TimeOf(st, Group(s.p, order, id), stamp, source, meta);
            && t.Some? && TimeRead(s, st, id, stamp, source, meta, t.value)
  {
    hide IndexKey, MetaKey, Lookup, Group, MatchStampFrom, TimestampOf, Clean, Word, Contains, IndexRoot;
    LookupEntry(s, st, order, id, stamp);
    LookupEntry(s, st, order, id, source);
    var r := Lookup(Group(s.p, order, id), Word(stamp));
    if r.Some? {
      var ts :| IsEntry(s, r.value, id, stamp, ts);
      TimestampRoundTrip(s.p, id.name, stamp, id.fqdn, ts);
    }
    var b := Lookup(Group(s.p, order, id), Word(source));
    if b.Some? {
      var ts :| IsEntry(s, b.value, id, source, ts);
      UnstampedKey(s.p, id, source, ts);
    }
  }

  lemma ReadDifferential(s: Site, st: Store, order: seq<string>, id: BackupId)
    requires ReadableSite(s) && IndexWritten(s, st) && InSite(s, id)
    requires Enumerates(order, ListObjects(st, IndexRoot(s.p)))
    ensures var g := Group(s.p, order, id);
            Lookup(g, Word(IndexNames.Differential)).Some? || Lookup(g, Word(Incremental)).Some?
            <==> IndexedKey(s.p, id, IndexNames.Differential, 0) in ListObjects(st, IndexRoot(s.p))
  {
    hide IndexKey, Lookup, Group, Word, Contains, IndexRoot, Clean;
    LookupEntry(s, st, order, id, Incremental);
    LookupEntry(s, st, order, id, IndexNames.Differential);
    var d := Lookup(Group(s.p, order, id), Word(IndexNames.Differential));
    if d.Some? {
      var ts :| IsEntry(s, d.value, id, IndexNames.Differential, ts);
      UnstampedKey(s.p, id, IndexNames.Differential, ts);
    }
  }

  lemma UnstampedKey(p: string, id: BackupId, k: Kind, ts: nat)
    requires !k.Stamped()
    ensures IndexedKey(p, id, k, ts) == IndexedKey(p, id, k, 0)
  {
  }

  lemma ReadGroupBack(s: Site, st: Store, order: seq<string>, id: BackupId)
    requires ReadableSite(s) && IndexWritten(s, st) && InSite(s, id)
    requires Enumerates(order, ListObjects(st, IndexRoot(s.p)))
    requires Group(s.p, order, id) != []
    ensures var r := ReadGroup(st, s.p, Group(s.p, order, id), id);
            r.Some? && r.value.id == id && ReadsBack(s, st, r.value) && (Exists(st, s.p, id) ==> r.value.started.Some?)
  {
    hide IndexKey, MetaKey, Lookup, TimeOf, Group, Clean, Word, Contains, IndexRoot, IndexWritten;
    ReadTime(s, st, order, id, Started, Schema, MetaKey(s.p, id, "schema.cql"));
    ReadTime(s, st, order, id, Finished, Manifest, MetaKey(s.p, id, "manifest.json"));
    ReadDifferential(s, st, order, id);
  }

  /** Reading a tokenmap entry gives back the backup it was written for. */
  lemma ReadEntryBack(s: Site, st: Store, order: seq<string>, k: string, id: BackupId)
    requires ReadableSite(s) && IndexWritten(s, st)
    requires Enumerates(order, ListObjects(st, IndexRoot(s.p)))
    requires InSite(s, id) && k == IndexedKey(s.p, id, Tokenmap, 0) && k in order
    ensures ReadEntry(st, s.p, order, k).Some?
    ensures var nb := ReadEntry(st, s.p, order, k).value;
            nb.id == id && ReadsBack(s, st, nb) && (Exists(st, s.p, id) ==> nb.started.Some?)
  {
    hide IndexKey, FileName, ReadGroup, GroupedUnder, FqdnOf, Clean, Contains, IndexRoot, Proper, NamePart, FilePart;
    SplitKey(s, id, Tokenmap, 0);
    FqdnRoundTrip(s.p, id.name, Tokenmap, id.fqdn, 0);
    GroupsUnderOwner(s, k, id, Tokenmap, 0, id);
    assert k in Group(s.p, order, id);
    ReadGroupBack(s, st, order, id);
  }

  lemma TokenmapOwner(s: Site, st: Store, k: string) returns (id: BackupId)
    requires ReadableSite(s) && IndexWritten(s, st)
    requires k in ListObjects(st, IndexRoot(s.p)) && Contains(k, Word(Tokenmap))
    ensures InSite(s, id) && k == IndexedKey(s.p, id, Tokenmap, 0)
  {
    var i, kind, ts :| IsEntry(s, k, i, kind, ts);
    GroupsUnderOwner(s, k, i, kind, ts, i);
    id := i;
  }

  lemma {:induction false} ReadEntriesBack(s: Site, st: Store, order: seq<string>, toks: seq<string>)
    requires ReadableSite(s) && IndexWritten(s, st)
    requires Enumerates(order, ListObjects(st, IndexRoot(s.p)))
    requires forall i :: 0 <= i < |toks| ==> toks[i] in order && Contains(toks[i], Word(Tokenmap))
    ensures ReadEntries(st, s.p, order, toks).Some?
    ensures var nbs := ReadEntries(st, s.p, order, toks).value;
            && (forall nb :: nb in nbs ==> InSite(s, nb.id) && ReadsBack(s, st, nb) && IndexedKey(s.p, nb.id, Tokenmap, 0) in toks
                                           && (Exists(st, s.p, nb.id) ==> nb.started.Some?))
            && (forall id :: InSite(s, id) && IndexedKey(s.p, id, Tokenmap, 0) in toks ==> exists nb :: nb in nbs && nb.id == id)
  {
    hide IndexKey, MetaKey, ReadEntry, ReadsBack, Clean, Word, Contains, IndexRoot, IndexWritten, Exists;
    if toks != [] {
      var id := TokenmapOwner(s, st, toks[0]);
      ReadEntryBack(s, st, order, toks[0], id);
      ReadEntriesBack(s, st, order, toks[1..]);
      var nb := ReadEntry(st, s.p, order, toks[0]).value;
      var rest := ReadEntries(st, s.p, order, toks[1..]).value;
      var nbs := [nb] + rest;
      forall id' | InSite(s, id') && IndexedKey(s.p, id', Tokenmap, 0) in toks
        ensures exists x :: x in nbs && x.id == id'
      {
        if IndexedKey(s.p, id', Tokenmap, 0) == toks[0] {
          SameKeySameId(s, id, id');
          assert nb in nbs;
        } else {
          var x :| x in rest && x.id == id';
          assert x in nbs;
        }
      }
    }
  }

  lemma SameKeySameId(s: Site, a: BackupId, b: BackupId)
    requires ReadableSite(s) && InSite(s, a) && InSite(s, b)
    requires IndexedKey(s.p, a, Tokenmap, 0) == IndexedKey(s.p, b, Tokenmap, 0)
    ensures a == b
  {
    SplitKey(s, a, Tokenmap, 0);
    SplitKey(s, b, Tokenmap, 0);
    FqdnRoundTrip(s.p, a.name, Tokenmap, a.fqdn, 0);
    FqdnRoundTrip(s.p, b.name, Tokenmap, b.fqdn, 0);
  }

  lemma {:induction false} SortKeeps(s: seq<NodeBackup>)
    ensures forall nb :: nb in SortByStart(s) <==> nb in s && nb.started.Some?
  {
    if s != [] {
      assert s == [s[0]] + s[1..];
      SortKeeps(s[1..]);
      if s[0].started.Some? {
        forall nb ensures nb in SortByStart(s) <==> nb == s[0] || nb in SortByStart(s[1..]) {
          InMultiset(SortByStart(s), nb);
          InMultiset(SortByStart(s[1..]), nb);
        }
      }
    }
  }

  lemma InMultiset(s: seq<NodeBackup>, nb: NodeBackup)
    ensures nb in s <==> nb in multiset(s)
  {
  }

  lemma {:induction false} EmitKeeps(st: Store, p: string, sorted: seq<NodeBackup>, previousExisted: bool)
    requires forall nb :: nb in sorted ==> Exists(st, p, nb.id)
    ensures Emit(st, p, sorted, previousExisted) == (sorted, st)
  {
    if sorted != [] {
      EmitKeeps(st, p, sorted[1..], true);
      assert sorted == [sorted[0]] + sorted[1..];
    }
  }

  /** A host whose paths cannot be mistaken for the index. */
  predicate PlainHost(h: string) { '/' !in h && h != "index" }

  lemma NeverIndex(p: string, h: string, x: string, k: string)
    requires PlainHost(h) && p + h + "/" + x <= k
    ensures !(IndexRoot(p) <= k)
  {
    if IndexRoot(p) <= k {
      var a, b := p + (h + ['/'] + x), p + ("index" + ['/'] + "backup_index");
      assert "index/backup_index" == "index" + ['/'] + "backup_index";
      assert a <= k && b <= k;
      if |a| <= |b| {
        assert a == k[..|a|] == b[..|a|];
        CommonPrefix(p, h + ['/'] + x, "index" + ['/'] + "backup_index");
        PrefixCancel(h, x, "index", "backup_index", '/');
      } else {
        assert b == k[..|b|] == a[..|b|];
        CommonPrefix(p, "index" + ['/'] + "backup_index", h + ['/'] + x);
        PrefixCancel("index", "backup_index", h, x, '/');
      }
    }
  }

  lemma DirUnderRoot(p: string, n: string, k: string)
    requires IndexDir(p, n) <= k
    ensures IndexRoot(p) <= k
  {
    assert "index/backup_index/" == "index/backup_index" + "/";
    assert IndexDir(p, n)[..|IndexRoot(p)|] == IndexRoot(p);
  }

  lemma CleanIndexOnlyIndex(st: Store, p: string, id: BackupId)
    ensures CleanIndex(st, p, id).Keys <= st.Keys
    ensures forall k :: k in st && !(IndexRoot(p) <= k) ==> k in CleanIndex(st, p, id)
    ensures forall k :: k in CleanIndex(st, p, id) ==> st[k] == CleanIndex(st, p, id)[k]
  {
    forall k | k in st && IndexDir(p, id.name) <= k ensures IndexRoot(p) <= k { DirUnderRoot(p, id.name, k); }
  }

  /** Listing backups removes nothing outside the index. */
  lemma {:induction false} EmitOnlyIndex(st: Store, p: string, sorted: seq<NodeBackup>, previousExisted: bool)
    ensures var st' := Emit(st, p, sorted, previousExisted).1;
            && st'.Keys <= st.Keys
            && (forall k :: k in st && !(IndexRoot(p) <= k) ==> k in st')
            && (forall k :: k in st' ==> st[k] == st'[k])
  {
    hide CleanIndex, IndexRoot, Exists;
    if sorted != [] {
      if previousExisted || Exists(st, p, sorted[0].id) {
        EmitOnlyIndex(st, p, sorted[1..], true);
      } else {
        CleanIndexOnlyIndex(st, p, sorted[0].id);
        EmitOnlyIndex(CleanIndex(st, p, sorted[0].id), p, sorted[1..], false);
      }
    }
  }

  lemma SchemaNotIndexed(st: Store, p: string, gone: BackupId, id: BackupId)
    requires PlainHost(id.fqdn)
    ensures Exists(CleanIndex(st, p, gone), p, id) <==> Exists(st, p, id)
  {
    var x := id.name + "/meta/" + "schema.cql";
    assert MetaKey(p, id, "schema.cql") == p + id.fqdn + "/" + x;
    hide MetaKey, CleanIndex;
    NeverIndex(p, id.fqdn, x, MetaKey(p, id, "schema.cql"));
    CleanIndexOnlyIndex(st, p, gone);
  }

  /** What is emitted starts with the first backup that exists; those before it do not. */
  lemma {:induction false} EmitSplits(st: Store, p: string, sorted: seq<NodeBackup>) returns (k: nat)
    requires forall nb :: nb in sorted ==> PlainHost(nb.id.fqdn)
    ensures k <= |sorted| && Emit(st, p, sorted, false).0 == sorted[k..]
    ensures forall i :: 0 <= i < k ==> !Exists(st, p, sorted[i].id)
    ensures k < |sorted| ==> Exists(st, p, sorted[k].id)
    decreases |sorted|
  {
    hide Exists, CleanIndex;
    k := 0;
    if sorted != [] {
      if Exists(st, p, sorted[0].id) {
        var j := EmitSuffix(st, p, sorted[1..], true);
        assert sorted == [sorted[0]] + sorted[1..];
      } else {
        var st' := CleanIndex(st, p, sorted[0].id);
        var j := EmitSplits(st', p, sorted[1..]);
        k := j + 1;
        forall nb | nb in sorted ensures Exists(st', p, nb.id) <==> Exists(st, p, nb.id) {
          SchemaNotIndexed(st, p, sorted[0].id, nb.id);
        }
        forall i | 0 <= i < k ensures !Exists(st, p, sorted[i].id) {
          if i > 0 { assert sorted[i] == sorted[1..][i - 1]; }
        }
      }
    }
  }

  predicate Selected(p: string, id: BackupId, fqdn: Option<string>) {
    fqdn.Some? ==> Contains(IndexedKey(p, id, Tokenmap, 0), "_" + fqdn.value + ".")
  }

  /** No host of the site is called like the index, or no entry outlived its backup. */
  ghost predicate IndexTellsApart(s: Site, st: Store) { "index" !in s.hosts || IndexedExist(s, st) }

  /** Listing takes nothing from the store but index entries. */
  ghost predicate OnlyIndexLost(p: string, st: Store, st': Store) {
    && st'.Keys <= st.Keys
    && (forall k :: k in st && !(IndexRoot(p) <= k) ==> k in st')
    && (forall k :: k in st' ==> st[k] == st'[k])
  }

  /** The backups read from the index, before any is dropped. */
  function Read(st: Store, p: string, order: seq<string>, fqdn: Option<string>): seq<NodeBackup> {
    match ReadEntries(st, p, order, Tokenmaps(order, fqdn))
    case None => []
    case Some(nbs) => SortByStart(nbs)
  }

  lemma ReadBack(s: Site, st: Store, order: seq<string>, fqdn: Option<string>)
    requires ReadableSite(s) && IndexWritten(s, st) && Enumerates(order, ListObjects(st, IndexRoot(s.p)))
    ensures var r := ListNodeBackups(st, s.p, order, fqdn);
            var read := Read(st, s.p, order, fqdn);
            && r.Listed? && r.backups == Emit(st, s.p, read, false).0 && r.store == Emit(st, s.p, read, false).1
            && (forall nb :: nb in read ==>
                  ReadsBack(s, st, nb) && nb.started.Some? && Selected(s.p, nb.id, fqdn)
                  && IndexedKey(s.p, nb.id, Tokenmap, 0) in ListObjects(st, IndexRoot(s.p)))
            && (forall id :: InSite(s, id) && Selected(s.p, id, fqdn) && Exists(st, s.p, id)
                  && IndexedKey(s.p, id, Tokenmap, 0) in ListObjects(st, IndexRoot(s.p))
                  ==> exists nb :: nb in read && nb.id == id)
  {
    hide IndexKey, MetaKey, ReadEntry, ReadsBack, Clean, Word, Contains, IndexRoot, ReadEntries, SortByStart, Emit, Malformed, Exists;
    forall k | k in order ensures !Malformed(s.p, k) {
      var id, kind, ts :| IsEntry(s, k, id, kind, ts);
      GroupsUnderOwner(s, k, id, kind, ts, id);
    }
    var toks := Tokenmaps(order, fqdn);
    ReadEntriesBack(s, st, order, toks);
    SortKeeps(ReadEntries(st, s.p, order, toks).value);
    forall id | InSite(s, id) && Selected(s.p, id, fqdn) && Exists(st, s.p, id)
                && IndexedKey(s.p, id, Tokenmap, 0) in ListObjects(st, IndexRoot(s.p))
      ensures IndexedKey(s.p, id, Tokenmap, 0) in toks
    {
      KeyWords(s.p, id.name, Tokenmap, id.fqdn, 0, Tokenmap);
    }
  }

  lemma ReadsInSite(s: Site, st: Store, nb: NodeBackup)
    requires ReadsBack(s, st, nb)
    ensures InSite(s, nb.id)
  {
  }

  lemma SitePlain(s: Site, h: string)
    requires ReadableSite(s) && "index" !in s.hosts && h in s.hosts
    ensures PlainHost(h)
  {
    hide Contains;
  }

  lemma IndexedExists(s: Site, st: Store, id: BackupId)
    requires IndexedExist(s, st) && InSite(s, id) && IndexedKey(s.p, id, Tokenmap, 0) in ListObjects(st, IndexRoot(s.p))
    ensures Exists(st, s.p, id)
  {
    hide IndexKey, IndexRoot, Exists;
  }

  /**
   For every driver order and whatever has become of the backups in the index, listing gives back every
   indexed backup that exists, with its start, finish and differential entries, and nothing that is not
   indexed; it begins with one that exists, and takes nothing from the store but index entries, none at
   all when all indexed backups exist.
   */
  lemma ListingRoundTrip(s: Site, st: Store, order: seq<string>, fqdn: Option<string>)
    requires ReadableSite(s) && IndexWritten(s, st) && IndexTellsApart(s, st)
    requires Enumerates(order, ListObjects(st, IndexRoot(s.p)))
    ensures var r := ListNodeBackups(st, s.p, order, fqdn);
            && r.Listed? && OnlyIndexLost(s.p, st, r.store) && (IndexedExist(s, st) ==> r.store == st)
            && (r.backups != [] ==> Exists(st, s.p, r.backups[0].id))
            && (forall nb :: nb in r.backups ==>
                  ReadsBack(s, st, nb) && nb.started.Some? && Selected(s.p, nb.id, fqdn)
                  && IndexedKey(s.p, nb.id, Tokenmap, 0) in ListObjects(st, IndexRoot(s.p)))
            && (forall id :: InSite(s, id) && Selected(s.p, id, fqdn) && Exists(st, s.p, id)
                  && IndexedKey(s.p, id, Tokenmap, 0) in ListObjects(st, IndexRoot(s.p))
                  ==> exists nb :: nb in r.backups && nb.id == id)
  {
    hide *;
    ReadBack(s, st, order, fqdn);
    var read := Read(st, s.p, order, fqdn);
    forall nb | nb in read ensures InSite(s, nb.id) { ReadsInSite(s, st, nb); }
    EmitOnlyIndex(st, s.p, read, false);
    LostOnlyIndex(s.p, st, Emit(st, s.p, read, false).1);
    InSiteUse(s);
    TellsApart(s, st);
    if IndexedExist(s, st) {
      forall nb | nb in read ensures Exists(st, s.p, nb.id) { IndexedExists(s, st, nb.id); }
      EmitKeeps(st, s.p, read, false);
    } else {
      forall nb | nb in read ensures PlainHost(nb.id.fqdn) { SitePlain(s, nb.id.fqdn); }
      var k := EmitSplits(st, s.p, read);
      forall nb | nb in read && Exists(st, s.p, nb.id) ensures nb in read[k..] {
        var i :| 0 <= i < |read| && read[i] == nb;
        assert read[k..][i - k] == nb;
      }
    }
  }

  lemma TellsApart(s: Site, st: Store)
    ensures IndexTellsApart(s, st) <==> "index" !in s.hosts || IndexedExist(s, st)
  {
    hide IndexedExist;
  }

  lemma InSiteUse(s: Site)
    ensures forall id :: InSite(s, id) ==> id.fqdn in s.hosts && id.name in s.names
  {
  }

  lemma LostOnlyIndex(p: string, st: Store, st': Store)
    ensures OnlyIndexLost(p, st, st') <==>
            && st'.Keys <= st.Keys
            && (forall k :: k in st && !(IndexRoot(p) <= k) ==> k in st')
            && (forall k :: k in st' ==> st[k] == st'[k])
  {
    hide IndexRoot;
  }

  // -- oldest first, each backup once

  ghost predicate OldestFirst(s: seq<NodeBackup>) {
    && (forall nb :: nb in s ==> nb.started.Some?)
    && (forall i, j :: 0 <= i < j < |s| ==> StartOf(s[i]) <= StartOf(s[j]))
  }

  ghost predicate EachOnce(s: seq<NodeBackup>) { forall i, j :: 0 <= i < j < |s| ==> s[i].id != s[j].id }

  lemma SortedCons(head: NodeBackup, rest: seq<NodeBackup>)
    ensures OldestFirst([head] + rest) <==>
            OldestFirst(rest) && head.started.Some? && forall x :: x in rest ==> StartOf(head) <= StartOf(x)
  {
    hide StartOf;
    var all := [head] + rest;
    assert all[0] == head && all[1..] == rest && forall nb :: nb in all <==> nb == head || nb in rest;
    if OldestFirst(all) {
      forall i, j | 0 <= i < j < |rest| ensures StartOf(rest[i]) <= StartOf(rest[j]) {
        assert rest[i] == all[i + 1] && rest[j] == all[j + 1];
      }
      forall x | x in rest ensures StartOf(head) <= StartOf(x) {
        var i :| 0 <= i < |rest| && rest[i] == x;
        assert all[i + 1] == x;
      }
    }
  }

  lemma {:induction false} InsertOldestFirst(nb: NodeBackup, sorted: seq<NodeBackup>)
    requires OldestFirst(sorted) && nb.started.Some?
    ensures OldestFirst(InsertByStart(nb, sorted))
  {
    hide OldestFirst;
    SortedCons(nb, sorted);
    if sorted != [] {
      var head, tail := sorted[0], sorted[1..];
      assert sorted == [head] + tail;
      SortedCons(head, tail);
      if StartOf(nb) > StartOf(head) {
        var rest := InsertByStart(nb, tail);
        InsertOldestFirst(nb, tail);
        forall x | x in rest ensures StartOf(head) <= StartOf(x) {
          InMultiset(rest, x);
          InMultiset(tail, x);
        }
        SortedCons(head, rest);
      } else {
        forall x | x in sorted ensures StartOf(nb) <= StartOf(x) {}
      }
    }
  }

  lemma {:induction false} SortOldestFirst(s: seq<NodeBackup>)
    ensures OldestFirst(SortByStart(s))
  {
    hide OldestFirst;
    if s == [] {
      NothingSorted();
    } else {
      SortOldestFirst(s[1..]);
      if s[0].started.Some? { InsertOldestFirst(s[0], SortByStart(s[1..])); }
    }
  }

  lemma NothingSorted()
    ensures OldestFirst([])
  {
  }

  /** What is emitted is the end of the list, from the first backup that exists. */
  lemma {:induction false} EmitSuffix(st: Store, p: string, sorted: seq<NodeBackup>, previousExisted: bool) returns (k: nat)
    ensures k <= |sorted| && Emit(st, p, sorted, previousExisted).0 == sorted[k..]
    ensures previousExisted ==> k == 0
    decreases |sorted|
  {
    hide Exists, CleanIndex;
    k := 0;
    if sorted != [] {
      if previousExisted || Exists(st, p, sorted[0].id) {
        var j := EmitSuffix(st, p, sorted[1..], true);
        assert sorted == [sorted[0]] + sorted[1..];
      } else {
        var j := EmitSuffix(CleanIndex(st, p, sorted[0].id), p, sorted[1..], false);
        k := j + 1;
      }
    }
  }

  /** For every store and driver order a listing that succeeds is sorted by start time. */
  lemma ListingOldestFirst(st: Store, p: string, order: seq<string>, fqdn: Option<string>)
    ensures var r := ListNodeBackups(st, p, order, fqdn); r.Listed? ==> OldestFirst(r.backups)
  {
    hide Malformed, ReadEntries, Tokenmaps, SortByStart, Emit;
    var read := ReadEntries(st, p, order, Tokenmaps(order, fqdn));
    if read.Some? {
      SortOldestFirst(read.value);
      var k := EmitSuffix(st, p, SortByStart(read.value), false);
    }
  }

  lemma {:induction false} InsertOnce(nb: NodeBackup, sorted: seq<NodeBackup>)
    requires EachOnce(sorted) && forall x :: x in sorted ==> x.id != nb.id
    ensures EachOnce(InsertByStart(nb, sorted))
  {
    if sorted != [] && StartOf(nb) > StartOf(sorted[0]) {
      var rest := InsertByStart(nb, sorted[1..]);
      InsertOnce(nb, sorted[1..]);
      forall x | x in rest ensures x.id != sorted[0].id {
        InMultiset(rest, x);
        InMultiset(sorted[1..], x);
      }
    }
  }

  lemma {:induction false} SortOnce(s: seq<NodeBackup>)
    requires EachOnce(s)
    ensures EachOnce(SortByStart(s))
  {
    if s != [] {
      SortOnce(s[1..]);
      SortKeeps(s[1..]);
      if s[0].started.Some? {
        InsertOnce(s[0], SortByStart(s[1..]));
      }
    }
  }

  lemma {:induction false} ReadOnce(s: Site, st: Store, order: seq<string>, toks: seq<string>)
    requires ReadableSite(s) && IndexWritten(s, st)
    requires Enumerates(order, ListObjects(st, IndexRoot(s.p)))
    requires forall i :: 0 <= i < |toks| ==> toks[i] in order && Contains(toks[i], Word(Tokenmap))
    requires forall i, j :: 0 <= i < j < |toks| ==> toks[i] != toks[j]
    ensures ReadEntries(st, s.p, order, toks).Some? && EachOnce(ReadEntries(st, s.p, order, toks).value)
  {
    hide IndexKey, MetaKey, ReadEntry, ReadsBack, Clean, Word, Contains, IndexRoot, IndexWritten, Exists;
    ReadEntriesBack(s, st, order, toks);
    if toks != [] {
      var id := TokenmapOwner(s, st, toks[0]);
      ReadEntryBack(s, st, order, toks[0], id);
      ReadOnce(s, st, order, toks[1..]);
      ReadEntriesBack(s, st, order, toks[1..]);
    }
  }

  lemma {:induction false} FilterOnce(keys: seq<string>, keep: string -> bool)
    requires forall i, j :: 0 <= i < j < |keys| ==> keys[i] != keys[j]
    ensures var r := Filter(keys, keep); forall i, j :: 0 <= i < j < |r| ==> r[i] != r[j]
  {
    if keys != [] {
      FilterOnce(keys[1..], keep);
      assert keys[0] !in keys[1..];
      assert keys[0] !in Filter(keys[1..], keep);
    }
  }

  /** No backup is listed twice. */
  lemma ListingOnce(s: Site, st: Store, order: seq<string>, fqdn: Option<string>)
    requires ReadableSite(s) && IndexWritten(s, st)
    requires Enumerates(order, ListObjects(st, IndexRoot(s.p)))
    ensures var r := ListNodeBackups(st, s.p, order, fqdn); r.Listed? && EachOnce(r.backups)
  {
    hide *;
    var toks := TokenmapsOnce(s, st, order, fqdn);
    ReadOnce(s, st, order, toks);
    ReadBack(s, st, order, fqdn);
    ListedFrom(st, s.p, order, fqdn);
    var nbs := ReadEntries(st, s.p, order, toks).value;
    SortOnce(nbs);
    var k := EmitSuffix(st, s.p, SortByStart(nbs), false);
    SuffixOnce(SortByStart(nbs), k);
  }

  lemma SuffixOnce(s: seq<NodeBackup>, k: nat)
    requires EachOnce(s) && k <= |s|
    ensures EachOnce(s[k..])
  {
  }

  lemma TokenmapsOnce(s: Site, st: Store, order: seq<string>, fqdn: Option<string>) returns (toks: seq<string>)
    requires Enumerates(order, ListObjects(st, IndexRoot(s.p)))
    ensures toks == Tokenmaps(order, fqdn)
    ensures forall i :: 0 <= i < |toks| ==> toks[i] in order && Contains(toks[i], Word(Tokenmap))
    ensures forall i, j :: 0 <= i < j < |toks| ==> toks[i] != toks[j]
  {
    hide Contains, ListObjects, IndexRoot, Word;
    toks := Tokenmaps(order, fqdn);
    FilterOnce(order, TokenmapTest(fqdn));
    assert toks == Filter(order, TokenmapTest(fqdn));
  }

  lemma ListedFrom(st: Store, p: string, order: seq<string>, fqdn: Option<string>)
    requires ListNodeBackups(st, p, order, fqdn).Listed?
    ensures var nbs := ReadEntries(st, p, order, Tokenmaps(order, fqdn));
            nbs.Some? && ListNodeBackups(st, p, order, fqdn).backups == Emit(st, p, SortByStart(nbs.value), false).0
  {
    hide Malformed, ReadEntries, Tokenmaps, SortByStart, Emit;
  }

  /** The filter `_<fqdn>.` never misses a host's own entries. */
  lemma OwnSelected(p: string, id: BackupId)
    ensures Selected(p, id, Some(id.fqdn))
  {
    var a := IndexDir(p, id.name) + "/tokenmap";
    assert IndexedKey(p, id, Tokenmap, 0) == a + ("_" + id.fqdn + ".") + "json" by {
      RegroupName(IndexDir(p, id.name), id.fqdn);
    }
    ContainsInside(a, "_" + id.fqdn + ".", "json");
  }

  lemma SelectedBy(p: string, id: BackupId, fqdn: Option<string>)
    requires fqdn == None || fqdn == Some(id.fqdn)
    ensures Selected(p, id, fqdn)
  {
    if fqdn.Some? { OwnSelected(p, id); }
  }

  lemma RegroupName(dir: string, h: string)
    ensures dir + "/" + ("tokenmap" + "_" + (h + ".json")) == dir + "/tokenmap" + ("_" + h + ".") + "json"
  {
    assert "/tokenmap" == "/" + "tokenmap";
    assert ".json" == "." + "json";
  }

  // ---------------------------------------------------------------- the method

  /** list_node_backups: reads the index listing, then keeps the backups that exist. */
  method ListBackups(storage: ObjectStore, p: string, fqdn: Option<string>)
    returns (r: Option<seq<NodeBackup>>, ghost order: seq<string>)
    modifies storage
    ensures Enumerates(order, ListObjects(old(storage.blobs), IndexRoot(p)))
    ensures match ListNodeBackups(old(storage.blobs), p, order, fqdn)
            case Failed => r.None? && storage.blobs == old(storage.blobs)
            case Listed(backups, st) => r == Some(backups) && storage.blobs == st
  {
    var listing := storage.List(IndexRoot(p));
    order := listing;
    hide Emit, ReadEntries, Malformed;
    if exists k | k in listing :: Malformed(p, k) {
      return None, listing;
    }
    var nodeBackups := ReadAll(storage, p, listing, Tokenmaps(listing, fqdn));
    if nodeBackups.None? {
      return None, listing;
    }
    var existing := KeepExisting(storage, p, SortByStart(nodeBackups.value));
    r := Some(existing);
  }

  function Before(done: seq<NodeBackup>, rest: Option<seq<NodeBackup>>): Option<seq<NodeBackup>> {
    match rest
    case None => None
    case Some(r) => Some(done + r)
  }

  lemma BeforeNothing(rest: Option<seq<NodeBackup>>)
    ensures Before([], rest) == rest
  {
    if rest.Some? { assert [] + rest.value == rest.value; }
  }

  lemma BeforeCons(done: seq<NodeBackup>, nb: Option<NodeBackup>, rest: Option<seq<NodeBackup>>)
    ensures nb.Some? && rest.Some? ==> Before(done, Some([nb.value] + rest.value)) == Before(done + [nb.value], rest)
  {
    if nb.Some? && rest.Some? {
      assert done + ([nb.value] + rest.value) == done + [nb.value] + rest.value;
    }
  }

  method ReadAll(storage: ObjectStore, p: string, listing: seq<string>, toks: seq<string>) returns (r: Option<seq<NodeBackup>>)
    ensures r == ReadEntries(storage.blobs, p, listing, toks)
  {
    hide ReadEntry;
    var nodeBackups := [];
    var i := 0;
    assert toks[0..] == toks;
    BeforeNothing(ReadEntries(storage.blobs, p, listing, toks));
    while i < |toks|
      invariant 0 <= i <= |toks|
      invariant ReadEntries(storage.blobs, p, listing, toks)
                == Before(nodeBackups, ReadEntries(storage.blobs, p, listing, toks[i..]))
    {
      var nb := ReadEntry(storage.blobs, p, listing, toks[i]);
      assert toks[i..][1..] == toks[i + 1..];
      BeforeCons(nodeBackups, nb, ReadEntries(storage.blobs, p, listing, toks[i + 1..]));
      if nb.None? {
        return None;
      }
      nodeBackups := nodeBackups + [nb.value];
      i := i + 1;
    }
    assert toks[i..] == [] && nodeBackups + [] == nodeBackups;
    r := Some(nodeBackups);
  }

  /** The generator's second half: once one backup exists, the later ones are not checked. */
  method KeepExisting(storage: ObjectStore, p: string, sorted: seq<NodeBackup>) returns (existing: seq<NodeBackup>)
    modifies storage
    ensures (existing, storage.blobs) == Emit(old(storage.blobs), p, sorted, false)
  {
    hide Exists, CleanIndex;
    var previousExisted := false;
    existing := [];
    var j := 0;
    assert sorted[0..] == sorted;
    assert existing + Emit(storage.blobs, p, sorted, false).0 == Emit(storage.blobs, p, sorted, false).0;
    while j < |sorted|
      invariant 0 <= j <= |sorted|
      invariant var rest := Emit(storage.blobs, p, sorted[j..], previousExisted);
                Emit(old(storage.blobs), p, sorted, false) == (existing + rest.0, rest.1)
    {
      var nb := sorted[j];
      assert sorted[j..][1..] == sorted[j + 1..];
      if previousExisted || Exists(storage.blobs, p, nb.id) {
        ghost var rest := Emit(storage.blobs, p, sorted[j + 1..], true);
        assert existing + ([nb] + rest.0) == existing + [nb] + rest.0;
        previousExisted := true;
        existing := existing + [nb];
      } else {
        CleanBackupFromIndex(storage, p, nb.id);
      }
      j := j + 1;
    }
    assert sorted[j..] == [] && existing + [] == existing;
  }

  method CleanBackupFromIndex(storage: ObjectStore, p: string, id: BackupId)
    modifies storage
    ensures storage.blobs == CleanIndex(old(storage.blobs), p, id)
  {
    var names := storage.List(IndexDir(p, id.name));
    ghost var start := storage.blobs;
    var i := 0;
    while i < |names|
      invariant 0 <= i <= |names|
      invariant storage.blobs == start - (set k | k in names[..i] && Contains(k, "_" + id.fqdn))
    {
      if Contains(names[i], "_" + id.fqdn) {
        storage.Delete(names[i]);
      }
      i := i + 1;
    }
    assert (set k | k in names && Contains(k, "_" + id.fqdn))
        == (set k | k in ListObjects(start, IndexDir(p, id.name)) && Contains(k, "_" + id.fqdn));
    assert names[..i] == names;
  }
}
