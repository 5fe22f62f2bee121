/**
 Where a backup lives in the store, and which string prefixes reach which keys.
 The listings of the source are by raw string prefix, so isolation between backups,
 hosts, the data pool and the index is a property of the names in use.
 */
module Layout {
  import opened Text
  import opened IndexNames

  datatype Mode = Full | Differential
  datatype BackupId = BackupId(fqdn: string, name: string)

  /** Storage.prefix_path for a configured prefix (`.` when none is set). */
  function PrefixPath(prefix: string): string {
    if |prefix| > 1 then prefix + "/" else ""
  }

  /** NodeBackup builds its paths from the prefix itself, not from prefix_path. */
  function NodeBase(prefix: string, fqdn: string): string {
    if prefix == "." then fqdn else prefix + "/" + fqdn
  }

  /** The two ways of forming a node's root agree exactly when the prefix is not a single character. */
  lemma PrefixPathsAgree(prefix: string, fqdn: string)
    requires prefix != ""
    ensures PrefixPath(prefix) + fqdn == NodeBase(prefix, fqdn) <==> prefix == "." || |prefix| != 1
  {
    if |prefix| == 1 && prefix != "." {
      assert |NodeBase(prefix, fqdn)| == |fqdn| + 2;
    }
  }

  function BackupPath(p: string, id: BackupId): string { p + id.fqdn + "/" + id.name }

  function MetaKey(p: string, id: BackupId, file: string): string {
    BackupPath(p, id) + "/meta/" + file
  }

  function PoolPath(p: string, fqdn: string): string { p + fqdn + "/data" }

  function DataPath(p: string, id: BackupId, mode: Mode): string {
    match mode
    case Full => BackupPath(p, id) + "/data"
    case Differential => PoolPath(p, id.fqdn)
  }

  function IndexedKey(p: string, id: BackupId, k: Kind, ts: nat): string {
    IndexKey(p, id.name, k, id.fqdn, ts)
  }

  /** Every key the system writes has one of these forms. */
  datatype KeyForm =
    | Own(id: BackupId, rest: string)
    | Pool(fqdn: string, rest: string)
    | Entry(id: BackupId, kind: Kind, ts: nat)
    | Latest(fqdn: string, file: string)

  function Render(p: string, f: KeyForm): string {
    match f
    case Own(id, rest) => BackupPath(p, id) + "/" + rest
    case Pool(fqdn, rest) => PoolPath(p, fqdn) + "/" + rest
    case Entry(id, k, ts) => IndexedKey(p, id, k, ts)
    case Latest(fqdn, file) => p + "index/latest_backup/" + fqdn + "/" + file
  }

  // ---------------------------------------------------------------- the names in use

  datatype Site = Site(p: string, hosts: set<string>, names: set<string>)

  predicate GoodHost(p: string, h: string) { h != "index" && h != "." && p != h + "/" }

  /** Neither string is a prefix of the other. */
  predicate Apart(a: string, b: string) { !(a <= b) && !(b <= a) }

  /** Cleaning the index for host h leaves every entry of host g under backup name n alone. */
  ghost predicate IndexApart(p: string, n: string, h: string, g: string) {
    forall k, ts :: !Contains(IndexKey(p, n, k, g, ts), "_" + h)
  }

  /** Names that read back from the index. */
  ghost predicate ReadableSite(s: Site) {
    && CleanPrefix(s.p)
    && (forall h :: h in s.hosts ==> Clean(h))
    && (forall n :: n in s.names ==> Clean(n))
  }

  /** Names whose backups, pools and index entries no listing confuses. */
  ghost predicate GoodSite(s: Site) {
    && ReadableSite(s)
    && (forall h :: h in s.hosts ==> GoodHost(s.p, h))
    && (forall n :: n in s.names ==> Apart(n, "data") && n != ".")
    && (forall n, m :: n in s.names && m in s.names && n != m ==> Apart(n, m))
    && (forall n, h, g :: n in s.names && h in s.hosts && g in s.hosts && h != g ==> IndexApart(s.p, n, h, g))
  }

  predicate InSite(s: Site, id: BackupId) { id.fqdn in s.hosts && id.name in s.names }

  predicate ValidForm(s: Site, f: KeyForm) {
    match f
    case Own(id, _) => InSite(s, id)
    case Pool(fqdn, _) => fqdn in s.hosts
    case Entry(id, _, _) => InSite(s, id)
    case Latest(_, _) => true
  }

  predicate BelongsTo(f: KeyForm, id: BackupId) {
    (f.Own? && f.id == id) || (f.Entry? && f.id == id)
  }

  // ---------------------------------------------------------------- first components

  function FirstPart(f: KeyForm): string {
    match f
    case Own(id, _) => id.fqdn
    case Pool(fqdn, _) => fqdn
    case Entry(_, _, _) => "index"
    case Latest(_, _) => "index"
  }

  function AfterFirst(f: KeyForm): string {
    match f
    case Own(id, rest) => id.name + "/" + rest
    case Pool(_, rest) => "data/" + rest
    case Entry(id, k, ts) => "backup_index/" + id.name + "/" + FileName(k, id.fqdn, ts)
    case Latest(fqdn, file) => "latest_backup/" + fqdn + "/" + file
  }

  lemma RenderParts(p: string, f: KeyForm)
    ensures Render(p, f) == p + (FirstPart(f) + ['/'] + AfterFirst(f))
  {
    hide FileName;
    match f {
      case Own(id, rest) => RegroupOwn(p, id.fqdn, id.name, rest);
      case Pool(fqdn, rest) => RegroupData(p, fqdn, rest);
      case Entry(id, k, ts) => RegroupIndex(p, "backup_index/", id.name, FileName(k, id.fqdn, ts));
      case Latest(fqdn, file) => RegroupIndex(p, "latest_backup/", fqdn, file);
    }
  }

  lemma RegroupOwn(p: string, h: string, n: string, rest: string)
    ensures p + h + "/" + n + "/" + rest == p + (h + ['/'] + (n + "/" + rest))
  {
  }

  lemma RegroupData(p: string, h: string, rest: string)
    ensures p + h + "/data" + "/" + rest == p + (h + ['/'] + ("data/" + rest))
  {
    assert "/data" + "/" == ['/'] + "data/";
    assert p + h + "/data" + "/" + rest == p + h + ("/data" + "/") + rest;
  }

  lemma RegroupIndex(p: string, b: string, d: string, f: string)
    ensures p + ("index/" + b) + d + "/" + f == p + ("index" + ['/'] + (b + d + "/" + f))
    ensures "index/" + "backup_index/" == "index/backup_index/"
    ensures "index/" + "latest_backup/" == "index/latest_backup/"
  {
    assert "index/" == "index" + ['/'];
    Regroup(p, "index", ['/'], b, d, "/", f);
  }

  lemma Regroup(p: string, a: string, b: string, c: string, d: string, e: string, f: string)
    ensures p + (a + b + c) + d + e + f == p + (a + b + (c + d + e + f))
  {
  }

  /** Which rendered keys a listing of `p/first/x` reaches. */
  lemma ReachParts(p: string, first: string, x: string, f: KeyForm)
    requires '/' !in first && '/' !in FirstPart(f)
    ensures p + (first + ['/'] + x) <= Render(p, f) <==> first == FirstPart(f) && x <= AfterFirst(f)
  {
    RenderParts(p, f);
    CommonPrefix(p, first + ['/'] + x, FirstPart(f) + ['/'] + AfterFirst(f));
    if first + ['/'] + x <= FirstPart(f) + ['/'] + AfterFirst(f) {
      PrefixCancel(first, x, FirstPart(f), AfterFirst(f), '/');
    }
    if first == FirstPart(f) && x <= AfterFirst(f) {
      CommonPrefix(first + ['/'], x, AfterFirst(f));
    }
  }

  lemma FirstPartPlain(s: Site, f: KeyForm)
    requires GoodSite(s) && ValidForm(s, f)
    ensures '/' !in FirstPart(f)
    ensures f.Own? || f.Pool? ==> FirstPart(f) != "index"
  {
  }

  lemma WordBeforeSlash(a: string, b: string, y: string)
    requires '/' !in a
    ensures a <= b + "/" + y <==> a <= b
  {
    if a <= b + "/" + y {
      assert b + "/" + y == b + ['/'] + y;
      WordPrefix(a, b, '/', y);
    }
    if a <= b {
      assert (b + "/" + y)[..|a|] == b[..|a|];
    }
  }

  /** Listing a backup path reaches exactly the backup's own keys. */
  lemma BackupPathReaches(s: Site, id: BackupId, f: KeyForm)
    requires GoodSite(s) && InSite(s, id) && ValidForm(s, f)
    ensures BackupPath(s.p, id) <= Render(s.p, f) <==> f.Own? && f.id == id
  {
    hide Render, FileName, Contains, IndexApart;
    FirstPartPlain(s, f);
    assert BackupPath(s.p, id) == s.p + (id.fqdn + ['/'] + id.name);
    ReachParts(s.p, id.fqdn, id.name, f);
    match f
    case Own(other, rest) =>
      WordBeforeSlash(id.name, other.name, rest);
      assert id.name <= other.name <==> id.name == other.name by {
        if id.name != other.name { assert Apart(id.name, other.name); }
      }
    case Pool(h, rest) =>
      assert "data/" + rest == "data" + "/" + rest;
      WordBeforeSlash(id.name, "data", rest);
    case Entry(other, k, ts) =>
    case Latest(h, file) =>
  }

  /** Listing `<fqdn>/data` reaches exactly that host's pool. */
  lemma PoolPathReaches(s: Site, h: string, f: KeyForm)
    requires GoodSite(s) && h in s.hosts && ValidForm(s, f)
    ensures PoolPath(s.p, h) <= Render(s.p, f) <==> f.Pool? && f.fqdn == h
    ensures PoolPath(s.p, h) + "/" <= Render(s.p, f) <==> f.Pool? && f.fqdn == h
  {
    hide Render, FileName, Contains, IndexApart;
    FirstPartPlain(s, f);
    assert PoolPath(s.p, h) == s.p + (h + ['/'] + "data");
    assert PoolPath(s.p, h) + "/" == s.p + (h + ['/'] + "data/");
    ReachParts(s.p, h, "data", f);
    ReachParts(s.p, h, "data/", f);
    match f
    case Own(other, rest) =>
      WordBeforeSlash("data", other.name, rest);
      assert "data/"[..4] == "data";
    case Pool(g, rest) =>
    case Entry(other, k, ts) =>
    case Latest(g, file) =>
  }

  /** Listing the index root reaches exactly the index entries. */
  lemma IndexRootReaches(s: Site, f: KeyForm)
    requires GoodSite(s) && ValidForm(s, f)
    ensures IndexRoot(s.p) <= Render(s.p, f) <==> f.Entry?
  {
    hide Render, FileName, Contains, IndexApart;
    FirstPartPlain(s, f);
    assert "index/backup_index" == "index" + ['/'] + "backup_index";
    assert IndexRoot(s.p) == s.p + ("index" + ['/'] + "backup_index");
    ReachParts(s.p, "index", "backup_index", f);
    match f
    case Own(other, rest) =>
    case Pool(g, rest) =>
    case Entry(other, k, ts) =>
    case Latest(g, file) =>
      assert ("latest_backup/" + g + "/" + file)[0] == 'l';
  }

  /** Listing one backup's index directory reaches exactly the entries under that backup name. */
  lemma IndexDirReaches(s: Site, n: string, f: KeyForm)
    requires GoodSite(s) && n in s.names && ValidForm(s, f)
    ensures IndexDir(s.p, n) <= Render(s.p, f) <==> f.Entry? && f.id.name == n
  {
    hide IndexDir, Render, FileName, Contains, IndexApart;
    FirstPartPlain(s, f);
    var b := "backup_index/";
    RegroupDir(s.p, n);
    ReachParts(s.p, "index", b + n, f);
    match f
    case Own(other, rest) =>
    case Pool(g, rest) =>
    case Entry(other, k, ts) =>
      NameThenFile(b, n, other.name, FileName(k, other.fqdn, ts));
      assert n <= other.name <==> n == other.name by {
        if n != other.name { assert Apart(n, other.name); }
      }
    case Latest(g, file) =>
      FirstLetters(n, g, file);
  }

  lemma RegroupDir(p: string, n: string)
    ensures IndexDir(p, n) == p + ("index" + ['/'] + ("backup_index/" + n))
  {
    assert "index/backup_index/" == "index" + ['/'] + "backup_index/";
  }

  lemma FirstLetters(n: string, g: string, file: string)
    ensures !("backup_index/" + n <= "latest_backup/" + g + "/" + file)
  {
    assert ("backup_index/" + n)[0] == 'b' && ("latest_backup/" + g + "/" + file)[0] == 'l';
  }

  lemma NameThenFile(b: string, n: string, m: string, y: string)
    requires '/' !in n
    ensures b + n <= b + m + "/" + y <==> n <= m
  {
    assert b + m + "/" + y == b + (m + "/" + y);
    CommonPrefix(b, n, m + "/" + y);
    WordBeforeSlash(n, m, y);
  }

  /** The substring test of index cleaning, on the entries of one backup name. */
  lemma EntryMentions(s: Site, id: BackupId, f: KeyForm)
    requires GoodSite(s) && InSite(s, id) && ValidForm(s, f) && f.Entry? && f.id.name == id.name
    ensures Contains(Render(s.p, f), "_" + id.fqdn) <==> f.id.fqdn == id.fqdn
  {
    if f.id.fqdn == id.fqdn {
      OwnEntryMentions(s.p, id, f.kind, f.ts);
    } else {
      assert IndexApart(s.p, id.name, id.fqdn, f.id.fqdn);
    }
  }

  lemma OwnEntryMentions(p: string, id: BackupId, k: Kind, ts: nat)
    ensures Contains(IndexedKey(p, id, k, ts), "_" + id.fqdn)
  {
    var t := Tail(k, id.fqdn, ts);
    TailStarts(k, id.fqdn, ts);
    hide Tail, Word, Contains;
    ContainsInside(IndexDir(p, id.name) + "/" + Word(k), "_" + id.fqdn, t[|id.fqdn|..]);
    RegroupTail(IndexDir(p, id.name), Word(k), id.fqdn, t[|id.fqdn|..]);
  }

  lemma TailStarts(k: Kind, fqdn: string, ts: nat)
    ensures fqdn <= Tail(k, fqdn, ts)
    ensures Tail(k, fqdn, ts) == fqdn + Tail(k, fqdn, ts)[|fqdn|..]
  {
    hide Decimal;
  }

  lemma RegroupTail(dir: string, w: string, h: string, t: string)
    ensures dir + "/" + (w + "_" + (h + t)) == dir + "/" + w + ("_" + h) + t
  {
  }

  // ---------------------------------------------------------------- distinct keys

  /** A key that does not belong to a backup is none of that backup's keys. */
  lemma ForeignKeysDiffer(s: Site, f: KeyForm, g: KeyForm, id: BackupId)
    requires GoodSite(s) && ValidForm(s, f) && ValidForm(s, g) && InSite(s, id)
    requires BelongsTo(g, id) && !BelongsTo(f, id)
    ensures Render(s.p, f) != Render(s.p, g)
  {
    hide Render, GoodSite;
    BackupPathReaches(s, id, f);
    BackupPathReaches(s, id, g);
    IndexDirReaches(s, id.name, f);
    IndexDirReaches(s, id.name, g);
    if g.Entry? && f.Entry? && f.id.name == id.name {
      EntryMentions(s, id, f);
      EntryMentions(s, id, g);
    }
  }

  lemma OwnKeysDiffer(p: string, id: BackupId, a: string, b: string)
    ensures Render(p, Own(id, a)) == Render(p, Own(id, b)) <==> a == b
  {
    var x := BackupPath(p, id) + "/";
    assert Render(p, Own(id, a)) == x + a && Render(p, Own(id, b)) == x + b;
    assert (x + a)[|x|..] == a && (x + b)[|x|..] == b;
  }

  /** Index entries of different kinds have different keys, and none is an object of a backup or pool. */
  lemma EntryKeysDiffer(s: Site, id: BackupId, k: Kind, ts: nat, f: KeyForm)
    requires GoodSite(s) && InSite(s, id) && ValidForm(s, f)
    requires f.Entry? ==> f.kind != k
    ensures Render(s.p, Entry(id, k, ts)) != Render(s.p, f)
  {
    IndexRootReaches(s, f);
    IndexRootReaches(s, Entry(id, k, ts));
    if f.Entry? {
      KeyWords(s.p, id.name, k, id.fqdn, ts, k);
      KeyWords(s.p, f.id.name, f.kind, f.id.fqdn, f.ts, k);
    }
    hide IndexKey, Contains, Word, IndexRoot, Clean;
  }

  // ---------------------------------------------------------------- checking a site's names

  /** Equal-length distinct names, such as the default 12-digit ones, are never prefixes of each other. */
  lemma EqualLengthApart(n: string, m: string)
    requires |n| == |m| && n != m
    ensures Apart(n, m)
  {
    assert m[..|n|] == m && n[..|m|] == n;
  }
}
