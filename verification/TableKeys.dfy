/**
 Paths of SSTable files, local and stored, and the (keyspace, table key) they normalise to.
 Files of a secondary index live in a hidden folder and get the key `table.<folder>`.
 */
module TableKeys {
  import opened Text
  import opened IndexNames

  /** A pathlib path: whether it is absolute, and its components. */
  datatype Path = Path(absolute: bool, parts: seq<string>)

  function Components(raw: seq<string>): (r: seq<string>)
  {
    if raw == [] then []
    else if raw[0] == "" || raw[0] == "." then Components(raw[1..])
    else [raw[0]] + Components(raw[1..])
  }

  function ParsePath(s: string): Path {
    Path("/" <= s, Components(Split(s, '/')))
  }

  /** `.name` of the path (k = 0), of its parent (k = 1), and so on. */
  function NameUp(path: Path, k: nat): string {
    if k < |path.parts| then path.parts[|path.parts| - 1 - k] else ""
  }

  predicate EndsWith(s: string, w: string) { |w| <= |s| && s[|s| - |w|..] == w }

  /** Hidden folders are secondary indexes; folders ending in `nodes` are taken for DSE metadata. */
  predicate Special(folder: string) { "." <= folder || EndsWith(folder, "nodes") }

  /** path_maybe_with_parent. */
  function PathMaybeWithParent(dest: string, src: Path): string {
    if Special(NameUp(src, 1)) then dest + "/" + NameUp(src, 1) + "/" + NameUp(src, 0)
    else dest + "/" + NameUp(src, 0)
  }

  /** sanitize_keyspace_and_table_name on a local snapshot path; None is the RuntimeError. */
  function SanitizeLocal(path: Path): Option<(string, string)> {
    var n := |path.parts|;
    var special := Special(NameUp(path, 1));
    if (n + 1 < 7 && special) || n + 1 < 6 then None
    else if special then Some((path.parts[n - 6], path.parts[n - 5] + "." + path.parts[n - 2]))
    else Some((path.parts[n - 5], path.parts[n - 4]))
  }

  /** sanitize_keyspace_and_table_name on an object name. */
  function SanitizeStored(path: Path): (string, string) {
    if Special(NameUp(path, 1)) then (NameUp(path, 3), NameUp(path, 2) + "." + NameUp(path, 1))
    else (NameUp(path, 2), NameUp(path, 1))
  }

  /** url_to_path: everything from the first component equal to the host, behind the prefix. */
  function UrlToPath(url: string, fqdn: string, prefixPath: string): Option<string> {
    match IndexOfPart(Split(url, '/'), fqdn)
    case None => None
    case Some(i) => Some(prefixPath + Join(Split(url, '/')[i..], '/'))
  }

  function IndexOfPart(parts: seq<string>, x: string): (r: Option<nat>)
    ensures r.Some? ==> r.value < |parts| && parts[r.value] == x
  {
    if parts == [] then None
    else if parts[0] == x then Some(0)
    else
      match IndexOfPart(parts[1..], x)
      case None => None
      case Some(i) => Some(i + 1)
  }

  // ---------------------------------------------------------------- snapshot files

  /** A file directly in the snapshot's tag folder, or in one subfolder of it. */
  datatype SnapFile = SnapFile(sub: Option<string>, name: string, size: nat, md5: string, data: string)

  predicate Component(s: string) { s != "" && '/' !in s && s != "." }

  /** Table directories are `<name>-<id>`: no dot, not ending in `nodes`. */
  predicate GoodTable(t: string) { Component(t) && '.' !in t && !EndsWith(t, "nodes") }

  predicate GoodTag(tag: string) { Component(tag) && !Special(tag) }

  predicate GoodFile(f: SnapFile) {
    Component(f.name) && (f.sub.Some? ==> Component(f.sub.value) && "." <= f.sub.value)
  }

  function SubParts(sub: Option<string>): seq<string> { if sub.Some? then [sub.value] else [] }

  function LocalPath(root: seq<string>, keyspace: string, table: string, tag: string, f: SnapFile): Path {
    Path(true, root + [keyspace, table, "snapshots", tag] + SubParts(f.sub) + [f.name])
  }

  function TableKey(table: string, sub: Option<string>): string {
    if sub.Some? then table + "." + sub.value else table
  }

  /** A file's place below the data folder of a backup. */
  function Relative(keyspace: string, table: string, sub: Option<string>, name: string): string {
    Join([keyspace, table] + SubParts(sub) + [name], '/')
  }

  /** The key a snapshot file is uploaded to, as the source computes it. */
  function UploadKey(dataPath: string, root: seq<string>, keyspace: string, table: string, tag: string, f: SnapFile): string {
    PathMaybeWithParent(dataPath + "/" + keyspace + "/" + table, LocalPath(root, keyspace, table, tag, f))
  }

  lemma LocalNames(root: seq<string>, keyspace: string, table: string, tag: string, f: SnapFile)
    ensures var path := LocalPath(root, keyspace, table, tag, f);
            NameUp(path, 0) == f.name && NameUp(path, 1) == if f.sub.Some? then f.sub.value else tag
  {
  }

  lemma RelativeSteps(keyspace: string, table: string, sub: Option<string>, name: string)
    ensures Relative(keyspace, table, sub, name)
            == keyspace + "/" + table + (if sub.Some? then "/" + sub.value else "") + "/" + name
  {
    if sub.Some? {
      assert [keyspace, table] + SubParts(sub) + [name] == [keyspace, table, sub.value, name];
      JoinFour(keyspace, table, sub.value, name);
    } else {
      assert [keyspace, table] + SubParts(sub) + [name] == [keyspace, table, name];
      JoinThree(keyspace, table, name);
    }
  }

  /** Uploading keeps a file's relative place, hidden folder included. */
  lemma UploadKeyShape(dataPath: string, root: seq<string>, keyspace: string, table: string, tag: string, f: SnapFile)
    requires GoodTag(tag) && GoodFile(f)
    ensures UploadKey(dataPath, root, keyspace, table, tag, f) == dataPath + "/" + Relative(keyspace, table, f.sub, f.name)
  {
    LocalNames(root, keyspace, table, tag, f);
    RelativeSteps(keyspace, table, f.sub, f.name);
    hide LocalPath, Relative, NameUp;
    if f.sub.Some? {
      assert Special(f.sub.value);
      Regroup4(dataPath, keyspace, table, f.sub.value, f.name);
    } else {
      Regroup3(dataPath, keyspace, table, f.name);
    }
  }

  lemma Regroup4(d: string, k: string, t: string, s: string, n: string)
    ensures d + "/" + k + "/" + t + "/" + s + "/" + n == d + "/" + (k + "/" + t + ("/" + s) + "/" + n)
  {
  }

  lemma Regroup3(d: string, k: string, t: string, n: string)
    ensures d + "/" + k + "/" + t + "/" + n == d + "/" + (k + "/" + t + "" + "/" + n)
  {
  }

  /** The key of a file under a data folder given by its components. */
  function StoredKey(dataParts: seq<string>, keyspace: string, table: string, sub: Option<string>, name: string): string {
    Join(dataParts + ([keyspace, table] + SubParts(sub) + [name]), '/')
  }

  predicate AllComponents(parts: seq<string>) { forall i :: 0 <= i < |parts| ==> Component(parts[i]) }

  lemma StoredKeyIsRelative(dataParts: seq<string>, keyspace: string, table: string, sub: Option<string>, name: string)
    requires dataParts != []
    ensures StoredKey(dataParts, keyspace, table, sub, name) == Join(dataParts, '/') + "/" + Relative(keyspace, table, sub, name)
  {
    JoinConcat(dataParts, [keyspace, table] + SubParts(sub) + [name], '/');
  }

  lemma {:induction false} ComponentsKeep(parts: seq<string>)
    requires AllComponents(parts)
    ensures Components(parts) == parts
  {
    if parts != [] {
      ComponentsKeep(parts[1..]);
    }
  }

  lemma {:induction false} JoinStartsWith(parts: seq<string>)
    requires parts != [] && AllComponents(parts)
    ensures var s := Join(parts, '/'); s != "" && s[0] == parts[0][0] && !("/" <= s)
  {
    assert parts[0][0] in parts[0];
    assert Join(parts, '/')[0] == parts[0][0];
    assert "/"[0] == '/';
  }

  lemma ParseJoined(parts: seq<string>)
    requires parts != [] && AllComponents(parts)
    ensures ParsePath(Join(parts, '/')) == Path(false, parts)
  {
    SplitJoin(parts, '/');
    ComponentsKeep(parts);
    JoinStartsWith(parts);
  }

  lemma SpecialFolders(table: string, sub: Option<string>)
    requires GoodTable(table)
    requires sub.Some? ==> "." <= sub.value
    ensures !Special(table) && (sub.Some? ==> Special(sub.value))
  {
    assert table[0] in table;
  }

  /** The normalised key of a stored object. */
  lemma StoredKeyReads(dataParts: seq<string>, keyspace: string, table: string, sub: Option<string>, name: string)
    requires dataParts != [] && AllComponents(dataParts) && Component(keyspace) && GoodTable(table) && Component(name)
    requires sub.Some? ==> Component(sub.value) && "." <= sub.value
    ensures var path := ParsePath(StoredKey(dataParts, keyspace, table, sub, name));
            && SanitizeStored(path) == (keyspace, TableKey(table, sub))
            && NameUp(path, 0) == name
  {
    var parts := dataParts + ([keyspace, table] + SubParts(sub) + [name]);
    ParseJoined(parts);
    SpecialFolders(table, sub);
    hide ParsePath, Special, EndsWith;
  }

  /** A snapshot file's local path and the path it is uploaded to normalise to the same keyspace and table key. */
  lemma LocalAndStoredKeysAgree(dataParts: seq<string>, root: seq<string>, keyspace: string, table: string, tag: string, f: SnapFile)
    requires dataParts != [] && AllComponents(dataParts) && Component(keyspace) && GoodTable(table) && GoodTag(tag) && GoodFile(f)
    requires |root| >= 1
    ensures var key := UploadKey(Join(dataParts, '/'), root, keyspace, table, tag, f);
            && key == StoredKey(dataParts, keyspace, table, f.sub, f.name)
            && SanitizeLocal(LocalPath(root, keyspace, table, tag, f)) == Some(SanitizeStored(ParsePath(key)))
            && SanitizeStored(ParsePath(key)) == (keyspace, TableKey(table, f.sub))
  {
    UploadKeyShape(Join(dataParts, '/'), root, keyspace, table, tag, f);
    StoredKeyIsRelative(dataParts, keyspace, table, f.sub, f.name);
    StoredKeyReads(dataParts, keyspace, table, f.sub, f.name);
    LocalNames(root, keyspace, table, tag, f);
    SpecialFolders(table, f.sub);
    hide ParsePath, Special, EndsWith, StoredKey, UploadKey, SanitizeStored, Relative;
  }

  /** Table keys tell a table from every table-and-index pair. */
  lemma TableKeyInjective(t1: string, s1: Option<string>, t2: string, s2: Option<string>)
    requires '.' !in t1 && '.' !in t2
    requires TableKey(t1, s1) == TableKey(t2, s2)
    ensures t1 == t2 && s1 == s2
  {
    var k1, k2 := TableKey(t1, s1), TableKey(t2, s2);
    assert s1.Some? ==> k1[|t1|] == '.' && '.' in k1;
    assert s2.Some? ==> k2[|t2|] == '.' && '.' in k2;
    if s1.Some? && s2.Some? {
      PrefixCancel(t1, s1.value, t2, s2.value, '.');
      PrefixCancel(t2, s2.value, t1, s1.value, '.');
      assert s1.value == s2.value[..|s1.value|] == s2.value;
    }
  }

  /** Distinct files of a snapshot are uploaded to distinct keys. */
  lemma UploadInjective(dataParts: seq<string>, k1: string, t1: string, f1: SnapFile, k2: string, t2: string, f2: SnapFile)
    requires dataParts != [] && AllComponents(dataParts)
    requires Component(k1) && GoodTable(t1) && GoodFile(f1) && Component(k2) && GoodTable(t2) && GoodFile(f2)
    requires StoredKey(dataParts, k1, t1, f1.sub, f1.name) == StoredKey(dataParts, k2, t2, f2.sub, f2.name)
    ensures k1 == k2 && t1 == t2 && f1.sub == f2.sub && f1.name == f2.name
  {
    StoredKeyReads(dataParts, k1, t1, f1.sub, f1.name);
    StoredKeyReads(dataParts, k2, t2, f2.sub, f2.name);
    TableKeyInjective(t1, f1.sub, t2, f2.sub);
  }

  lemma UrlWithoutPrefix(h: string, rest: string)
    requires '/' !in h
    ensures UrlToPath(h + "/" + rest, h, "") == Some(h + "/" + rest)
  {
    var tail := h + "/" + rest;
    assert tail == h + ['/'] + rest;
    SplitConcat(h, '/', rest);
    SplitWord(h, '/');
    JoinSplit(tail, '/');
    var parts := Split(tail, '/');
    assert parts[0] == h && parts[0..] == parts;
    hide Split, Join;
    assert "" + tail == tail;
  }

  lemma UrlWithPrefix(q: string, h: string, rest: string)
    requires '/' !in q && '/' !in h
    ensures var url := q + "/" + h + "/" + rest;
            UrlToPath(url, h, q + "/") == Some(if q == h then q + "/" + url else url)
  {
    var tail := h + ['/'] + rest;
    var url := q + "/" + h + "/" + rest;
    assert url == q + ['/'] + tail;
    SplitConcat(h, '/', rest);
    SplitWord(h, '/');
    SplitConcat(q, '/', tail);
    SplitWord(q, '/');
    JoinSplit(tail, '/');
    JoinSplit(url, '/');
    var parts := Split(url, '/');
    assert parts == [q] + Split(tail, '/');
    assert parts[1..] == Split(tail, '/') && parts[0..] == parts && parts[1] == h;
    hide Split, Join;
    assert parts[1..][0] == h;
    assert q + "/" + tail == url;
    if q == h {
      assert IndexOfPart(parts, h) == Some(0);
    } else {
      assert IndexOfPart(parts[1..], h) == Some(0);
      assert IndexOfPart(parts, h) == Some(1);
    }
  }

  /** The manifest path of a stored object is its name, exactly when the prefix is not the host itself. */
  lemma UrlToPathIdentity(p: string, h: string, rest: string)
    requires p == "" || (|p| > 1 && p[|p| - 1] == '/' && '/' !in p[..|p| - 1])
    requires '/' !in h
    ensures UrlToPath(p + h + "/" + rest, h, p) == Some(if p == h + "/" then p + (p + h + "/" + rest) else p + h + "/" + rest)
    ensures UrlToPath(p + h + "/" + rest, h, p) == Some(p + h + "/" + rest) <==> p != h + "/"
  {
    hide UrlToPath;
    if p == "" {
      UrlWithoutPrefix(h, rest);
      assert p + h + "/" + rest == h + "/" + rest;
      assert |h + "/"| > 0;
    } else {
      var q := p[..|p| - 1];
      assert p == q + "/";
      UrlWithPrefix(q, h, rest);
      assert (h + "/")[..|h|] == h;
      assert |q + "/" + (p + h + "/" + rest)| > |p + h + "/" + rest|;
    }
  }
}
