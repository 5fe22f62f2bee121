/**
 The names of backup index blobs: how they are written when a backup starts and
 finishes, and how the two regular expressions of the storage layer read them back.
 */
module IndexNames {
  import opened Text

  datatype Kind = Tokenmap | Schema | Manifest | Differential | Incremental | Started | Finished {
    predicate Stamped() { Started? || Finished? }
  }

  function Word(k: Kind): (w: string)
    ensures w != "" && '/' !in w && '_' !in w && '.' !in w
  {
    match k
    case Tokenmap => "tokenmap"
    case Schema => "schema"
    case Manifest => "manifest"
    case Differential => "differential"
    case Incremental => "incremental"
    case Started => "started"
    case Finished => "finished"
  }

  const EXTENSIONS: seq<string> := [".json", ".cql", ".txt", ".timestamp"]

  /** What follows `<kind>_` in the blob name. Only started and finished entries carry the timestamp. */
  function Tail(k: Kind, fqdn: string, ts: nat): string {
    match k
    case Tokenmap => fqdn + ".json"
    case Manifest => fqdn + ".json"
    case Schema => fqdn + ".cql"
    case Differential => fqdn
    case Incremental => fqdn
    case Started => fqdn + "_" + Decimal(ts) + ".timestamp"
    case Finished => fqdn + "_" + Decimal(ts) + ".timestamp"
  }

  function FileName(k: Kind, fqdn: string, ts: nat): string {
    Word(k) + "_" + Tail(k, fqdn, ts)
  }

  function IndexRoot(prefixPath: string): string { prefixPath + "index/backup_index" }

  function IndexDir(prefixPath: string, name: string): string {
    prefixPath + "index/backup_index/" + name
  }

  function IndexKey(prefixPath: string, name: string, k: Kind, fqdn: string, ts: nat): string {
    IndexDir(prefixPath, name) + "/" + FileName(k, fqdn, ts)
  }

  // ---------------------------------------------------------------- reading names back

  predicate WordAt(s: string, i: int, k: Kind) { OccursAt(s, Word(k) + "_", i) }

  /** The alternative of `(tokenmap|schema|manifest|differential|incremental)_` that matches at i. */
  function NameAt(s: string, i: nat): Option<Kind> {
    if WordAt(s, i, Tokenmap) then Some(Tokenmap)
    else if WordAt(s, i, Schema) then Some(Schema)
    else if WordAt(s, i, Manifest) then Some(Manifest)
    else if WordAt(s, i, Differential) then Some(Differential)
    else if WordAt(s, i, Incremental) then Some(Incremental)
    else None
  }

  /** The alternative of `(started|finished)_` that matches at i. */
  function StampAt(s: string, i: nat): Option<Kind> {
    if WordAt(s, i, Started) then Some(Started)
    else if WordAt(s, i, Finished) then Some(Finished)
    else None
  }

  /** The leading `.*` is greedy, so the last possible position wins; scans downwards from i. */
  function MatchNameFrom(s: string, i: nat): Option<string> {
    match NameAt(s, i)
    case Some(k) => Some(s[i + |Word(k)| + 1..])
    case None => if i == 0 then None else MatchNameFrom(s, i - 1)
  }

  function LastUnderscore(s: string): (r: Option<nat>)
    ensures r.Some? ==> r.value < |s| && s[r.value] == '_' && '_' !in s[r.value + 1..]
    ensures r.None? ==> '_' !in s
  {
    if s == "" then None
    else if s[|s| - 1] == '_' then Some(|s| - 1)
    else LastUnderscore(s[..|s| - 1])
  }

  /** `(.*)_([0-9]+).timestamp$`; the dot before `timestamp` is any character. */
  function MatchStampTail(r: string): Option<(string, string)> {
    if |r| < 10 || r[|r| - 9..] != "timestamp" then None
    else
      var body := r[..|r| - 10];
      match LastUnderscore(body)
      case None => None
      case Some(j) =>
        var digits := body[j + 1..];
        if digits != "" && AllDigits(digits) then Some((body[..j], digits)) else None
  }

  function MatchStampFrom(s: string, i: nat): Option<(string, string)> {
    match StampAt(s, i)
    case Some(k) =>
      (match MatchStampTail(s[i + |Word(k)| + 1..])
       case Some(m) => Some(m)
       case None => if i == 0 then None else MatchStampFrom(s, i - 1))
    case None => if i == 0 then None else MatchStampFrom(s, i - 1)
  }

  /** `str.replace(drop, '')`. */
  function Remove(s: string, drop: string): string
    requires drop != ""
    decreases |s|
  {
    if |s| < |drop| then s
    else if s[..|drop|] == drop then Remove(s[|drop|..], drop)
    else [s[0]] + Remove(s[1..], drop)
  }

  function RemoveExtension(s: string): string {
    Remove(Remove(Remove(Remove(s, ".json"), ".cql"), ".txt"), ".timestamp")
  }

  /** None stands for the failed assertion on a malformed name. */
  function FqdnOf(blobName: string): Option<string> {
    match MatchStampFrom(blobName, |blobName|)
    case Some((fqdn, _)) => Some(RemoveExtension(fqdn))
    case None =>
      match MatchNameFrom(blobName, |blobName|)
      case Some(fqdn) => Some(RemoveExtension(fqdn))
      case None => None
  }

  function TimestampOf(blobName: string): (r: Option<nat>) {
    match MatchStampFrom(blobName, |blobName|)
    case Some((_, digits)) => if AllDigits(digits) then Some(ParseDecimal(digits)) else None
    case None => None
  }

  // ---------------------------------------------------------------- names that read back

  /** Free of slashes, kind words and known extensions. */
  ghost predicate Clean(s: string) {
    && s != ""
    && '/' !in s
    && (forall k :: !Contains(s, Word(k)))
    && (forall e :: e in EXTENSIONS ==> !Contains(s, e))
  }

  /** Storage.prefix_path: empty, or one clean component of two or more characters and a slash. */
  ghost predicate CleanPrefix(p: string) {
    p == "" || (|p| >= 3 && p[|p| - 1] == '/' && Clean(p[..|p| - 1]))
  }

  lemma TooShort(s: string, w: string)
    requires |s| < |w|
    ensures !Contains(s, w)
  {
  }

  lemma SuffixContains(s: string, w: string, i: int)
    requires 0 <= i <= |s|
    ensures Contains(s[i..], w) ==> Contains(s, w)
  {
    if Contains(s[i..], w) {
      var j :| 0 <= j <= |s[i..]| - |w| && OccursAt(s[i..], w, j);
      assert s[i + j..i + j + |w|] == s[i..][j..j + |w|];
      assert OccursAt(s, w, i + j);
    }
  }

  /** No kind word hides inside another one or inside the fixed parts of a name. */
  lemma WordInWord(k: Kind, j: Kind)
    ensures Contains(Word(k), Word(j)) <==> k == j
  {
    var s, w := Word(k), Word(j);
    if k == j {
      assert OccursAt(s, w, 0);
    } else {
      forall i | 0 <= i <= |s| - |w| ensures !OccursAt(s, w, i) {
        assert s[i..i + |w|][0] == s[i] && s[i..i + |w|][1] == s[i + 1];
      }
    }
  }

  lemma FixedParts(j: Kind)
    ensures !Contains("index", Word(j)) && !Contains("backup", Word(j))
    ensures !Contains("json", Word(j)) && !Contains("cql", Word(j)) && !Contains("timestamp", Word(j))
  {
    var w := Word(j);
    TooShort("index", w);
    TooShort("json", w);
    TooShort("cql", w);
    forall i | 0 <= i <= |"backup"| - |w| ensures !OccursAt("backup", w, i) {
      assert "backup"[i..i + |w|][0] == "backup"[i];
    }
    forall i | 0 <= i <= |"timestamp"| - |w| ensures !OccursAt("timestamp", w, i) {
      assert "timestamp"[i..i + |w|][0] == "timestamp"[i] && "timestamp"[i..i + |w|][1] == "timestamp"[i + 1];
    }
  }

  lemma DigitsHideNothing(s: string, j: Kind)
    requires AllDigits(s)
    ensures !Contains(s, Word(j))
  {
    var w := Word(j);
    forall i | 0 <= i <= |s| - |w| ensures !OccursAt(s, w, i) {
      assert s[i..i + |w|][0] == s[i];
    }
  }

  lemma TailWords(k: Kind, fqdn: string, ts: nat, j: Kind)
    requires Clean(fqdn)
    ensures !Contains(Tail(k, fqdn, ts), Word(j))
  {
    var w := Word(j);
    FixedParts(j);
    match k
    case Tokenmap =>
      assert fqdn + ".json" == fqdn + ['.'] + "json";
      ContainsAcross(fqdn, '.', "json", w);
    case Manifest =>
      assert fqdn + ".json" == fqdn + ['.'] + "json";
      ContainsAcross(fqdn, '.', "json", w);
    case Schema =>
      assert fqdn + ".cql" == fqdn + ['.'] + "cql";
      ContainsAcross(fqdn, '.', "cql", w);
    case Differential =>
    case Incremental =>
    case Started => StampTailWords(fqdn, ts, j);
    case Finished => StampTailWords(fqdn, ts, j);
  }

  lemma StampTailWords(fqdn: string, ts: nat, j: Kind)
    requires Clean(fqdn)
    ensures !Contains(fqdn + "_" + Decimal(ts) + ".timestamp", Word(j))
  {
    var w, d := Word(j), Decimal(ts);
    FixedParts(j);
    DigitsHideNothing(d, j);
    assert d + ".timestamp" == d + ['.'] + "timestamp";
    ContainsAcross(d, '.', "timestamp", w);
    assert fqdn + "_" + d + ".timestamp" == fqdn + ['_'] + (d + ".timestamp");
    ContainsAcross(fqdn, '_', d + ".timestamp", w);
  }

  lemma DirWords(p: string, name: string, j: Kind)
    requires CleanPrefix(p) && Clean(name)
    ensures !Contains(IndexDir(p, name), Word(j))
  {
    var w := Word(j);
    FixedParts(j);
    assert "index/backup_index" == "index" + ['/'] + "backup_index";
    assert "backup_index" == "backup" + ['_'] + "index";
    ContainsAcross("backup", '_', "index", w);
    ContainsAcross("index", '/', "backup_index", w);
    var tail := "index/backup_index" + ['/'] + name;
    ContainsAcross("index/backup_index", '/', name, w);
    if p == "" {
      assert IndexDir(p, name) == tail;
    } else {
      var q := p[..|p| - 1];
      assert p == q + ['/'];
      assert IndexDir(p, name) == q + ['/'] + tail;
      ContainsAcross(q, '/', tail, w);
    }
  }

  /** A kind word occurs in an index key exactly when the key is of that kind. */
  lemma KeyWords(p: string, name: string, k: Kind, fqdn: string, ts: nat, j: Kind)
    requires CleanPrefix(p) && Clean(name) && Clean(fqdn)
    ensures Contains(IndexKey(p, name, k, fqdn, ts), Word(j)) <==> j == k
    ensures Contains(FileName(k, fqdn, ts), Word(j)) <==> j == k
  {
    var w, dir, file := Word(j), IndexDir(p, name), FileName(k, fqdn, ts);
    DirWords(p, name, j);
    TailWords(k, fqdn, ts, j);
    WordInWord(k, j);
    assert file == Word(k) + ['_'] + Tail(k, fqdn, ts);
    ContainsAcross(Word(k), '_', Tail(k, fqdn, ts), w);
    assert IndexKey(p, name, k, fqdn, ts) == dir + ['/'] + file;
    ContainsAcross(dir, '/', file, w);
  }

  // ---------------------------------------------------------------- the regular expressions on clean names

  lemma WordAtContains(s: string, i: int, k: Kind)
    ensures WordAt(s, i, k) ==> OccursAt(s, Word(k), i) && Contains(s, Word(k))
  {
    hide Word;
    var w := Word(k);
    if WordAt(s, i, k) {
      OccursShorter(s, w, "_", i);
      assert OccursAt(s, w, i);
    }
  }

  lemma OccursShorter(s: string, w: string, more: string, i: int)
    requires OccursAt(s, w + more, i)
    ensures OccursAt(s, w, i)
  {
    var long := s[i..i + |w + more|];
    assert long == w + more;
    assert s[i..i + |w|] == long[..|w|] == w;
  }

  lemma OccursInSuffix(s: string, w: string, i: int, cut: int)
    requires 0 <= cut <= i && cut <= |s|
    ensures OccursAt(s, w, i) ==> Contains(s[cut..], w)
  {
    if OccursAt(s, w, i) {
      assert s[cut..][i - cut..i - cut + |w|] == s[i..i + |w|];
      assert OccursAt(s[cut..], w, i - cut);
    }
  }

  lemma WordTailHidesNothing(k: Kind, j: Kind)
    ensures !Contains(Word(k)[1..], Word(j))
  {
    SuffixContains(Word(k), Word(j), 1);
    WordInWord(k, j);
    if k == j {
      TooShort(Word(k)[1..], Word(j));
    }
  }

  /** After the kind word itself no further kind word starts. */
  lemma NoLaterWord(a: string, k: Kind, rest: string, i: int, j: Kind)
    requires |a| < i
    requires !Contains(rest, Word(j))
    ensures !WordAt(a + Word(k) + "_" + rest, i, j)
  {
    var s := a + Word(k) + "_" + rest;
    var cut := |a| + 1;
    assert s[cut..] == Word(k)[1..] + ['_'] + rest;
    WordTailHidesNothing(k, j);
    ContainsAcross(Word(k)[1..], '_', rest, Word(j));
    OccursInSuffix(s, Word(j), i, cut);
    WordAtContains(s, i, j);
  }

  lemma WordAtSplit(a: string, k: Kind, rest: string)
    ensures var s := a + Word(k) + "_" + rest;
            WordAt(s, |a|, k) && s[|a| + |Word(k)| + 1..] == rest
  {
    var s := a + Word(k) + "_" + rest;
    assert s[|a|..|a| + |Word(k) + "_"|] == Word(k) + "_";
  }

  lemma SamePlace(s: string, i: int, a: string, b: string)
    requires OccursAt(s, a, i) && OccursAt(s, b, i) && |b| <= |a|
    ensures Contains(a, b)
  {
    assert a[0..|b|] == s[i..i + |a|][0..|b|] == s[i..i + |b|];
    assert OccursAt(a, b, 0);
  }

  /** Two kind words cannot start at the same place. */
  lemma OneWordPerPlace(s: string, i: int, k: Kind, j: Kind)
    requires WordAt(s, i, k) && WordAt(s, i, j)
    ensures k == j
  {
    hide *;
    WordAtContains(s, i, k);
    WordAtContains(s, i, j);
    WordInWord(k, j);
    WordInWord(j, k);
    if |Word(j)| <= |Word(k)| {
      SamePlace(s, i, Word(k), Word(j));
    } else {
      SamePlace(s, i, Word(j), Word(k));
    }
  }

  lemma {:induction false} MatchNameFinds(a: string, k: Kind, rest: string, i: nat)
    requires !k.Stamped()
    requires forall j :: !Contains(rest, Word(j))
    requires |a| <= i
    ensures MatchNameFrom(a + Word(k) + "_" + rest, i) == Some(rest)
  {
    var s := a + Word(k) + "_" + rest;
    if i == |a| {
      WordAtSplit(a, k, rest);
      forall j | WordAt(s, i, j) ensures j == k { OneWordPerPlace(s, i, k, j); }
      assert NameAt(s, i) == Some(k);
    } else {
      forall j ensures !WordAt(s, i, j) { NoLaterWord(a, k, rest, i, j); }
      MatchNameFinds(a, k, rest, i - 1);
    }
  }

  lemma {:induction false} MatchStampFails(s: string, i: nat)
    requires !Contains(s, Word(Started)) && !Contains(s, Word(Finished))
    ensures MatchStampFrom(s, i) == None
  {
    WordAtContains(s, i, Started);
    WordAtContains(s, i, Finished);
    assert StampAt(s, i) == None;
    if i > 0 {
      MatchStampFails(s, i - 1);
    }
  }

  lemma UnderscoreBeforeWord(b: string, d: string)
    requires '_' !in d
    ensures LastUnderscore(b + "_" + d) == Some(|b|)
  {
    var s := b + "_" + d;
    var j := LastUnderscore(s).value;
    assert s[|b|] == '_';
    assert s[|b| + 1..] == d;
    forall i | j < i < |s| ensures s[i] != '_' {
      assert s[j + 1..][i - j - 1] == s[i];
    }
    forall i | |b| < i < |s| ensures s[i] != '_' {
      assert d[i - |b| - 1] == s[i];
    }
  }

  lemma StampTailReads(fqdn: string, ts: nat)
    ensures MatchStampTail(fqdn + "_" + Decimal(ts) + ".timestamp") == Some((fqdn, Decimal(ts)))
  {
    var d := Decimal(ts);
    var r := fqdn + "_" + d + ".timestamp";
    assert r[|r| - 9..] == "timestamp";
    assert r[..|r| - 10] == fqdn + "_" + d;
    assert '_' !in d;
    UnderscoreBeforeWord(fqdn, d);
    assert (fqdn + "_" + d)[|fqdn| + 1..] == d;
    assert (fqdn + "_" + d)[..|fqdn|] == fqdn;
  }

  lemma StampHere(a: string, k: Kind, rest: string)
    requires k.Stamped()
    ensures var s := a + Word(k) + "_" + rest;
            StampAt(s, |a|) == Some(k) && s[|a| + |Word(k)| + 1..] == rest
  {
    var s := a + Word(k) + "_" + rest;
    WordAtSplit(a, k, rest);
    forall j | WordAt(s, |a|, j) ensures j == k { OneWordPerPlace(s, |a|, k, j); }
  }

  lemma NoStampLater(a: string, k: Kind, rest: string, i: nat)
    requires |a| < i
    requires forall j :: !Contains(rest, Word(j))
    ensures StampAt(a + Word(k) + "_" + rest, i) == None
  {
    hide Contains, Word, WordAt;
    NoLaterWord(a, k, rest, i, Started);
    NoLaterWord(a, k, rest, i, Finished);
  }

  lemma {:induction false} MatchStampFinds(a: string, k: Kind, rest: string, m: (string, string), i: nat)
    requires k.Stamped() && MatchStampTail(rest) == Some(m)
    requires forall j :: !Contains(rest, Word(j))
    requires |a| <= i
    ensures MatchStampFrom(a + Word(k) + "_" + rest, i) == Some(m)
  {
    hide Contains, Word, StampAt, MatchStampTail;
    if i == |a| {
      StampHere(a, k, rest);
    } else {
      NoStampLater(a, k, rest, i);
      MatchStampFinds(a, k, rest, m, i - 1);
    }
  }

  lemma StampedMatches(a: string, k: Kind, fqdn: string, ts: nat)
    requires k.Stamped() && Clean(fqdn)
    ensures var s := a + FileName(k, fqdn, ts); MatchStampFrom(s, |s|) == Some((fqdn, Decimal(ts)))
  {
    hide *;
    var rest := Tail(k, fqdn, ts);
    StampedTail(k, fqdn, ts);
    StampTailReads(fqdn, ts);
    forall j ensures !Contains(rest, Word(j)) { TailWords(k, fqdn, ts, j); }
    FileNameSplits(a, k, fqdn, ts);
    MatchStampFinds(a, k, rest, (fqdn, Decimal(ts)), |a + FileName(k, fqdn, ts)|);
  }

  lemma FileNameSplits(a: string, k: Kind, fqdn: string, ts: nat)
    ensures a + FileName(k, fqdn, ts) == a + Word(k) + "_" + Tail(k, fqdn, ts)
    ensures |a| <= |a + FileName(k, fqdn, ts)|
  {
    hide Word, Tail;
  }

  lemma StampedTail(k: Kind, fqdn: string, ts: nat)
    requires k.Stamped()
    ensures Tail(k, fqdn, ts) == fqdn + "_" + Decimal(ts) + ".timestamp"
  {
    hide Decimal;
  }

  // ---------------------------------------------------------------- extensions

  lemma {:induction false} RemoveAbsent(s: string, drop: string)
    requires drop != "" && !Contains(s, drop)
    ensures Remove(s, drop) == s
    decreases |s|
  {
    if |s| >= |drop| {
      assert !OccursAt(s, drop, 0);
      SuffixContains(s, drop, 1);
      RemoveAbsent(s[1..], drop);
    }
  }

  /** A dotted extension cannot straddle the end of a name that does not contain it. */
  lemma ExtensionNotAtStart(s: string, drop: string, ext: string)
    requires drop != "" && ext != "" && ext[0] == '.' && '.' !in drop[1..]
    requires s != "" && !Contains(s, drop)
    ensures !(drop <= s + ext)
  {
    var t := s + ext;
    assert t[|s|] == '.';
    assert !OccursAt(s, drop, 0);
    if |drop| <= |s| {
      assert s[0..|drop|] == t[..|drop|];
    } else {
      assert drop[1..][|s| - 1] == drop[|s|];
    }
  }

  /** One step of the replacement, where the word does not start. */
  lemma RemoveStep(t: string, drop: string)
    requires t != "" && drop != "" && !(drop <= t)
    ensures Remove(t, drop) == [t[0]] + Remove(t[1..], drop)
  {
    assert |t| < |drop| ==> |t[1..]| < |drop|;
    assert [t[0]] + t[1..] == t;
  }

  /** What follows the first character of a name with an extension. */
  lemma DropFirst(s: string, ext: string)
    requires s != ""
    ensures s + ext != "" && (s + ext)[0] == s[0] && (s + ext)[1..] == s[1..] + ext && [s[0]] + s[1..] == s
    ensures forall r :: [s[0]] + (s[1..] + r) == s + r
  {
  }

  lemma {:induction false} RemoveAtEnd(s: string, drop: string, ext: string)
    requires drop != "" && ext != "" && ext[0] == '.' && '.' !in drop[1..]
    requires !Contains(s, drop)
    ensures Remove(s + ext, drop) == s + Remove(ext, drop)
    decreases |s|
  {
    hide Contains, Remove;
    if s == "" {
      assert s + ext == ext;
    } else {
      ExtensionNotAtStart(s, drop, ext);
      SuffixContains(s, drop, 1);
      RemoveAtEnd(s[1..], drop, ext);
      DropFirst(s, ext);
      RemoveStep(s + ext, drop);
    }
  }

  lemma RemoveShort(s: string, drop: string, ext: string)
    requires drop != "" && ext != "" && |ext| < |drop| && ext[0] == '.' && '.' !in drop[1..]
    requires !Contains(s, drop)
    ensures Remove(s + ext, drop) == s + ext
  {
    RemoveAtEnd(s, drop, ext);
  }

  lemma RemoveExtensionReads(fqdn: string, ext: string)
    requires Clean(fqdn)
    requires ext in ["", ".json", ".cql"]
    ensures RemoveExtension(fqdn + ext) == fqdn
  {
    assert EXTENSIONS[0] == ".json" && EXTENSIONS[1] == ".cql" && EXTENSIONS[2] == ".txt" && EXTENSIONS[3] == ".timestamp";
    RemoveAbsent(fqdn, ".json");
    RemoveAbsent(fqdn, ".cql");
    RemoveAbsent(fqdn, ".txt");
    RemoveAbsent(fqdn, ".timestamp");
    assert fqdn + "" == fqdn;
    if ext == ".json" {
      RemoveAtEnd(fqdn, ".json", ".json");
      assert Remove(".json", ".json") == "" by { assert ".json"[..5] == ".json"; assert ".json"[5..] == ""; }
    } else if ext == ".cql" {
      RemoveShort(fqdn, ".json", ".cql");
      RemoveAtEnd(fqdn, ".cql", ".cql");
      assert Remove(".cql", ".cql") == "" by { assert ".cql"[..4] == ".cql"; assert ".cql"[4..] == ""; }
    }
  }

  // ---------------------------------------------------------------- round trip of one name

  lemma StampedReads(a: string, k: Kind, fqdn: string, ts: nat)
    requires Clean(fqdn) && k.Stamped()
    ensures FqdnOf(a + FileName(k, fqdn, ts)) == Some(fqdn)
  {
    StampedMatches(a, k, fqdn, ts);
    RemoveExtensionReads(fqdn, "");
    assert fqdn + "" == fqdn;
  }

  lemma UnstampedReads(a: string, k: Kind, fqdn: string, ts: nat)
    requires Clean(fqdn) && !k.Stamped()
    requires !Contains(a + FileName(k, fqdn, ts), Word(Started)) && !Contains(a + FileName(k, fqdn, ts), Word(Finished))
    ensures FqdnOf(a + FileName(k, fqdn, ts)) == Some(fqdn)
  {
    var rest := Tail(k, fqdn, ts);
    var s := a + FileName(k, fqdn, ts);
    MatchStampFails(s, |s|);
    forall j ensures !Contains(rest, Word(j)) { TailWords(k, fqdn, ts, j); }
    FileNameSplits(a, k, fqdn, ts);
    MatchNameFinds(a, k, rest, |s|);
    var ext := if k.Schema? then ".cql" else if k.Tokenmap? || k.Manifest? then ".json" else "";
    assert rest == fqdn + ext;
    RemoveExtensionReads(fqdn, ext);
  }

  /** Every index blob name reads back to its host, alone or behind its directory. */
  lemma FqdnRoundTrip(p: string, name: string, k: Kind, fqdn: string, ts: nat)
    requires CleanPrefix(p) && Clean(name) && Clean(fqdn)
    ensures FqdnOf(IndexKey(p, name, k, fqdn, ts)) == Some(fqdn)
    ensures FqdnOf(FileName(k, fqdn, ts)) == Some(fqdn)
  {
    var a := IndexDir(p, name) + "/";
    assert IndexKey(p, name, k, fqdn, ts) == a + FileName(k, fqdn, ts);
    assert FileName(k, fqdn, ts) == "" + FileName(k, fqdn, ts);
    if k.Stamped() {
      StampedReads(a, k, fqdn, ts);
      StampedReads("", k, fqdn, ts);
    } else {
      KeyWords(p, name, k, fqdn, ts, Started);
      KeyWords(p, name, k, fqdn, ts, Finished);
      UnstampedReads(a, k, fqdn, ts);
      UnstampedReads("", k, fqdn, ts);
    }
  }

  /** The timestamp written in a started or finished entry is the one read. */
  lemma TimestampRoundTrip(p: string, name: string, k: Kind, fqdn: string, ts: nat)
    requires CleanPrefix(p) && Clean(name) && Clean(fqdn) && k.Stamped()
    ensures TimestampOf(IndexKey(p, name, k, fqdn, ts)) == Some(ts)
  {
    var key := IndexKey(p, name, k, fqdn, ts);
    var a := IndexDir(p, name) + "/";
    assert key == a + FileName(k, fqdn, ts);
    StampedMatches(a, k, fqdn, ts);
    DecimalRoundTrip(ts);
  }
}
