/**
 Storage.list_files_per_table: the pool listing as nested dictionaries keyspace -> table key ->
 file name -> object. The source groups with itertools.groupby without sorting first, so a
 keyspace or table key that comes back later in the listing starts its dictionary afresh.
 */
module PoolIndex {
  import opened Text
  import opened ObjectStorage
  import opened TableKeys

  type Index = map<string, map<string, map<string, ManifestObject>>>

  function KeyOf(o: ManifestObject): (string, string) { SanitizeStored(ParsePath(o.path)) }

  function FileOf(o: ManifestObject): string { NameUp(ParsePath(o.path), 0) }

  function Find(index: Index, keyspace: string, table: string, name: string): Option<ManifestObject> {
    if keyspace in index && table in index[keyspace] && name in index[keyspace][table]
    then Some(index[keyspace][table][name])
    else None
  }

  /** A run ends where the key changes. */
  predicate NewKeyspace(items: seq<ManifestObject>, i: nat)
    requires i < |items|
  {
    i == 0 || KeyOf(items[i - 1]).0 != KeyOf(items[i]).0
  }

  predicate NewTable(items: seq<ManifestObject>, i: nat)
    requires i < |items|
  {
    i == 0 || KeyOf(items[i - 1]) != KeyOf(items[i])
  }

  /** Adding items[i]: a new run replaces the dictionary of its key. */
  function Add(index: Index, items: seq<ManifestObject>, i: nat): Index
    requires i < |items|
  {
    var o := items[i];
    var (ks, table) := KeyOf(o);
    var tables := if NewKeyspace(items, i) || ks !in index then map[] else index[ks];
    var files := if NewTable(items, i) || table !in tables then map[] else tables[table];
    index[ks := tables[table := files[FileOf(o) := o]]]
  }

  function IndexUpTo(items: seq<ManifestObject>, n: nat): Index
    requires n <= |items|
  {
    if n == 0 then map[] else Add(IndexUpTo(items, n - 1), items, n - 1)
  }

  function IndexOf(items: seq<ManifestObject>): Index { IndexUpTo(items, |items|) }

  /** The dictionary of a keyspace replaced by an empty one. */
  function Reset(index: Index, ks: string): Index { index[ks := map[]] }

  function ResetTable(index: Index, ks: string, table: string): Index
    requires ks in index
  {
    index[ks := index[ks][table := map[]]]
  }

  function PutFile(index: Index, ks: string, table: string, o: ManifestObject): Index
    requires ks in index && table in index[ks]
  {
    index[ks := index[ks][table := index[ks][table][FileOf(o) := o]]]
  }

  /** The first object of a keyspace's run, of a table's run within it, and the later ones. */
  lemma AddFirst(index: Index, items: seq<ManifestObject>, i: nat)
    requires i < |items|
    ensures var (ks, table) := KeyOf(items[i]);
            && (NewKeyspace(items, i) ==> PutFile(ResetTable(Reset(index, ks), ks, table), ks, table, items[i]) == Add(index, items, i))
            && (!NewKeyspace(items, i) && NewTable(items, i) && ks in index ==> PutFile(ResetTable(index, ks, table), ks, table, items[i]) == Add(index, items, i))
            && (!NewTable(items, i) && ks in index && table in index[ks] ==> PutFile(index, ks, table, items[i]) == Add(index, items, i))
  {
    hide KeyOf, FileOf;
    var (ks, table) := KeyOf(items[i]);
    var after := Add(index, items, i);
    if NewKeyspace(items, i) { assert PutFile(ResetTable(Reset(index, ks), ks, table), ks, table, items[i])[ks] == after[ks]; }
    if !NewKeyspace(items, i) && NewTable(items, i) && ks in index { assert PutFile(ResetTable(index, ks, table), ks, table, items[i])[ks] == after[ks]; }
    if !NewTable(items, i) && ks in index && table in index[ks] { assert PutFile(index, ks, table, items[i])[ks] == after[ks]; }
  }

  lemma AddedKey(index: Index, items: seq<ManifestObject>, i: nat)
    requires i < |items|
    ensures var (ks, table) := KeyOf(items[i]); ks in Add(index, items, i) && table in Add(index, items, i)[ks]
  {
  }

  /** One table's run from position i: the objects with the key (ks, table). */
  method TableRun(items: seq<ManifestObject>, start: nat, index: Index, ks: string, table: string) returns (r: Index, i: nat)
    requires start < |items| && KeyOf(items[start]) == (ks, table) && ks in index
    requires NewTable(items, start)
    requires if NewKeyspace(items, start) then index == Reset(IndexUpTo(items, start), ks) else index == IndexUpTo(items, start)
    ensures start < i <= |items| && r == IndexUpTo(items, i) && ks in r
    ensures KeyOf(items[i - 1]) == (ks, table) && (i < |items| ==> KeyOf(items[i]) != (ks, table))
  {
    hide KeyOf, FileOf, Add, Reset, ResetTable, PutFile, IndexUpTo;
    TableReset(index, ks, table);
    r := index[ks := index[ks][table := map[]]];
    i := start;
    while i < |items| && KeyOf(items[i]) == (ks, table)
      invariant start <= i <= |items| && ks in r && table in r[ks]
      invariant if i == start then r == ResetTable(index, ks, table) else r == IndexUpTo(items, i) && KeyOf(items[i - 1]) == (ks, table)
    {
      AddFirst(IndexUpTo(items, i), items, i);
      AddedKey(IndexUpTo(items, i), items, i);
      UpToStep(items, i + 1);
      SameRun(items, i);
      PutUnfolds(r, ks, table, items[i]);
      r := r[ks := r[ks][table := r[ks][table][FileOf(items[i]) := items[i]]]];
      i := i + 1;
    }
  }

  lemma TableReset(index: Index, ks: string, table: string)
    requires ks in index
    ensures ResetTable(index, ks, table) == index[ks := index[ks][table := map[]]]
  {
  }

  lemma PutUnfolds(index: Index, ks: string, table: string, o: ManifestObject)
    requires ks in index && table in index[ks]
    ensures PutFile(index, ks, table, o) == index[ks := index[ks][table := index[ks][table][FileOf(o) := o]]]
  {
    hide FileOf;
  }

  lemma SameRun(items: seq<ManifestObject>, i: nat)
    requires i < |items|
    ensures i > 0 && KeyOf(items[i - 1]) == KeyOf(items[i]) ==> !NewTable(items, i) && !NewKeyspace(items, i)
    ensures i == 0 || KeyOf(items[i - 1]) != KeyOf(items[i]) ==> NewTable(items, i)
    ensures i == 0 || KeyOf(items[i - 1]).0 != KeyOf(items[i]).0 ==> NewKeyspace(items, i) && NewTable(items, i)
    ensures i > 0 && KeyOf(items[i - 1]).0 == KeyOf(items[i]).0 ==> !NewKeyspace(items, i)
  {
    hide KeyOf;
  }

  /** list_files_per_table: a loop over keyspaces, in it one over tables, in it one over objects. */
  method ListFilesPerTable(items: seq<ManifestObject>) returns (index: Index)
    ensures index == IndexOf(items)
  {
    hide KeyOf, FileOf, Add, Reset, NewKeyspace, NewTable;
    index := map[];
    var i := 0;
    while i < |items|
      invariant 0 <= i <= |items| && index == IndexUpTo(items, i)
      invariant 0 < i < |items| ==> KeyOf(items[i - 1]).0 != KeyOf(items[i]).0
    {
      var ks := KeyOf(items[i]).0;
      ghost var start := i;
      KeyspaceReset(index, ks);
      index := index[ks := map[]];
      while i < |items| && KeyOf(items[i]).0 == ks
        invariant start <= i <= |items| && ks in index
        invariant if i == start then index == Reset(IndexUpTo(items, i), ks) else index == IndexUpTo(items, i) && KeyOf(items[i - 1]).0 == ks
        invariant start < i < |items| ==> KeyOf(items[i - 1]) != KeyOf(items[i])
        decreases |items| - i
      {
        SameRun(items, i);
        index, i := TableRun(items, i, index, ks, KeyOf(items[i]).1);
      }
    }
  }

  lemma KeyspaceReset(index: Index, ks: string)
    ensures Reset(index, ks) == index[ks := map[]]
  {
  }

  // ---------------------------------------------------------------- what a lookup finds

  predicate Matches(o: ManifestObject, keyspace: string, table: string, name: string) {
    KeyOf(o) == (keyspace, table) && FileOf(o) == name
  }

  /** A run of the keyspace, or of the table within it, starts at j. */
  predicate StartsAfresh(items: seq<ManifestObject>, j: nat, keyspace: string, table: string)
    requires j < |items|
  {
    || (KeyOf(items[j]).0 == keyspace && NewKeyspace(items, j))
    || (KeyOf(items[j]) == (keyspace, table) && NewTable(items, j))
  }

  /** items[i] is the last match before n, and no later run discards it. */
  ghost predicate Retained(items: seq<ManifestObject>, n: nat, i: nat, keyspace: string, table: string, name: string)
    requires n <= |items|
  {
    && i < n
    && Matches(items[i], keyspace, table, name)
    && (forall j :: i < j < n ==> !Matches(items[j], keyspace, table, name))
    && (forall j :: i < j < n ==> !StartsAfresh(items, j, keyspace, table))
  }

  /** What adding one object does to a lookup. */
  lemma FindAfterAdd(before: Index, items: seq<ManifestObject>, m: nat, keyspace: string, table: string, name: string)
    requires m < |items|
    requires m > 0 ==> var (ks, t) := KeyOf(items[m - 1]); ks in before && t in before[ks]
    ensures Find(Add(before, items, m), keyspace, table, name)
            == if Matches(items[m], keyspace, table, name) then Some(items[m])
               else if StartsAfresh(items, m, keyspace, table) then None
               else Find(before, keyspace, table, name)
  {
    hide KeyOf, FileOf;
  }

  lemma RetainedStep(items: seq<ManifestObject>, m: nat, i: nat, keyspace: string, table: string, name: string)
    requires m < |items|
    ensures Retained(items, m + 1, i, keyspace, table, name)
            <==> if Matches(items[m], keyspace, table, name) then i == m
                 else Retained(items, m, i, keyspace, table, name) && !StartsAfresh(items, m, keyspace, table)
  {
    hide Matches, StartsAfresh;
  }

  /** Exactly the retained object is found: a lookup fails when a later run of its key shadowed it. */
  lemma {:induction false} FindExact(items: seq<ManifestObject>, n: nat, keyspace: string, table: string, name: string)
    requires n <= |items|
    ensures var r := Find(IndexUpTo(items, n), keyspace, table, name);
            && (r.Some? <==> exists i: nat :: Retained(items, n, i, keyspace, table, name))
            && (forall i: nat :: Retained(items, n, i, keyspace, table, name) ==> r == Some(items[i]))
  {
    if n == 0 {
      assert Find(IndexUpTo(items, 0), keyspace, table, name) == None;
    } else {
      var m := n - 1;
      FindExact(items, m, keyspace, table, name);
      LastKeyPresent(items, m);
      UpToStep(items, n);
      FindAfterAdd(IndexUpTo(items, m), items, m, keyspace, table, name);
      hide *;
      forall i: nat ensures Retained(items, n, i, keyspace, table, name)
                            <==> if Matches(items[m], keyspace, table, name) then i == m
                                 else Retained(items, m, i, keyspace, table, name) && !StartsAfresh(items, m, keyspace, table) {
        RetainedStep(items, m, i, keyspace, table, name);
      }
      assert Matches(items[m], keyspace, table, name) ==> Retained(items, n, m, keyspace, table, name);
    }
  }

  lemma UpToStep(items: seq<ManifestObject>, n: nat)
    requires 0 < n <= |items|
    ensures IndexUpTo(items, n) == Add(IndexUpTo(items, n - 1), items, n - 1)
  {
  }

  lemma LastKeyPresent(items: seq<ManifestObject>, n: nat)
    requires n <= |items|
    ensures n > 0 ==> var (ks, table) := KeyOf(items[n - 1]); ks in IndexUpTo(items, n) && table in IndexUpTo(items, n)[ks]
  {
    if n > 0 {
      UpToStep(items, n);
    }
  }

  /** The index never holds an object absent from the listing, nor one under a foreign key. */
  lemma IndexSound(items: seq<ManifestObject>, keyspace: string, table: string, name: string)
    ensures var r := Find(IndexOf(items), keyspace, table, name);
            r.Some? ==> r.value in items && Matches(r.value, keyspace, table, name)
  {
    FindExact(items, |items|, keyspace, table, name);
    var r := Find(IndexOf(items), keyspace, table, name);
    if r.Some? {
      var i: nat :| Retained(items, |items|, i, keyspace, table, name);
      assert r == Some(items[i]);
    }
  }

  /** Equal keyspaces are contiguous, and so are equal (keyspace, table) keys. */
  ghost predicate Contiguous(items: seq<ManifestObject>) {
    forall i, j, k :: 0 <= i <= j <= k < |items| ==>
      && (KeyOf(items[i]).0 == KeyOf(items[k]).0 ==> KeyOf(items[j]).0 == KeyOf(items[i]).0)
      && (KeyOf(items[i]) == KeyOf(items[k]) ==> KeyOf(items[j]) == KeyOf(items[i]))
  }

  lemma LastMatch(items: seq<ManifestObject>, n: nat, keyspace: string, table: string, name: string) returns (i: nat)
    requires n <= |items|
    requires exists i :: 0 <= i < n && Matches(items[i], keyspace, table, name)
    ensures i < n && Matches(items[i], keyspace, table, name)
    ensures forall j :: i < j < n ==> !Matches(items[j], keyspace, table, name)
  {
    hide Matches;
    i := n - 1;
    while !Matches(items[i], keyspace, table, name)
      invariant i < n
      decreases i
      invariant exists k :: 0 <= k <= i && Matches(items[k], keyspace, table, name)
      invariant forall j :: i < j < n ==> !Matches(items[j], keyspace, table, name)
    {
      i := i - 1;
    }
  }

  lemma NoLaterRun(items: seq<ManifestObject>, i: nat, j: nat, keyspace: string, table: string)
    requires Contiguous(items) && i < j < |items| && KeyOf(items[i]) == (keyspace, table)
    ensures !StartsAfresh(items, j, keyspace, table)
  {
    var a, b, c := KeyOf(items[i]), KeyOf(items[j - 1]), KeyOf(items[j]);
    assert (a.0 == c.0 ==> b.0 == a.0) && (a == c ==> b == a);
    hide KeyOf, Contiguous;
  }

  /** On a contiguous listing a lookup succeeds exactly for listed files. */
  lemma IndexComplete(items: seq<ManifestObject>, keyspace: string, table: string, name: string)
    requires Contiguous(items)
    ensures Find(IndexOf(items), keyspace, table, name).Some?
            <==> exists i :: 0 <= i < |items| && Matches(items[i], keyspace, table, name)
  {
    var n := |items|;
    assert IndexUpTo(items, n) == IndexOf(items);
    hide *;
    FindExact(items, n, keyspace, table, name);
    if exists i :: 0 <= i < n && Matches(items[i], keyspace, table, name) {
      var i := LastMatch(items, n, keyspace, table, name);
      MatchKey(items[i], keyspace, table, name);
      forall j | i < j < n ensures !StartsAfresh(items, j, keyspace, table) {
        NoLaterRun(items, i, j, keyspace, table);
      }
      RetainedMake(items, n, i, keyspace, table, name);
    }
    forall i: nat | Retained(items, n, i, keyspace, table, name) ensures i < n && Matches(items[i], keyspace, table, name) {
      RetainedUse(items, n, i, keyspace, table, name);
    }
  }

  lemma MatchKey(o: ManifestObject, keyspace: string, table: string, name: string)
    requires Matches(o, keyspace, table, name)
    ensures KeyOf(o) == (keyspace, table)
  {
    hide KeyOf, FileOf;
  }

  lemma RetainedMake(items: seq<ManifestObject>, n: nat, i: nat, keyspace: string, table: string, name: string)
    requires i < n <= |items| && Matches(items[i], keyspace, table, name)
    requires forall j :: i < j < n ==> !Matches(items[j], keyspace, table, name)
    requires forall j :: i < j < n ==> !StartsAfresh(items, j, keyspace, table)
    ensures Retained(items, n, i, keyspace, table, name)
  {
    hide Matches, StartsAfresh;
  }

  lemma RetainedUse(items: seq<ManifestObject>, n: nat, i: nat, keyspace: string, table: string, name: string)
    requires n <= |items| && Retained(items, n, i, keyspace, table, name)
    ensures i < n && Matches(items[i], keyspace, table, name)
  {
    hide Matches, StartsAfresh;
  }

  /** Two runs of one keyspace: the first table's files are forgotten. */
  lemma InterruptedRunForgets(a: ManifestObject, b: ManifestObject, c: ManifestObject)
    requires KeyOf(a).0 == KeyOf(c).0 && KeyOf(b).0 != KeyOf(a).0 && KeyOf(a) != KeyOf(c)
    ensures Find(IndexOf([a, b, c]), KeyOf(a).0, KeyOf(a).1, FileOf(a)).None?
  {
    var items := [a, b, c];
    FindExact(items, 3, KeyOf(a).0, KeyOf(a).1, FileOf(a));
    hide KeyOf, FileOf, IndexUpTo;
    forall i: nat ensures !Retained(items, 3, i, KeyOf(a).0, KeyOf(a).1, FileOf(a)) {
      assert StartsAfresh(items, 2, KeyOf(a).0, KeyOf(a).1);
    }
  }
}
