/** Python's stable sorted(): by a key that is a list of integers, or a string taken as its code points. */
module Ordering {

  datatype Keyed<T> = Keyed(key: seq<int>, item: T)

  /** Lexicographic order. */
  predicate LexLe(a: seq<int>, b: seq<int>) {
    if a == [] then true
    else if b == [] then false
    else a[0] < b[0] || (a[0] == b[0] && LexLe(a[1..], b[1..]))
  }

  lemma {:induction false} LexTotal(a: seq<int>, b: seq<int>)
    ensures LexLe(a, b) || LexLe(b, a)
  {
    if a != [] && b != [] { LexTotal(a[1..], b[1..]); }
  }

  lemma {:induction false} LexAntisymmetric(a: seq<int>, b: seq<int>)
    requires LexLe(a, b) && LexLe(b, a)
    ensures a == b
  {
    if a != [] && b != [] {
      LexAntisymmetric(a[1..], b[1..]);
      assert a == [a[0]] + a[1..] && b == [b[0]] + b[1..];
    }
  }

  lemma {:induction false} LexTransitive(a: seq<int>, b: seq<int>, c: seq<int>)
    requires LexLe(a, b) && LexLe(b, c)
    ensures LexLe(a, c)
  {
    if a != [] && a[0] == b[0] == c[0] { LexTransitive(a[1..], b[1..], c[1..]); }
  }

  /** Insertion behind every element whose key is not greater. */
  function Insert<T>(s: seq<Keyed<T>>, x: Keyed<T>): seq<Keyed<T>> {
    if s == [] then [x]
    else if LexLe(s[|s| - 1].key, x.key) then s + [x]
    else Insert(s[..|s| - 1], x) + [s[|s| - 1]]
  }

  function Sort<T>(s: seq<Keyed<T>>): seq<Keyed<T>> {
    if s == [] then [] else Insert(Sort(s[..|s| - 1]), s[|s| - 1])
  }

  ghost predicate Ascending<T(!new)>(s: seq<Keyed<T>>) {
    forall i, j :: 0 <= i < j < |s| ==> LexLe(s[i].key, s[j].key)
  }

  ghost predicate DistinctKeys<T(!new)>(s: seq<Keyed<T>>) {
    forall i, j :: 0 <= i < j < |s| ==> s[i].key != s[j].key
  }

  lemma {:induction false} InsertKeeps<T>(s: seq<Keyed<T>>, x: Keyed<T>)
    ensures multiset(Insert(s, x)) == multiset(s) + multiset{x}
  {
    if s != [] && !LexLe(s[|s| - 1].key, x.key) {
      InsertKeeps(s[..|s| - 1], x);
      assert s == s[..|s| - 1] + [s[|s| - 1]];
    }
  }

  lemma {:induction false} InsertAscends<T(!new)>(s: seq<Keyed<T>>, x: Keyed<T>)
    requires Ascending(s)
    ensures Ascending(Insert(s, x))
  {
    if s != [] {
      var front, last := s[..|s| - 1], s[|s| - 1];
      if LexLe(last.key, x.key) {
        forall i | 0 <= i < |s| ensures LexLe(s[i].key, x.key) {
          if i < |s| - 1 { LexTransitive(s[i].key, last.key, x.key); }
        }
      } else {
        InsertAscends(front, x);
        InsertKeeps(front, x);
        LexTotal(last.key, x.key);
        var r := Insert(front, x);
        forall i | 0 <= i < |r| ensures LexLe(r[i].key, last.key) {
          assert r[i] in multiset(r);
          assert r[i] in front || r[i] == x;
        }
      }
    }
  }

  lemma SortedNothing<T(!new)>()
    ensures Ascending<T>([])
  {
  }

  /** sorted() gives the same elements in ascending order. */
  lemma {:induction false} SortSorts<T(!new)>(s: seq<Keyed<T>>)
    ensures multiset(Sort(s)) == multiset(s) && |Sort(s)| == |s|
    ensures Ascending(Sort(s))
  {
    hide Ascending, Insert;
    if s == [] {
      SortedNothing<T>();
    } else {
      var front, last := s[..|s| - 1], s[|s| - 1];
      SortSorts(front);
      InsertKeeps(Sort(front), last);
      InsertAscends(Sort(front), last);
      assert s == front + [last];
    }
    assert |multiset(Sort(s))| == |multiset(s)|;
  }

  ghost predicate SameMembers<T(!new)>(s: seq<T>, t: seq<T>) { forall x :: x in s <==> x in t }

  ghost function KeySet<T(!new)>(s: seq<Keyed<T>>): set<seq<int>> { set x | x in s :: x.key }

  lemma KeyAt<T(!new)>(s: seq<Keyed<T>>, k: seq<int>) returns (i: nat)
    requires k in KeySet(s)
    ensures i < |s| && s[i].key == k
  {
    var x :| x in s && x.key == k;
    i :| 0 <= i < |s| && s[i] == x;
  }

  lemma KeyIn<T(!new)>(s: seq<Keyed<T>>, i: nat)
    requires i < |s|
    ensures s[i].key in KeySet(s)
  {
    assert s[i] in s;
  }

  lemma Twice<T(!new)>(t: seq<T>, i: nat, j: nat)
    requires i < j < |t|
    ensures t[i] == t[j] ==> multiset(t)[t[i]] >= 2
  {
    assert t == t[..i] + [t[i]] + t[i + 1..j] + [t[j]] + t[j + 1..];
  }

  lemma Located<T(!new)>(s: seq<T>, t: seq<T>, i: nat) returns (a: nat)
    requires multiset(s) == multiset(t) && i < |t|
    ensures a < |s| && s[a] == t[i]
  {
    assert t[i] in multiset(t);
    a :| 0 <= a < |s| && s[a] == t[i];
  }

  lemma OnceOnly<T(!new)>(s: seq<Keyed<T>>, a: nat)
    requires DistinctKeys(s) && a < |s|
    ensures multiset(s)[s[a]] == 1
  {
    assert s == s[..a] + [s[a]] + s[a + 1..];
    assert s[a] !in s[..a] && s[a] !in s[a + 1..];
  }

  lemma KeysStayDistinct<T(!new)>(s: seq<Keyed<T>>, t: seq<Keyed<T>>)
    requires multiset(s) == multiset(t) && DistinctKeys(s)
    ensures DistinctKeys(t)
  {
    forall i, j | 0 <= i < j < |t| ensures t[i].key != t[j].key {
      var a := Located(s, t, i);
      var b := Located(s, t, j);
      assert t[i].key == t[j].key ==> a == b;
      OnceOnly(s, a);
      Twice(t, i, j);
    }
  }

  lemma HeadLeast<T(!new)>(s: seq<Keyed<T>>, i: nat)
    requires Ascending(s) && i < |s|
    ensures LexLe(s[0].key, s[i].key)
  {
    LexTotal(s[0].key, s[0].key);
  }

  lemma SameHead<T(!new), U(!new)>(s: seq<Keyed<T>>, t: seq<Keyed<U>>)
    requires KeySet(s) == KeySet(t) && Ascending(s) && Ascending(t) && s != [] && t != []
    ensures s[0].key == t[0].key
  {
    hide LexLe, Ascending, KeySet;
    KeyIn(s, 0);
    KeyIn(t, 0);
    var j := KeyAt(t, s[0].key);
    var i := KeyAt(s, t[0].key);
    HeadLeast(t, j);
    HeadLeast(s, i);
    LexAntisymmetric(s[0].key, t[0].key);
  }

  lemma TailOf<T(!new)>(s: seq<Keyed<T>>)
    requires s != [] && DistinctKeys(s) && Ascending(s)
    ensures DistinctKeys(s[1..]) && Ascending(s[1..])
  {
    hide LexLe;
  }

  lemma KeysOfTail<T(!new)>(s: seq<Keyed<T>>)
    requires s != [] && DistinctKeys(s)
    ensures KeySet(s[1..]) == KeySet(s) - {s[0].key}
  {
    assert s == [s[0]] + s[1..];
    assert forall x :: x in s[1..] ==> x.key != s[0].key;
  }

  lemma NoKeys<T(!new)>(s: seq<Keyed<T>>)
    ensures KeySet(s) == {} <==> s == []
  {
    if s != [] { KeyIn(s, 0); }
  }

  /** Ascending sequences with the same distinct keys carry equal keys at equal positions. */
  lemma {:induction false} KeysAgree<T(!new), U(!new)>(s: seq<Keyed<T>>, t: seq<Keyed<U>>)
    requires KeySet(s) == KeySet(t) && DistinctKeys(s) && DistinctKeys(t) && Ascending(s) && Ascending(t)
    ensures |s| == |t| && forall i :: 0 <= i < |s| ==> s[i].key == t[i].key
  {
    hide *;
    NoKeys(s);
    NoKeys(t);
    if s != [] && t != [] {
      SameHead(s, t);
      TailOf(s);
      TailOf(t);
      KeysOfTail(s);
      KeysOfTail(t);
      KeysAgree(s[1..], t[1..]);
      forall i | 0 <= i < |s| ensures s[i].key == t[i].key {
        if i > 0 { assert s[i] == s[1..][i - 1] && t[i] == t[1..][i - 1]; }
      }
    }
  }

  lemma MembersKept<T(!new)>(s: seq<T>, t: seq<T>)
    requires multiset(s) == multiset(t)
    ensures SameMembers(s, t)
  {
    forall x ensures x in s <==> x in t {
      assert x in s <==> x in multiset(s);
      assert x in t <==> x in multiset(t);
    }
  }

  lemma SortOf<T(!new)>(s: seq<Keyed<T>>)
    requires DistinctKeys(s)
    ensures Ascending(Sort(s)) && DistinctKeys(Sort(s)) && SameMembers(s, Sort(s)) && |Sort(s)| == |s|
  {
    hide Sort, DistinctKeys, Ascending;
    SortSorts(s);
    KeysStayDistinct(s, Sort(s));
    MembersKept(s, Sort(s));
  }

  lemma KeyNames<T(!new)>(a: seq<Keyed<T>>, b: seq<Keyed<T>>, i: nat)
    requires SameMembers(a, b) && DistinctKeys(b) && i < |a| && i < |b| && a[i].key == b[i].key
    ensures a[i] == b[i]
  {
    assert a[i] in a && a[i] in b;
    var j :| 0 <= j < |b| && b[j] == a[i];
    assert i < j || j < i || i == j;
  }

  /** Sorting forgets the order the elements came in, provided keys are distinct. */
  lemma SortCanonical<T(!new)>(s: seq<Keyed<T>>, t: seq<Keyed<T>>)
    requires SameMembers(s, t) && DistinctKeys(s) && DistinctKeys(t)
    ensures Sort(s) == Sort(t)
  {
    hide Sort, LexLe, Ascending, DistinctKeys;
    SortOf(s);
    SortOf(t);
    var a, b := Sort(s), Sort(t);
    assert SameMembers(a, b);
    KeysAgree(a, b);
    forall i | 0 <= i < |a| ensures a[i] == b[i] {
      KeyNames(a, b, i);
    }
  }
}
