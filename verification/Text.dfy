/**
 String operations the storage layer relies on: substring tests, splitting on a
 character, prefix listing and decimal timestamps, with the cancellation lemmas
 that make string prefixes behave like path prefixes.
 */
module Text {

  datatype Option<+T> = None | Some(value: T)

  predicate OccursAt(s: string, w: string, i: int) {
    0 <= i <= |s| - |w| && s[i..i + |w|] == w
  }

  /** Python's `w in s`. */
  predicate Contains(s: string, w: string) {
    exists i | 0 <= i <= |s| - |w| :: OccursAt(s, w, i)
  }

  /** A word that avoids the separator occurs in a joined string exactly when it occurs on one side. */
  lemma ContainsAcross(a: string, c: char, b: string, w: string)
    requires w != "" && c !in w
    ensures Contains(a + [c] + b, w) <==> Contains(a, w) || Contains(b, w)
  {
    var s := a + [c] + b;
    if Contains(s, w) {
      var i :| 0 <= i <= |s| - |w| && OccursAt(s, w, i);
      assert s[|a|] == c;
      assert s[..|a|] == a && s[|a| + 1..] == b;
      if i + |w| <= |a| {
        assert a[i..i + |w|] == s[i..i + |w|];
        assert OccursAt(a, w, i);
      } else if |a| < i {
        var j := i - |a| - 1;
        assert b[j..j + |w|] == s[i..i + |w|];
        assert OccursAt(b, w, j);
      }
    }
    if Contains(a, w) {
      var i :| 0 <= i <= |a| - |w| && OccursAt(a, w, i);
      assert s[i..i + |w|] == a[i..i + |w|];
      assert OccursAt(s, w, i);
    }
    if Contains(b, w) {
      var i :| 0 <= i <= |b| - |w| && OccursAt(b, w, i);
      var j := i + |a| + 1;
      assert s[|a| + 1..] == b;
      assert s[j..j + |w|] == s[|a| + 1..][i..i + |w|] == b[i..i + |w|];
      assert OccursAt(s, w, j);
    }
  }

  lemma ContainsInside(a: string, w: string, b: string)
    ensures Contains(a + w + b, w)
  {
    var s := a + w + b;
    assert s[|a|..|a| + |w|] == w;
    assert OccursAt(s, w, |a|);
  }

  /** `str.split(c)`. */
  function Split(s: string, c: char): (parts: seq<string>)
    ensures |parts| >= 1
    ensures forall i :: 0 <= i < |parts| ==> c !in parts[i]
  {
    if s == "" then [""]
    else
      var rest := Split(s[1..], c);
      if s[0] == c then [""] + rest else [[s[0]] + rest[0]] + rest[1..]
  }

  /** `c.join(parts)`. */
  function Join(parts: seq<string>, c: char): string {
    if parts == [] then ""
    else if |parts| == 1 then parts[0]
    else parts[0] + [c] + Join(parts[1..], c)
  }

  lemma {:induction false} SplitWord(s: string, c: char)
    requires c !in s
    ensures Split(s, c) == [s]
  {
    if s != "" {
      assert c !in s[1..];
      SplitWord(s[1..], c);
      assert [s[0]] + s[1..] == s;
    }
  }

  lemma SplitStep(s: string, c: char)
    requires s != ""
    ensures Split(s, c) == var rest := Split(s[1..], c);
                           if s[0] == c then [""] + rest else [[s[0]] + rest[0]] + rest[1..]
  {
  }

  lemma ConsAppend<T>(x: T, l: seq<T>, r: seq<T>)
    ensures [x] + (l + r) == ([x] + l) + r
    ensures l != [] ==> [x] + (l + r)[1..] == ([x] + l[1..]) + r
  {
    assert l != [] ==> (l + r)[1..] == l[1..] + r;
  }

  lemma {:induction false} SplitConcat(a: string, c: char, b: string)
    ensures Split(a + [c] + b, c) == Split(a, c) + Split(b, c)
  {
    if a == "" {
      assert a + [c] + b == [c] + b;
      assert ([c] + b)[1..] == b;
    } else {
      var s := a + [c] + b;
      assert s[1..] == a[1..] + [c] + b && s[0] == a[0];
      SplitConcat(a[1..], c, b);
      SplitStep(s, c);
      SplitStep(a, c);
      hide Split;
      var l, r := Split(a[1..], c), Split(b, c);
      ConsAppend("", l, r);
      ConsAppend([s[0]] + l[0], l, r);
      assert (l + r)[0] == l[0];
    }
  }

  /** Split and Join are inverse on words without the separator. */
  lemma {:induction false} SplitJoin(parts: seq<string>, c: char)
    requires |parts| >= 1
    requires forall i :: 0 <= i < |parts| ==> c !in parts[i]
    ensures Split(Join(parts, c), c) == parts
  {
    SplitWord(parts[0], c);
    if |parts| > 1 {
      SplitJoin(parts[1..], c);
      SplitConcat(parts[0], c, Join(parts[1..], c));
    }
  }

  lemma {:induction false} JoinConcat(a: seq<string>, b: seq<string>, c: char)
    requires a != [] && b != []
    ensures Join(a + b, c) == Join(a, c) + [c] + Join(b, c)
  {
    if |a| == 1 {
      assert (a + b)[1..] == b;
    } else {
      assert (a + b)[1..] == a[1..] + b;
      JoinConcat(a[1..], b, c);
      calc {
        Join(a + b, c);
        a[0] + [c] + (Join(a[1..], c) + [c] + Join(b, c));
        (a[0] + [c] + Join(a[1..], c)) + [c] + Join(b, c);
      }
    }
  }

  lemma JoinThree(b: string, c: string, d: string)
    ensures Join([b, c, d], '/') == b + "/" + c + "/" + d
  {
    assert [b, c, d][1..] == [c, d];
    assert [c, d][1..] == [d];
    assert Join([d], '/') == d;
    assert Join([c, d], '/') == c + "/" + d;
  }

  lemma JoinFour(a: string, b: string, c: string, d: string)
    ensures Join([a, b, c, d], '/') == a + "/" + b + "/" + c + "/" + d
  {
    JoinThree(b, c, d);
    assert [a, b, c, d][1..] == [b, c, d];
  }

  lemma {:induction false} JoinSplit(s: string, c: char)
    ensures Join(Split(s, c), c) == s
  {
    if s != "" {
      JoinSplit(s[1..], c);
      var rest := Split(s[1..], c);
      if s[0] == c {
        assert ([""] + rest)[1..] == rest;
        assert "" + [c] + s[1..] == s;
      } else {
        var whole := [[s[0]] + rest[0]] + rest[1..];
        assert whole[1..] == rest[1..];
        assert [s[0]] + s[1..] == s;
      }
    }
  }

  /** Prefixes of separated strings cancel component by component. */
  lemma PrefixCancel(a: string, x: string, b: string, y: string, c: char)
    requires c !in a && c !in b
    requires a + [c] + x <= b + [c] + y
    ensures a == b && x <= y
  {
    var s, t := a + [c] + x, b + [c] + y;
    assert s[|a|] == c && t[|b|] == c;
    assert t[..|s|] == s;
    assert |a| == |b|;
    assert a == s[..|a|] == t[..|b|] == b;
    assert x == s[|a| + 1..] && y == t[|b| + 1..];
    forall i | 0 <= i < |x| ensures x[i] == y[i] {
      assert x[i] == s[|a| + 1 + i] == t[|a| + 1 + i];
    }
  }

  /** A separator-free string that prefixes `b/y` already prefixes `b`. */
  lemma WordPrefix(a: string, b: string, c: char, y: string)
    requires c !in a
    requires a <= b + [c] + y
    ensures a <= b
  {
    var t := b + [c] + y;
    assert t[|b|] == c;
    assert a == t[..|a|] == b[..|a|];
  }

  lemma CommonPrefix(p: string, x: string, y: string)
    ensures p + x <= p + y <==> x <= y
  {
    if p + x <= p + y {
      assert x == (p + x)[|p|..];
      assert y == (p + y)[|p|..];
      forall i | 0 <= i < |x| ensures x[i] == y[i] {
        assert x[i] == (p + x)[|p| + i] == (p + y)[|p| + i];
      }
    }
  }

  const DIGITS: string := "0123456789"

  predicate IsDigit(c: char) { '0' <= c <= '9' }

  predicate AllDigits(s: string) { forall i :: 0 <= i < |s| ==> IsDigit(s[i]) }

  /** `str(n)` for a non-negative timestamp. */
  function Decimal(n: nat): (s: string)
    ensures s != "" && AllDigits(s)
  {
    if n < 10 then [DIGITS[n]] else Decimal(n / 10) + [DIGITS[n % 10]]
  }

  /** `int(s)` of a digit string. */
  function ParseDecimal(s: string): nat
    requires AllDigits(s)
  {
    if s == "" then 0
    else 10 * ParseDecimal(s[..|s| - 1]) + (s[|s| - 1] as int - '0' as int)
  }

  lemma {:induction false} DecimalRoundTrip(n: nat)
    ensures ParseDecimal(Decimal(n)) == n
  {
    var s := Decimal(n);
    if n < 10 {
      assert s[..0] == "";
    } else {
      DecimalRoundTrip(n / 10);
      assert s[..|s| - 1] == Decimal(n / 10);
    }
  }
}
