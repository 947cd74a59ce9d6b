/** Python string operations the dashboard relies on: the `in` substring
    test, `str.lower()` (ASCII letters only), `", ".join(...)` and the text
    that `str()` produces for a list of strings. */
module Text {

  /** `n` is a prefix of `s`. */
  predicate StartsWith(s: string, n: string) {
    |n| <= |s| && s[..|n|] == n
  }

  /** `n` occurs in `s` at offset `i`. */
  predicate OccursAt(s: string, n: string, i: nat) {
    i + |n| <= |s| && s[i..i + |n|] == n
  }

  /** Python's `n in s` for two strings. */
  predicate Contains(s: string, n: string) {
    exists i: nat | i <= |s| :: OccursAt(s, n, i)
  }

  /** An occurrence at a known offset is an occurrence. */
  lemma ContainsAt(s: string, n: string, i: nat)
    requires OccursAt(s, n, i)
    ensures Contains(s, n)
  {
  }

  /** The search advances one character at a time: `n` occurs in `s` when
      it is a prefix of `s` or occurs in `s[1..]`. */
  lemma ContainsUnfold(s: string, n: string)
    ensures Contains(s, n) <==> StartsWith(s, n) || (s != [] && Contains(s[1..], n))
  {
    if Contains(s, n) && !StartsWith(s, n) {
      var i: nat :| OccursAt(s, n, i);
      assert OccursAt(s, n, i);
      assert i != 0;
      assert s[1..][i - 1..i - 1 + |n|] == s[i..i + |n|];
      assert OccursAt(s[1..], n, i - 1);
    }
    if StartsWith(s, n) {
      assert OccursAt(s, n, 0);
    }
    if s != [] && Contains(s[1..], n) {
      var i: nat :| OccursAt(s[1..], n, i);
      assert OccursAt(s[1..], n, i);
      assert s[i + 1..i + 1 + |n|] == s[1..][i..i + |n|];
      assert OccursAt(s, n, i + 1);
    }
  }

  /** No character of `s` is one of `cs`. */
  predicate Avoids(s: string, cs: string) {
    forall i :: 0 <= i < |s| ==> s[i] !in cs
  }

  /** A needle holding one of the characters a text avoids does not occur
      in it. */
  lemma AbsentChar(s: string, n: string, k: nat, cs: string)
    requires k < |n| && n[k] in cs && Avoids(s, cs)
    ensures !Contains(s, n)
  {
  }

  /** The empty text contains only the empty needle. */
  lemma EmptyContains(n: string)
    ensures Contains("", n) <==> n == []
  {
    if n == [] {
      assert OccursAt("", n, 0);
    }
  }

  /** Python's `str.lower()` restricted to ASCII: 'A'..'Z' become 'a'..'z'
      and every other character, accented capitals included, is kept. */
  function LowerChar(c: char): (r: char)
    ensures 'A' <= c <= 'Z' ==> 'a' <= r <= 'z' && r as int - c as int == 32
    ensures !('A' <= c <= 'Z') ==> r == c
  {
    if 'A' <= c <= 'Z' then (c as int + 32) as char else c
  }

  function Lower(s: string): (r: string)
    ensures |r| == |s|
    ensures forall i :: 0 <= i < |s| ==> r[i] == LowerChar(s[i])
  {
    seq(|s|, i requires 0 <= i < |s| => LowerChar(s[i]))
  }

  /** Lower-casing twice is lower-casing once. */
  lemma LowerIdempotent(s: string)
    ensures Lower(Lower(s)) == Lower(s)
  {
  }

  /** `sep.join(xs)`. */
  function Join(xs: seq<string>, sep: string): (r: string)
    ensures |xs| == 1 ==> r == xs[0]
    ensures forall i :: 0 <= i < |xs| ==> Contains(r, xs[i])
  {
    if |xs| == 0 then ""
    else if |xs| == 1 then assert OccursAt(xs[0], xs[0], 0); xs[0]
    else
      var rest := Join(xs[1..], sep);
      JoinHasHead(xs[0], sep + rest);
      assert xs[0] + sep + rest == xs[0] + (sep + rest);
      forall i | 1 <= i < |xs|
        ensures Contains(xs[0] + sep + rest, xs[i])
      {
        assert xs[i] == xs[1..][i - 1];
        assert Contains(rest, xs[1..][i - 1]);
        HasTail(xs[0] + sep, rest, xs[i]);
        assert xs[0] + sep + rest == (xs[0] + sep) + rest;
      }
      xs[0] + sep + rest
  }

  lemma JoinHasHead(a: string, b: string)
    ensures Contains(a + b, a)
  {
    assert OccursAt(a + b, a, 0);
  }

  /** Whatever occurs in `b` occurs in `a + b`. */
  lemma HasTail(a: string, b: string, n: string)
    requires Contains(b, n)
    ensures Contains(a + b, n)
  {
    var i: nat :| OccursAt(b, n, i);
    assert OccursAt(b, n, i);
    assert (a + b)[|a| + i..|a| + i + |n|] == b[i..i + |n|];
    assert OccursAt(a + b, n, |a| + i);
  }

  /** An occurrence cannot run across a character the needle lacks, so
      searching `a + [d] + b` is searching `a` and `b` apart. */
  lemma {:induction false} ContainsSplit(a: string, d: char, b: string, n: string)
    requires n != [] && d !in n
    ensures Contains(a + [d] + b, n) <==> Contains(a, n) || Contains(b, n)
  {
    var s := a + [d] + b;
    ContainsUnfold(s, n);
    ContainsUnfold(a, n);
    if a == [] {
      EmptyContains(n);
      assert s[1..] == b;
      assert s[0] == d;
    } else {
      assert s[1..] == a[1..] + [d] + b;
      ContainsSplit(a[1..], d, b, n);
      if |n| <= |a| {
        assert s[..|n|] == a[..|n|];
      } else {
        assert s[|a|] == d;
      }
    }
  }

  /** The characters that `str()` of a list adds around and between its
      elements: brackets, separator, quotes and the escape backslash. */
  const ListDelimiters: string := "[], '\"\\"

  /** A non-empty needle that contains none of `ListDelimiters`. */
  predicate PlainNeedle(n: string) {
    n != [] && forall i :: 0 <= i < |n| ==> n[i] !in ListDelimiters
  }

  /** The quote Python's `repr` picks for a string: double quotes when the
      text holds a single quote and no double quote, else single quotes. */
  function QuoteFor(s: string): (q: char)
    ensures q == '\'' || q == '"'
    ensures q == '"' <==> '\'' in s && '"' !in s
  {
    if '\'' in s && '"' !in s then '"' else '\''
  }

  /** Backslash-escape the backslash and the chosen quote. */
  function EscapeChar(c: char, q: char): (r: string)
    ensures c == '\\' || c == q ==> r == ['\\', c]
    ensures c != '\\' && c != q ==> r == [c]
  {
    if c == '\\' || c == q then ['\\', c] else [c]
  }

  function Escape(s: string, q: char): (r: string)
    ensures |r| >= |s|
  {
    if s == [] then [] else EscapeChar(s[0], q) + Escape(s[1..], q)
  }

  /** `repr(s)` for a string. */
  function PyRepr(s: string): (r: string)
    ensures |r| >= |s| + 2
    ensures r[0] == r[|r| - 1] == QuoteFor(s)
  {
    var q := QuoteFor(s);
    [q] + Escape(s, q) + [q]
  }

  /** The elements of `str(xs)` between the brackets. */
  function JoinReprs(xs: seq<string>): string {
    if xs == [] then ""
    else if |xs| == 1 then PyRepr(xs[0])
    else PyRepr(xs[0]) + ", " + JoinReprs(xs[1..])
  }

  /** `str(xs)` for a list of strings. */
  function PyStrList(xs: seq<string>): (r: string)
    ensures |r| >= 2 && r[0] == '[' && r[|r| - 1] == ']'
    ensures xs == [] ==> r == "[]"
  {
    "[" + JoinReprs(xs) + "]"
  }

  lemma {:induction false} EscapeStartsWith(t: string, q: char, m: string)
    requires '\\' !in m && q !in m
    ensures StartsWith(Escape(t, q), m) <==> StartsWith(t, m)
  {
    if m != [] && t != [] {
      var e := Escape(t, q);
      if t[0] == '\\' || t[0] == q {
        assert e[0] == '\\';
      } else {
        assert e == [t[0]] + Escape(t[1..], q);
        EscapeStartsWith(t[1..], q, m[1..]);
        assert StartsWith(e, m) <==> e[0] == m[0] && StartsWith(e[1..], m[1..]);
        assert StartsWith(t, m) <==> t[0] == m[0] && StartsWith(t[1..], m[1..]);
      }
    }
  }

  /** Escaping never creates or destroys an occurrence of a needle that
      holds neither a backslash nor the quote. */
  lemma {:induction false} EscapeContains(s: string, q: char, n: string)
    requires n != [] && '\\' !in n && q !in n
    ensures Contains(Escape(s, q), n) <==> Contains(s, n)
  {
    var e := Escape(s, q);
    ContainsUnfold(s, n);
    ContainsUnfold(e, n);
    if s == [] {
      EmptyContains(n);
    } else {
      EscapeStartsWith(s, q, n);
      EscapeContains(s[1..], q, n);
      if s[0] == '\\' || s[0] == q {
        assert e[1..] == [] + [s[0]] + Escape(s[1..], q);
        ContainsSplit([], s[0], Escape(s[1..], q), n);
        EmptyContains(n);
      } else {
        assert e[1..] == Escape(s[1..], q);
      }
    }
  }

  /** An occurrence of a plain needle in `repr(s)` is one in `s`. */
  lemma PyReprContains(s: string, n: string)
    requires PlainNeedle(n)
    ensures Contains(PyRepr(s), n) <==> Contains(s, n)
  {
    var q := QuoteFor(s);
    var e := Escape(s, q);
    assert '\\' !in n && q !in n;
    EscapeContains(s, q, n);
    assert PyRepr(s) == [] + [q] + (e + [q]);
    ContainsSplit([], q, e + [q], n);
    assert e + [q] == e + [q] + [];
    ContainsSplit(e, q, [], n);
    EmptyContains(n);
  }

  /** Some element contains the needle. */
  predicate SomeContains(xs: seq<string>, n: string) {
    exists i :: 0 <= i < |xs| && Contains(xs[i], n)
  }

  lemma {:induction false} JoinReprsContains(xs: seq<string>, n: string)
    requires PlainNeedle(n)
    ensures Contains(JoinReprs(xs), n) <==> SomeContains(xs, n)
  {
    EmptyContains(n);
    if xs != [] {
      PyReprContains(xs[0], n);
      if |xs| > 1 {
        var r := PyRepr(xs[0]);
        var rest := JoinReprs(xs[1..]);
        JoinReprsContains(xs[1..], n);
        assert ',' !in n && ' ' !in n;
        assert r + ", " + rest == r + [','] + ([] + [' '] + rest);
        ContainsSplit(r, ',', [] + [' '] + rest, n);
        ContainsSplit([], ' ', rest, n);
        assert [] + [' '] + rest == [' '] + rest;
        if SomeContains(xs[1..], n) {
          var i :| 0 <= i < |xs[1..]| && Contains(xs[1..][i], n);
          assert Contains(xs[i + 1], n);
        }
        if SomeContains(xs, n) && !Contains(xs[0], n) {
          var i :| 0 <= i < |xs| && Contains(xs[i], n);
          assert xs[1..][i - 1] == xs[i];
        }
      }
    }
  }

  /** A plain needle occurs in `str(xs)` exactly when it occurs in one of
      the elements. */
  lemma PyStrListContains(xs: seq<string>, n: string)
    requires PlainNeedle(n)
    ensures Contains(PyStrList(xs), n) <==> SomeContains(xs, n)
  {
    assert '[' !in n && ']' !in n;
    var j := JoinReprs(xs);
    JoinReprsContains(xs, n);
    assert PyStrList(xs) == [] + ['['] + (j + [']']);
    ContainsSplit([], '[', j + [']'], n);
    assert j + [']'] == j + [']'] + [];
    ContainsSplit(j, ']', [], n);
    EmptyContains(n);
  }
}
