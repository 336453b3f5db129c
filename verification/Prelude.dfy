/** Vocabulary shared by the other modules. */
module Prelude {

  datatype Option<+T> = None | Some(value: T)

  datatype Result<+T, +E> = Ok(value: T) | Err(error: E)

  /** The concatenation of a list of text fragments, `"".join(parts)`. */
  function Join(parts: seq<string>): string {
    if parts == [] then "" else parts[0] + Join(parts[1..])
  }

  lemma {:induction false} JoinAppend(a: seq<string>, b: seq<string>)
    ensures Join(a + b) == Join(a) + Join(b)
  {
    if a == [] {
      assert a + b == b;
    } else {
      assert (a + b)[1..] == a[1..] + b;
      JoinAppend(a[1..], b);
    }
  }

  lemma JoinOne(s: string)
    ensures Join([s]) == s
  {
  }

  lemma JoinSnoc(a: seq<string>, s: string)
    ensures Join(a + [s]) == Join(a) + s
  {
    JoinAppend(a, [s]);
    JoinOne(s);
  }

  /** The least element of a non-empty set of indices. */
  function Least(s: set<nat>): (m: nat)
    requires s != {}
    ensures m in s && forall x <- s :: m <= x
  {
    assert exists m :: m in s && forall x <- s :: m <= x by {
      var y :| y in s;
      LeastExists(s, y);
    }
    var m :| m in s && forall x <- s :: m <= x;
    m
  }

  lemma {:induction false} LeastExists(s: set<nat>, y: nat)
    requires y in s
    ensures exists m :: m in s && forall x <- s :: m <= x
  {
    if x :| x in s && x < y {
      LeastExists(s, x);
    }
  }

  ghost predicate Increasing(q: seq<nat>) {
    forall i, j :: 0 <= i < j < |q| ==> q[i] < q[j]
  }

  /** Increasing lists with the same elements are the same list. */
  lemma {:induction false} IncreasingIsUnique(p: seq<nat>, q: seq<nat>)
    requires Increasing(p) && Increasing(q) && forall x :: x in p <==> x in q
    ensures p == q
  {
    assert p != [] ==> p[0] in p;
    assert q != [] ==> q[0] in q;
    if p != [] {
      assert p[0] in q;
      var a, b := p[|p| - 1], q[..|q| - 1];
      assert a in p;
      assert q[|q| - 1] in q && q[|q| - 1] in p;
      assert q[|q| - 1] == a;
      forall x ensures x in p[..|p| - 1] <==> x in b {
        LastIsGreatest(p, x);
        LastIsGreatest(q, x);
      }
      IncreasingIsUnique(p[..|p| - 1], b);
      assert p == p[..|p| - 1] + [a] && q == b + [a];
    }
  }

  lemma LastIsGreatest(q: seq<nat>, x: nat)
    requires Increasing(q) && q != []
    ensures x in q[..|q| - 1] <==> x in q && x != q[|q| - 1]
  {
    if x in q && x != q[|q| - 1] {
      var i :| 0 <= i < |q| && q[i] == x;
      assert q[..|q| - 1][i] == x;
    }
  }

  /** `sorted(s)`: the indices of a set in ascending order. */
  function Ascending(s: set<nat>): (q: seq<nat>)
    ensures Increasing(q)
    ensures forall x :: x in q <==> x in s
  {
    if s == {} then [] else [Least(s)] + Ascending(s - {Least(s)})
  }

  /** `str(n)`. */
  function Decimal(n: nat): (s: string)
    ensures s != "" && forall c <- s :: '0' <= c <= '9'
  {
    if n < 10 then [Digit(n)] else Decimal(n / 10) + [Digit(n % 10)]
  }

  function Digit(d: nat): (c: char)
    requires d < 10
    ensures '0' <= c <= '9' && c as int == '0' as int + d
  {
    '0' + d as char
  }

  /** The number that a string of digits stands for. */
  function Number(s: string): nat {
    if s == "" then 0
    else
      var c := s[|s| - 1];
      10 * Number(s[..|s| - 1]) + if '0' <= c <= '9' then c as int - '0' as int else 0
  }

  /** The decimal notation of a number stands for it, without leading zeros. */
  lemma {:induction false} DecimalReads(n: nat)
    ensures Number(Decimal(n)) == n && (n > 0 ==> Decimal(n)[0] != '0')
  {
    if n < 10 {
      assert Decimal(n)[..0] == "";
    } else {
      var s := Decimal(n);
      DecimalReads(n / 10);
      assert s[..|s| - 1] == Decimal(n / 10);
    }
  }

  lemma {:induction false} DecimalInjective(m: nat, n: nat)
    requires Decimal(m) == Decimal(n)
    ensures m == n
  {
    var a, b := Decimal(m), Decimal(n);
    assert a[|a| - 1] == Digit(m % 10) && b[|b| - 1] == Digit(n % 10);
    if m >= 10 && n >= 10 {
      assert a[..|a| - 1] == Decimal(m / 10) && b[..|b| - 1] == Decimal(n / 10);
      DecimalInjective(m / 10, n / 10);
    } else {
      assert m >= 10 ==> |a| >= 2;
      assert n >= 10 ==> |b| >= 2;
    }
  }

  /** `str.strip`, for the characters that count as white space. */
  function Strip(s: string, space: set<char>): (r: string)
    ensures r != "" ==> r[0] !in space && r[|r| - 1] !in space
    ensures r == "" <==> forall c <- s :: c in space
    decreases |s|
  {
    if s == "" then ""
    else if s[0] in space then Strip(s[1..], space)
    else if s[|s| - 1] in space then
      assert s[0] in s[..|s| - 1];
      Strip(s[..|s| - 1], space)
    else s
  }

  /** Around `s[i..j]` there is only white space, and at its ends there is none. */
  ghost predicate CutsSpace(s: string, i: nat, j: nat, space: set<char>) {
    && i <= j <= |s|
    && (forall k :: 0 <= k < i || j <= k < |s| ==> s[k] in space)
    && (i < j ==> s[i] !in space && s[j - 1] !in space)
  }

  /** `r` is the middle of `s`: only white space was cut off, and none is left at either end. */
  ghost predicate IsStripped(s: string, r: string, space: set<char>) {
    exists i: nat, j: nat :: CutsSpace(s, i, j, space) && r == s[i..j]
  }

  lemma {:induction false} StripIsStripped(s: string, space: set<char>)
    ensures IsStripped(s, Strip(s, space), space)
    decreases |s|
  {
    if s == "" {
      assert CutsSpace(s, 0, 0, space);
    } else if s[0] in space {
      StripIsStripped(s[1..], space);
      StrippedOfTail(s, Strip(s, space), space);
    } else if s[|s| - 1] in space {
      StripIsStripped(s[..|s| - 1], space);
      StrippedOfInit(s, Strip(s, space), space);
    } else {
      assert CutsSpace(s, 0, |s|, space) && s == s[0..|s|];
    }
  }

  lemma StrippedOfTail(s: string, r: string, space: set<char>)
    requires s != "" && s[0] in space && IsStripped(s[1..], r, space)
    ensures IsStripped(s, r, space)
  {
    var t := s[1..];
    var i: nat, j: nat :| CutsSpace(t, i, j, space) && r == t[i..j];
    assert forall k :: 0 < k < |s| ==> s[k] == t[k - 1];
    assert CutsSpace(s, i + 1, j + 1, space);
    assert r == s[i + 1..j + 1];
  }

  lemma StrippedOfInit(s: string, r: string, space: set<char>)
    requires s != "" && s[|s| - 1] in space && IsStripped(s[..|s| - 1], r, space)
    ensures IsStripped(s, r, space)
  {
    var t := s[..|s| - 1];
    var i: nat, j: nat :| CutsSpace(t, i, j, space) && r == t[i..j];
    assert forall k :: 0 <= k < |t| ==> s[k] == t[k];
    assert CutsSpace(s, i, j, space);
    assert r == s[i..j];
  }

  /** A text has one such middle. */
  lemma StrippedIsUnique(s: string, q: string, r: string, space: set<char>)
    requires IsStripped(s, q, space) && IsStripped(s, r, space)
    ensures q == r
  {
    var a: nat, b: nat :| CutsSpace(s, a, b, space) && q == s[a..b];
    var i: nat, j: nat :| CutsSpace(s, i, j, space) && r == s[i..j];
    if a < b || i < j {
      assert a == i && b == j;
    }
  }

  /** Two texts that agree up to their first separator agree before and behind it. */
  lemma {:induction false} FirstSeparatorSplits(c: char, a: string, b: string, x: string, y: string)
    requires a + [c] + x == b + [c] + y && c !in a && c !in b
    ensures a == b && x == y
    decreases |a| + |b|
  {
    var s, t := a + [c] + x, b + [c] + y;
    assert a != "" ==> s[0] == a[0] && a[0] in a;
    assert b != "" ==> t[0] == b[0] && b[0] in b;
    if a != "" && b != "" {
      assert s[1..] == a[1..] + [c] + x && t[1..] == b[1..] + [c] + y;
      FirstSeparatorSplits(c, a[1..], b[1..], x, y);
      assert a == [a[0]] + a[1..] && b == [b[0]] + b[1..];
    } else {
      assert a == "" ==> s[0] == c;
      assert b == "" ==> t[0] == c;
      assert s[1..] == x && t[1..] == y;
    }
  }
}
