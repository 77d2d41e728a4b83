/**
 * Ordinal (character-code) string order and sorting a finite set of strings by it.
 * Azure Table storage returns the entities of a query ordered by PartitionKey
 * and then RowKey in this order; the chat store relies on it to read a chat's
 * messages back in order.
 */
module LexOrder {
  import opened Text

  /** `a <= b` in ordinal string order: a prefix comes first, else the first differing character decides. */
  predicate LexLe(a: string, b: string)
  {
    |a| == 0 || (|b| > 0 && (a[0] < b[0] || (a[0] == b[0] && LexLe(a[1..], b[1..]))))
  }

  predicate LexLt(a: string, b: string) { LexLe(a, b) && a != b }

  lemma {:induction false} LexLeReflexive(a: string)
    ensures LexLe(a, a)
  {
    if |a| > 0 { LexLeReflexive(a[1..]); }
  }

  lemma {:induction false} LexLeTotal(a: string, b: string)
    ensures LexLe(a, b) || LexLe(b, a)
  {
    if |a| > 0 && |b| > 0 && a[0] == b[0] { LexLeTotal(a[1..], b[1..]); }
  }

  lemma {:induction false} LexLeAntisymmetric(a: string, b: string)
    requires LexLe(a, b) && LexLe(b, a)
    ensures a == b
  {
    if |a| > 0 && |b| > 0 {
      LexLeAntisymmetric(a[1..], b[1..]);
      assert a == [a[0]] + a[1..] && b == [b[0]] + b[1..];
    }
  }

  lemma {:induction false} LexLeTransitive(a: string, b: string, c: string)
    requires LexLe(a, b) && LexLe(b, c)
    ensures LexLe(a, c)
  {
    if |a| > 0 && a[0] == b[0] && b[0] == c[0] { LexLeTransitive(a[1..], b[1..], c[1..]); }
  }

  predicate IsLeast(m: string, s: set<string>)
  {
    m in s && forall x :: x in s ==> LexLe(m, x)
  }

  lemma {:induction false} LeastExists(s: set<string>)
    requires s != {}
    ensures exists m :: IsLeast(m, s)
    decreases |s|
  {
    var x :| x in s;
    if s == {x} {
      LexLeReflexive(x);
      assert IsLeast(x, s);
    } else {
      var rest := s - {x};
      LeastExists(rest);
      var m :| IsLeast(m, rest);
      LexLeTotal(m, x);
      if LexLe(m, x) {
        assert IsLeast(m, s);
      } else {
        forall y | y in s ensures LexLe(x, y) {
          if y == x { LexLeReflexive(x); } else { LexLeTransitive(x, m, y); }
        }
        assert IsLeast(x, s);
      }
    }
  }

  lemma LeastUnique(m: string, n: string, s: set<string>)
    requires IsLeast(m, s) && IsLeast(n, s)
    ensures m == n
  {
    LexLeAntisymmetric(m, n);
  }

  predicate StrictlySorted(r: seq<string>)
  {
    forall i, j :: 0 <= i < j < |r| ==> LexLt(r[i], r[j])
  }

  function Elems(r: seq<string>): (e: set<string>)
    ensures forall x :: x in e <==> x in r
  {
    set x | x in r
  }

  lemma ConsSorted(m: string, rest: seq<string>)
    requires StrictlySorted(rest)
    requires forall x :: x in rest ==> LexLt(m, x)
    ensures StrictlySorted([m] + rest)
    ensures Elems([m] + rest) == {m} + Elems(rest)
  {
    var r := [m] + rest;
    forall i, j | 0 <= i < j < |r| ensures LexLt(r[i], r[j]) {
      assert r[j] == rest[j - 1];
      if i > 0 { assert r[i] == rest[i - 1]; }
    }
  }

  /** The elements of a finite set of strings, least first (SortedOfSorted says so). */
  ghost function SortedOf(s: set<string>): (r: seq<string>)
    ensures |r| == |s|
    decreases |s|
  {
    if s == {} then []
    else
      LeastExists(s);
      var m :| IsLeast(m, s);
      [m] + SortedOf(s - {m})
  }

  lemma {:induction false} SortedOfSorted(s: set<string>)
    ensures StrictlySorted(SortedOf(s)) && Elems(SortedOf(s)) == s
    decreases |s|
  {
    if s != {} {
      var r := SortedOf(s);
      var m := r[0];
      assert IsLeast(m, s) && r == [m] + SortedOf(s - {m});
      SortedOfSorted(s - {m});
      ConsSorted(m, SortedOf(s - {m}));
    }
  }

  lemma SortedOfLeast(s: set<string>, m: string)
    requires IsLeast(m, s)
    ensures SortedOf(s) == [m] + SortedOf(s - {m})
  {
    var r := SortedOf(s);
    SortedOfSorted(s);
    SortedOfSorted(s - {m});
    assert r[0] in Elems(r);
    assert IsLeast(r[0], s) by {
      forall x | x in s ensures LexLe(r[0], x) {
        var i :| 0 <= i < |r| && r[i] == x;
        if i > 0 { assert LexLt(r[0], r[i]); } else { LexLeReflexive(x); }
      }
    }
    LeastUnique(r[0], m, s);
    SortedUnique(r[1..], SortedOf(s - {m}));
    assert r == [r[0]] + r[1..];
  }

  /** A finite set has exactly one strictly sorted enumeration. */
  lemma {:induction false} SortedUnique(a: seq<string>, b: seq<string>)
    requires StrictlySorted(a) && StrictlySorted(b)
    requires Elems(a) == Elems(b)
    ensures a == b
    decreases |a|
  {
    assert a != [] ==> a[0] in Elems(a);
    assert b != [] ==> b[0] in Elems(b);
    if a != [] {
      var i :| 0 <= i < |b| && b[i] == a[0];
      var j :| 0 <= j < |a| && a[j] == b[0];
      if i > 0 && j > 0 {
        assert LexLt(b[0], b[i]) && LexLt(a[0], a[j]);
        LexLeAntisymmetric(a[0], b[0]);
      }
      assert a[0] == b[0];
      assert Elems(a[1..]) == Elems(b[1..]) by {
        forall x | x in a[1..] ensures x in b[1..] {
          var k :| 1 <= k < |a| && a[k] == x;
          assert LexLt(a[0], a[k]);
          assert x in Elems(b);
        }
        forall x | x in b[1..] ensures x in a[1..] {
          var k :| 1 <= k < |b| && b[k] == x;
          assert LexLt(b[0], b[k]);
          assert x in Elems(a);
        }
      }
      SortedUnique(a[1..], b[1..]);
      assert a == [a[0]] + a[1..] && b == [b[0]] + b[1..];
    }
  }

  /** Enumerates a finite set of strings in ascending ordinal order, least first. */
  method SortKeys(s: set<string>) returns (r: seq<string>)
    ensures r == SortedOf(s)
    ensures StrictlySorted(r) && Elems(r) == s
  {
    r := [];
    var rest := s;
    while rest != {}
      invariant SortedOf(s) == r + SortedOf(rest)
      decreases |rest|
    {
      LeastExists(rest);
      var m :| IsLeast(m, rest);
      SortedOfLeast(rest, m);
      assert |rest - {m}| < |rest|;
      assert r + ([m] + SortedOf(rest - {m})) == (r + [m]) + SortedOf(rest - {m});
      r, rest := r + [m], rest - {m};
    }
    SortedOfSorted(s);
  }

  /** `n` written with exactly `w` digits (the last `w` digits of `n`, zero-filled). */
  function FixedDigits(n: nat, w: nat): (s: string)
    ensures |s| == w
  {
    if w == 0 then [] else FixedDigits(n / 10, w - 1) + [DigitChar(n % 10)]
  }

  function Pow10(w: nat): (p: nat)
    ensures p >= 1
  {
    if w == 0 then 1 else 10 * Pow10(w - 1)
  }

  lemma {:induction false} FixedDigitsOfZero(w: nat)
    ensures FixedDigits(0, w) == Repeat('0', w)
  {
    if w > 0 { FixedDigitsOfZero(w - 1); }
  }

  /** Zero-padding the decimal rendering of `n < 10^w` to `w` characters gives `w` fixed digits. */
  lemma {:induction false} ZeroPadIsFixedDigits(n: nat, w: nat)
    requires 1 <= w && n < Pow10(w)
    ensures ZeroPad(NatToDigits(n), w) == FixedDigits(n, w)
  {
    if n < 10 {
      FixedDigitsOfZero(w - 1);
      assert n / 10 == 0;
    } else {
      assert Pow10(1) == 10;
      assert w > 1;
      assert n / 10 < Pow10(w - 1);
      ZeroPadIsFixedDigits(n / 10, w - 1);
      var x := NatToDigits(n / 10);
      assert NatToDigits(n) == x + [DigitChar(n % 10)];
      if |x| < w - 1 {
        assert ZeroPad(x + [DigitChar(n % 10)], w) == Repeat('0', w - 1 - |x|) + x + [DigitChar(n % 10)];
      }
    }
  }

  lemma {:induction false} LexLtSnoc(x: string, y: string, c: char, d: char)
    requires |x| == |y|
    requires LexLt(x, y) || (x == y && c < d)
    ensures LexLt(x + [c], y + [d])
    decreases |x|
  {
    if |x| == 0 {
      assert x + [c] == [c] && y + [d] == [d];
    } else {
      assert (x + [c])[1..] == x[1..] + [c] && (y + [d])[1..] == y[1..] + [d];
      if x[0] == y[0] {
        if x == y {
          LexLtSnoc(x[1..], y[1..], c, d);
        } else {
          assert x[1..] != y[1..] by { assert x == [x[0]] + x[1..] && y == [y[0]] + y[1..]; }
          LexLtSnoc(x[1..], y[1..], c, d);
        }
      }
    }
  }

  /** For same-width fixed-digit keys, ordinal string order is numeric order. */
  lemma {:induction false} FixedDigitsOrdered(n: nat, m: nat, w: nat)
    requires n < m < Pow10(w)
    ensures LexLt(FixedDigits(n, w), FixedDigits(m, w))
  {
    assert w > 0;
    assert m / 10 < Pow10(w - 1);
    if n / 10 < m / 10 {
      FixedDigitsOrdered(n / 10, m / 10, w - 1);
    } else {
      assert n % 10 < m % 10;
    }
    LexLtSnoc(FixedDigits(n / 10, w - 1), FixedDigits(m / 10, w - 1), DigitChar(n % 10), DigitChar(m % 10));
  }
}
