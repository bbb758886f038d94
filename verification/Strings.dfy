/** Decimal text and the order of strings, as the standard library of the original defines them. */
module Strings {
  import opened Common

  function Digit(n: nat): char
    requires n < 10
  {
    '0' + n as char
  }

  function Decimal(n: nat): (d: string)
    ensures d != ""
  {
    if n < 10 then [Digit(n)] else Decimal(n / 10) + [Digit(n % 10)]
  }

  predicate IsDigit(c: char) {
    '0' <= c <= '9'
  }

  predicate AllDigits(s: string) {
    forall i :: 0 <= i < |s| ==> IsDigit(s[i])
  }

  /** The last `width` decimal digits of `n`, padded with zeros. */
  function Padded(n: nat, width: nat): (d: string)
    ensures |d| == width && AllDigits(d)
  {
    if width == 0 then "" else Padded(n / 10, width - 1) + [Digit(n % 10)]
  }

  function Number(s: string): nat
    requires AllDigits(s)
  {
    if s == "" then 0 else Number(Front(s)) * 10 + (Last(s) - '0') as nat
  }

  function Pow10(k: nat): nat {
    if k == 0 then 1 else 10 * Pow10(k - 1)
  }

  lemma {:induction false} PaddedRoundTrip(n: nat, width: nat)
    requires n < Pow10(width)
    ensures Number(Padded(n, width)) == n
  {
    if width > 0 {
      PaddedRoundTrip(n / 10, width - 1);
      assert Front(Padded(n, width)) == Padded(n / 10, width - 1);
    }
  }

  lemma {:induction false} DecimalRoundTrip(n: nat)
    ensures AllDigits(Decimal(n)) && Number(Decimal(n)) == n
  {
    if n < 10 {
      assert Front([Digit(n)]) == "";
    } else {
      DecimalRoundTrip(n / 10);
      assert Front(Decimal(n)) == Decimal(n / 10) && Last(Decimal(n)) == Digit(n % 10);
    }
  }

  // ------------------------------------------------------------------ order

  /** The order `sorted` puts strings in. */
  predicate Before(a: string, b: string) {
    if b == "" then false
    else if a == "" then true
    else if a[0] != b[0] then a[0] < b[0]
    else Before(a[1..], b[1..])
  }

  lemma {:induction false} BeforeByFirstDifference(a: string, b: string, i: nat)
    requires i < |a| && i < |b| && a[..i] == b[..i] && a[i] < b[i]
    ensures Before(a, b) && !Before(b, a)
  {
    if i > 0 {
      assert a[0] == a[..i][0] == b[..i][0] == b[0];
      assert a[1..][..i - 1] == a[..i][1..] && b[1..][..i - 1] == b[..i][1..];
      BeforeByFirstDifference(a[1..], b[1..], i - 1);
    }
  }

  lemma {:induction false} BeforeWithPrefix(p: string, a: string, b: string)
    requires Before(a, b)
    ensures Before(p + a, p + b)
  {
    if p == "" {
      assert p + a == a && p + b == b;
    } else {
      BeforeWithPrefix(p[1..], a, b);
      assert (p + a)[1..] == p[1..] + a && (p + b)[1..] == p[1..] + b;
    }
  }

  lemma {:induction false} BeforeIsTotal(a: string, b: string)
    ensures a == b || Before(a, b) || Before(b, a)
    ensures !(Before(a, b) && Before(b, a)) && !Before(a, a)
  {
    if a != "" && b != "" && a[0] == b[0] {
      BeforeIsTotal(a[1..], b[1..]);
      assert a == [a[0]] + a[1..] && b == [b[0]] + b[1..];
    }
    if a != "" { BeforeIsIrreflexive(a); }
  }

  lemma {:induction false} BeforeIsIrreflexive(a: string)
    ensures !Before(a, a)
  {
    if a != "" { BeforeIsIrreflexive(a[1..]); }
  }

  lemma {:induction false} BeforeIsTransitive(a: string, b: string, c: string)
    requires Before(a, b) && Before(b, c)
    ensures Before(a, c)
  {
    if a != "" && a[0] == b[0] && b[0] == c[0] { BeforeIsTransitive(a[1..], b[1..], c[1..]); }
  }

  // ------------------------------------------------------------------ sorted names

  ghost predicate StrictlySorted(names: seq<string>) {
    forall i, j :: 0 <= i < j < |names| ==> Before(names[i], names[j])
  }

  function InsertName(names: seq<string>, n: string): seq<string> {
    if names == [] || Before(Last(names), n) then names + [n] else InsertName(Front(names), n) + [Last(names)]
  }

  function SortNames(names: seq<string>): seq<string> {
    if names == [] then [] else InsertName(SortNames(Front(names)), Last(names))
  }

  lemma {:induction false} InsertNameMembers(names: seq<string>, n: string)
    ensures forall x :: x in InsertName(names, n) <==> x in names || x == n
  {
    if names != [] {
      InsertNameMembers(Front(names), n);
      assert names == Front(names) + [Last(names)];
    }
  }

  lemma {:induction false} InsertNameSorts(names: seq<string>, n: string)
    requires StrictlySorted(names) && n !in names
    ensures StrictlySorted(InsertName(names, n))
  {
    if names != [] {
      var front, last := Front(names), Last(names);
      BeforeIsTotal(last, n);
      assert names == front + [last] && last in names;
      if Before(last, n) {
        forall i | 0 <= i < |names| ensures Before(names[i], n) {
          if i < |names| - 1 { BeforeIsTransitive(names[i], last, n); }
        }
      } else {
        InsertNameSorts(front, n);
        InsertNameMembers(front, n);
        var r := InsertName(front, n);
        forall i | 0 <= i < |r| ensures Before(r[i], last) {
          assert r[i] in r;
          if r[i] != n {
            var k :| 0 <= k < |front| && front[k] == r[i];
            assert Before(names[k], names[|names| - 1]);
          }
        }
      }
    }
  }

  /** Sorting different names puts them in strictly increasing order and keeps them all. */
  lemma {:induction false} SortNamesSorts(names: seq<string>)
    requires forall i, j :: 0 <= i < j < |names| ==> names[i] != names[j]
    ensures StrictlySorted(SortNames(names)) && forall x :: x in SortNames(names) <==> x in names
  {
    if names != [] {
      var front, last := Front(names), Last(names);
      SortNamesSorts(front);
      assert names == front + [last];
      forall k | 0 <= k < |front| ensures front[k] != last { assert names[k] != names[|names| - 1]; }
      InsertNameSorts(SortNames(front), last);
      InsertNameMembers(SortNames(front), last);
    }
  }
}
