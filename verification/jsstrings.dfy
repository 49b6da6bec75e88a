/** The JavaScript string behaviour the reports rely on: `String(n)`,
    `padStart(2, '0')`, `split(c)[0]`, the `<` order on strings and the
    default `Array.prototype.sort`, which orders strings by that `<`. */
module JsStrings {

  function DigitChar(n: int): char
    requires 0 <= n < 10
  {
    ('0' as int + n) as char
  }

  /** `String(n)` for a natural number: decimal, no leading zeros. */
  function NatText(n: nat): string
  {
    if n < 10 then [DigitChar(n)] else NatText(n / 10) + [DigitChar(n % 10)]
  }

  /** `String(n).padStart(2, '0')`. */
  function Pad2(n: nat): string
  {
    var s := NatText(n);
    if |s| < 2 then "0" + s else s
  }

  function Pow10(w: nat): nat
  {
    if w == 0 then 1 else 10 * Pow10(w - 1)
  }

  /** The lowest `w` decimal digits of `n`, zero-padded to width `w`: a
      reference for the fixed-width texts that `NatText` and `Pad2` produce. */
  function Digits(n: nat, w: nat): (r: string)
    ensures |r| == w
  {
    if w == 0 then "" else Digits(n / 10, w - 1) + [DigitChar(n % 10)]
  }

  /** JavaScript `a < b` on strings: the first differing character decides,
      and a proper prefix is smaller. */
  predicate StrLess(a: string, b: string)
  {
    if |a| == 0 then |b| > 0
    else if |b| == 0 then false
    else if a[0] != b[0] then a[0] < b[0]
    else StrLess(a[1..], b[1..])
  }

  /** `s.split(c)[0]`: the text before the first `c`, or all of `s`. */
  function BeforeFirst(s: string, c: char): (r: string)
    ensures |r| <= |s| && r == s[..|r|]
    ensures c !in r
    ensures |r| < |s| ==> s[|r|] == c
  {
    if |s| == 0 || s[0] == c then "" else [s[0]] + BeforeFirst(s[1..], c)
  }

  /** Splitting at a character the text does not contain keeps it whole. */
  lemma BeforeFirstAbsent(s: string, c: char)
    requires c !in s
    ensures BeforeFirst(s, c) == s
  {
    assert forall i :: 0 <= i < |s| ==> s[i] != c;
  }

  /** The number of occurrences of `c` in `s`. */
  function CountChar(s: string, c: char): nat
  {
    if |s| == 0 then 0 else (if s[0] == c then 1 else 0) + CountChar(s[1..], c)
  }

  lemma {:induction false} CountCharAppend(a: string, b: string, c: char)
    ensures CountChar(a + b, c) == CountChar(a, c) + CountChar(b, c)
  {
    if |a| == 0 {
      assert a + b == b;
    } else {
      assert (a + b)[0] == a[0];
      assert (a + b)[1..] == a[1..] + b;
      CountCharAppend(a[1..], b, c);
    }
  }

  lemma {:induction false} CountCharAbsent(s: string, c: char)
    requires c !in s
    ensures CountChar(s, c) == 0
  {
    if |s| > 0 {
      CountCharAbsent(s[1..], c);
    }
  }

  lemma {:induction false} StrLessIrreflexive(a: string)
    ensures !StrLess(a, a)
  {
    if |a| > 0 {
      StrLessIrreflexive(a[1..]);
    }
  }

  lemma {:induction false} StrLessTransitive(a: string, b: string, c: string)
    requires StrLess(a, b) && StrLess(b, c)
    ensures StrLess(a, c)
  {
    if |a| > 0 && |b| > 0 && |c| > 0 && a[0] == b[0] && b[0] == c[0] {
      StrLessTransitive(a[1..], b[1..], c[1..]);
    }
  }

  lemma {:induction false} StrLessTotal(a: string, b: string)
    ensures a == b || StrLess(a, b) || StrLess(b, a)
  {
    if |a| > 0 && |b| > 0 && a[0] == b[0] {
      StrLessTotal(a[1..], b[1..]);
      if a[1..] == b[1..] {
        assert a == [a[0]] + a[1..] && b == [b[0]] + b[1..];
      }
    }
  }

  lemma StrLessAsymmetric(a: string, b: string)
    ensures !(StrLess(a, b) && StrLess(b, a))
  {
    if StrLess(a, b) && StrLess(b, a) {
      StrLessTransitive(a, b, a);
      StrLessIrreflexive(a);
    }
  }

  /** Comparing two texts that start with equally long parts compares the
      parts first and the rests only when the parts are equal. */
  lemma {:induction false} StrLessConcat(a: string, b: string, s: string, t: string)
    requires |a| == |b|
    ensures StrLess(a + s, b + t) <==> StrLess(a, b) || (a == b && StrLess(s, t))
  {
    if |a| == 0 {
      assert a + s == s && b + t == t;
    } else {
      assert (a + s)[0] == a[0] && (b + t)[0] == b[0];
      assert (a + s)[1..] == a[1..] + s && (b + t)[1..] == b[1..] + t;
      StrLessConcat(a[1..], b[1..], s, t);
      assert a == [a[0]] + a[1..] && b == [b[0]] + b[1..];
      if a[0] == b[0] {
        assert a == b <==> a[1..] == b[1..];
      }
    }
  }

  /** Fixed-width digit texts of numbers that fit are equal only for equal
      numbers. */
  lemma {:induction false} DigitsInjective(x: nat, y: nat, w: nat)
    requires x < Pow10(w) && y < Pow10(w)
    requires Digits(x, w) == Digits(y, w)
    ensures x == y
  {
    if w > 0 {
      var dx, dy := Digits(x / 10, w - 1), Digits(y / 10, w - 1);
      assert Digits(x, w)[w - 1] == DigitChar(x % 10);
      assert Digits(y, w)[w - 1] == DigitChar(y % 10);
      assert dx == Digits(x, w)[..w - 1] && dy == Digits(y, w)[..w - 1];
      DigitsInjective(x / 10, y / 10, w - 1);
    }
  }

  /** Fixed-width digit texts sort as the numbers they spell. */
  lemma {:induction false} DigitsOrder(x: nat, y: nat, w: nat)
    requires x < Pow10(w) && y < Pow10(w)
    ensures StrLess(Digits(x, w), Digits(y, w)) <==> x < y
  {
    if w > 0 {
      DigitsOrder(x / 10, y / 10, w - 1);
      var dx, dy := Digits(x / 10, w - 1), Digits(y / 10, w - 1);
      var cx, cy := DigitChar(x % 10), DigitChar(y % 10);
      assert Digits(x, w) == dx + [cx] && Digits(y, w) == dy + [cy];
      StrLessConcat(dx, dy, [cx], [cy]);
      assert StrLess([cx], [cy]) <==> x % 10 < y % 10 by {
        if cx == cy {
          assert [cx][1..] == [] && [cy][1..] == [];
        }
      }
      if dx == dy {
        DigitsInjective(x / 10, y / 10, w - 1);
      }
      assert x == 10 * (x / 10) + x % 10 && y == 10 * (y / 10) + y % 10;
    } else {
      assert Digits(x, w) == "" == Digits(y, w);
    }
  }

  /** `String(n)` of a w-digit number is its fixed-width digit text. */
  lemma {:induction false} NatTextDigits(n: nat, w: nat)
    requires w >= 1 && Pow10(w - 1) <= n < Pow10(w)
    ensures NatText(n) == Digits(n, w)
  {
    if w > 1 {
      NatTextDigits(n / 10, w - 1);
    }
  }

  /** `padStart(2, '0')` of a number below 100 is its two-digit text. */
  lemma Pad2Digits(n: nat)
    requires n < 100
    ensures Pad2(n) == Digits(n, 2)
  {
    if n < 10 {
      assert Digits(n, 2) == Digits(0, 1) + [DigitChar(n)];
    } else {
      NatTextDigits(n, 2);
    }
  }

  lemma {:induction false} NatTextDigitsOnly(n: nat)
    ensures forall c :: c in NatText(n) ==> '0' <= c <= '9'
  {
    if n >= 10 {
      NatTextDigitsOnly(n / 10);
    }
  }

  /** Strictly ascending in JavaScript string order. */
  predicate Increasing(xs: seq<string>)
  {
    forall i, j :: 0 <= i < j < |xs| ==> StrLess(xs[i], xs[j])
  }

  /** Places `x` into an ascending list, keeping it ascending and distinct. */
  function Insert(x: string, xs: seq<string>): (r: seq<string>)
    requires Increasing(xs)
    ensures Increasing(r)
    ensures forall y :: y in r <==> y == x || y in xs
  {
    if |xs| == 0 then [x]
    else if x == xs[0] then xs
    else if StrLess(x, xs[0]) then
      assert forall j :: 0 < j < |xs| ==> StrLess(x, xs[j]) by {
        forall j | 0 < j < |xs| ensures StrLess(x, xs[j]) {
          StrLessTransitive(x, xs[0], xs[j]);
        }
      }
      [x] + xs
    else
      StrLessTotal(x, xs[0]);
      var rest := Insert(x, xs[1..]);
      assert forall y :: y in rest ==> StrLess(xs[0], y);
      [xs[0]] + rest
  }

  /** `xs.sort()` on distinct strings (duplicates, had there been any, would
      be kept once). */
  function Sort(xs: seq<string>): (r: seq<string>)
    ensures Increasing(r)
    ensures forall y :: y in r <==> y in xs
  {
    if |xs| == 0 then []
    else
      assert xs == xs[..|xs| - 1] + [xs[|xs| - 1]];
      Insert(xs[|xs| - 1], Sort(xs[..|xs| - 1]))
  }

  /** An ascending list is determined by its elements: so sorting does not
      depend on the order its input arrived in. */
  lemma {:induction false} IncreasingUnique(a: seq<string>, b: seq<string>)
    requires Increasing(a) && Increasing(b)
    requires forall x :: x in a <==> x in b
    ensures a == b
  {
    if |a| > 0 {
      assert a[0] in b;
    }
    if |b| > 0 {
      assert b[0] in a;
    }
    if |a| > 0 && |b| > 0 {
      assert a[0] in a && b[0] in b;
      if a[0] != b[0] {
        var i :| 0 <= i < |b| && b[i] == a[0];
        var j :| 0 <= j < |a| && a[j] == b[0];
        StrLessAsymmetric(a[0], b[0]);
      }
      forall x | x in a[1..] ensures x in b[1..] {
        var k :| 0 <= k < |a| - 1 && a[1..][k] == x;
        assert StrLess(a[0], a[k + 1]);
        assert a[k + 1] == x && x in a;
        StrLessIrreflexive(x);
        var m :| 0 <= m < |b| && b[m] == x;
        assert m != 0;
        assert b[1..][m - 1] == x;
      }
      forall x | x in b[1..] ensures x in a[1..] {
        var k :| 0 <= k < |b| - 1 && b[1..][k] == x;
        assert StrLess(b[0], b[k + 1]);
        assert b[k + 1] == x && x in b;
        StrLessIrreflexive(x);
        var m :| 0 <= m < |a| && a[m] == x;
        assert m != 0;
        assert a[1..][m - 1] == x;
      }
      IncreasingUnique(a[1..], b[1..]);
      assert a == [a[0]] + a[1..] && b == [b[0]] + b[1..];
    }
  }
}
