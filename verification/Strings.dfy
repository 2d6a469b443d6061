/** Comparison of strings by code units, as both languages compare them, and decimal padding. */
module Strings {

  predicate Less(a: string, b: string) {
    if b == [] then false
    else if a == [] then true
    else a[0] < b[0] || (a[0] == b[0] && Less(a[1..], b[1..]))
  }

  predicate AtMost(a: string, b: string) { !Less(b, a) }

  lemma {:induction false} Irreflexive(a: string)
    ensures !Less(a, a)
  {
    if a != [] { Irreflexive(a[1..]); }
  }

  lemma {:induction false} Trichotomy(a: string, b: string)
    ensures Less(a, b) || a == b || Less(b, a)
    ensures !(Less(a, b) && Less(b, a))
  {
    if a != [] && b != [] {
      Trichotomy(a[1..], b[1..]);
      if a[0] == b[0] && a[1..] == b[1..] {
        assert a == [a[0]] + a[1..] && b == [b[0]] + b[1..];
      }
    }
  }

  lemma {:induction false} Transitive(a: string, b: string, c: string)
    requires Less(a, b) && Less(b, c)
    ensures Less(a, c)
  {
    if a != [] && a[0] == b[0] == c[0] {
      Transitive(a[1..], b[1..], c[1..]);
    }
  }

  lemma AtMostTransitive(a: string, b: string, c: string)
    requires AtMost(a, b) && AtMost(b, c)
    ensures AtMost(a, c)
  {
    Trichotomy(a, b);
    Trichotomy(b, c);
    if Less(c, a) {
      if a == b {
      } else if b == c {
      } else {
        Transitive(a, b, c);
        Trichotomy(a, c);
      }
    }
  }

  /** Behind two prefixes of equal length the prefixes decide, and only then the rest. */
  lemma {:induction false} PrefixesDecide(a: string, b: string, x: string, y: string)
    requires |a| == |b|
    ensures Less(a + x, b + y) <==> Less(a, b) || (a == b && Less(x, y))
  {
    if a == [] {
      assert a + x == x && b + y == y;
    } else {
      assert (a + x)[1..] == a[1..] + x && (b + y)[1..] == b[1..] + y;
      PrefixesDecide(a[1..], b[1..], x, y);
      if a[0] == b[0] && a[1..] == b[1..] {
        assert a == [a[0]] + a[1..] && b == [b[0]] + b[1..];
      }
      Trichotomy(a[1..], b[1..]);
      Irreflexive(a[1..]);
    }
  }

  // ------------------------------------------------------------------ decimal numbers

  function Digit(d: nat): char
    requires d < 10
  {
    '0' + d as char
  }

  function Pow10(n: nat): nat
    ensures Pow10(n) > 0
  {
    if n == 0 then 1 else 10 * Pow10(n - 1)
  }

  /** `value.toString()` of a natural number. */
  function Decimal(n: nat): (s: string)
    ensures s != []
  {
    if n < 10 then [Digit(n)] else Decimal(n / 10) + [Digit(n % 10)]
  }

  /** `padStart(width, "0")`: a longer text is left as it is. */
  function PadStart(s: string, width: nat): string
    decreases width - |s|
  {
    if width <= |s| then s else PadStart(['0'] + s, width)
  }

  /** The last `width` decimal digits of a number. */
  function Fixed(n: nat, width: nat): (s: string)
    ensures |s| == width
  {
    if width == 0 then [] else Fixed(n / 10, width - 1) + [Digit(n % 10)]
  }

  lemma {:induction false} FixedLess(m: nat, n: nat, width: nat)
    requires m < Pow10(width) && n < Pow10(width)
    ensures Less(Fixed(m, width), Fixed(n, width)) <==> m < n
    ensures Fixed(m, width) == Fixed(n, width) <==> m == n
  {
    if width > 0 {
      FixedLess(m / 10, n / 10, width - 1);
      var p, q := Fixed(m / 10, width - 1), Fixed(n / 10, width - 1);
      PrefixesDecide(p, q, [Digit(m % 10)], [Digit(n % 10)]);
      assert (p + [Digit(m % 10)])[..width - 1] == p && (q + [Digit(n % 10)])[..width - 1] == q;
      assert (p + [Digit(m % 10)])[width - 1] == Digit(m % 10) && (q + [Digit(n % 10)])[width - 1] == Digit(n % 10);
    }
  }

  lemma {:induction false} PadStartAppend(s: string, c: char, width: nat)
    ensures PadStart(s + [c], width + 1) == PadStart(s, width) + [c]
    decreases width - |s|
  {
    if |s| < width {
      assert ['0'] + (s + [c]) == (['0'] + s) + [c];
      PadStartAppend(['0'] + s, c, width);
    }
  }

  /** Padding a number that fits gives its fixed-width digits. */
  lemma {:induction false} PaddedIsFixed(n: nat, width: nat)
    requires 0 < width && n < Pow10(width)
    ensures PadStart(Decimal(n), width) == Fixed(n, width)
  {
    if width == 1 {
      assert n < 10;
      assert Fixed(n, 1) == Fixed(n / 10, 0) + [Digit(n)] == [Digit(n)];
    } else if n < 10 {
      PaddedIsFixed(0, width - 1);
      ZeroPadded(width - 1);
      assert [Digit(n)] == [] + [Digit(n)];
      PadStartAppend([], Digit(n), width - 1);
    } else {
      PaddedIsFixed(n / 10, width - 1);
      PadStartAppend(Decimal(n / 10), Digit(n % 10), width - 1);
    }
  }

  lemma ZeroPadded(width: nat)
    requires width > 0
    ensures PadStart([], width) == PadStart(Decimal(0), width)
  {
    assert ['0'] + [] == Decimal(0);
  }
}
