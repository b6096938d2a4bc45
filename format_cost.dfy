/**
 * `format_cost`: an amount rendered as Python's `f"${cost:,.2f}"` renders it,
 * a dollar sign, the whole dollars in decimal with a comma between groups
 * of three digits counted from the right, a point, and exactly two digits
 * of cents.  Amounts are whole cents, so no rounding takes place.
 */
module FormatCost {
  import opened CostData

  predicate IsDigit(c: char)
  {
    '0' <= c <= '9'
  }

  predicate AllDigits(s: string)
  {
    forall i :: 0 <= i < |s| ==> IsDigit(s[i])
  }

  /** The character of a decimal digit. */
  function DigitChar(d: nat): (c: char)
    requires d < 10
    ensures IsDigit(c)
  {
    (48 + d) as char
  }

  /** The value of a digit character. */
  function DigitValue(c: char): nat
    requires IsDigit(c)
  {
    c as nat - 48
  }

  /** The decimal digits of `n`, most significant first, without leading zeros. */
  function Digits(n: nat): (s: string)
    ensures |s| >= 1 && AllDigits(s)
    ensures n >= 10 ==> |s| >= 2
    ensures s[0] == '0' ==> n == 0
  {
    if n < 10 then [DigitChar(n)] else Digits(n / 10) + [DigitChar(n % 10)]
  }

  /** The number a string of decimal digits denotes. */
  function Value(s: string): nat
    requires AllDigits(s)
  {
    if s == [] then 0 else Value(s[..|s| - 1]) * 10 + DigitValue(s[|s| - 1])
  }

  /** Inserts a ',' between groups of three digits, counting from the right. */
  function Grouped(ds: string): string
  {
    if |ds| <= 3 then ds else Grouped(ds[..|ds| - 3]) + "," + ds[|ds| - 3..]
  }

  /**
   * `s` is a thousands-grouped digit string: every fourth character counted
   * from the right is a comma, every other character is a digit, and it
   * starts with a digit (so it neither starts with a comma nor is empty).
   */
  predicate ThousandsGrouped(s: string)
  {
    && |s| >= 1
    && IsDigit(s[0])
    && forall i :: 0 <= i < |s| ==> if (|s| - i) % 4 == 0 then s[i] == ',' else IsDigit(s[i])
  }

  /** Renders an amount of cents as `$d,ddd.cc`. */
  function Format(cents: Cents): string
  {
    var dollars, rest := cents / 100, cents % 100;
    "$" + Grouped(Digits(dollars)) + "." + [DigitChar(rest / 10), DigitChar(rest % 10)]
  }

  /** Drops every ',' of `s`. */
  function WithoutCommas(s: string): (t: string)
    ensures |t| <= |s|
  {
    if s == [] then [] else (if s[0] == ',' then [] else [s[0]]) + WithoutCommas(s[1..])
  }

  /**
   * Reads an amount back from a rendered string: a leading '$' is dropped,
   * the commas are removed, and what is left must be digits, a point and
   * exactly two digits.
   */
  function Parse(s: string): Option<Cents>
  {
    if |s| == 0 || s[0] != '$' then None
    else
      var t := WithoutCommas(s[1..]);
      if |t| < 4 || t[|t| - 3] != '.' then None
      else
        var whole, frac := t[..|t| - 3], t[|t| - 2..];
        if AllDigits(whole) && AllDigits(frac) then Some(Value(whole) * 100 + Value(frac)) else None
  }

  lemma {:induction false} ValueOfDigits(n: nat)
    ensures Value(Digits(n)) == n
  {
    if n >= 10 {
      var s := Digits(n);
      assert s[..|s| - 1] == Digits(n / 10);
      ValueOfDigits(n / 10);
    }
  }

  lemma {:induction false} GroupedDigitsAreGrouped(ds: string)
    requires |ds| >= 1 && AllDigits(ds)
    ensures ThousandsGrouped(Grouped(ds))
    ensures Grouped(ds)[0] == ds[0]
    ensures |Grouped(ds)| == 1 <==> |ds| == 1
  {
    if |ds| > 3 {
      var head, tail := ds[..|ds| - 3], ds[|ds| - 3..];
      GroupedDigitsAreGrouped(head);
      GroupedExtend(Grouped(head), tail);
      assert Grouped(ds) == Grouped(head) + "," + tail;
    }
  }

  /** Three more digits after a comma keep a thousands-grouped string grouped. */
  lemma GroupedExtend(g: string, tail: string)
    requires ThousandsGrouped(g) && |tail| == 3 && AllDigits(tail)
    ensures ThousandsGrouped(g + "," + tail)
  {
    var s := g + "," + tail;
    forall i | 0 <= i < |s|
      ensures if (|s| - i) % 4 == 0 then s[i] == ',' else IsDigit(s[i])
    {
      if i < |g| {
        assert s[i] == g[i];
        ModFour(|g| - i);
      } else if i > |g| {
        assert s[i] == tail[i - |g| - 1];
        ModSmall(|s| - i);
      }
    }
  }

  lemma ModFour(n: nat)
    ensures (n + 4) % 4 == n % 4
  {
  }

  lemma ModSmall(n: nat)
    requires 0 < n < 4
    ensures n % 4 != 0
  {
  }

  lemma {:induction false} WithoutCommasAppend(a: string, b: string)
    ensures WithoutCommas(a + b) == WithoutCommas(a) + WithoutCommas(b)
  {
    if a != [] {
      var ab := a + b;
      assert ab[0] == a[0] && ab[1..] == a[1..] + b;
      WithoutCommasAppend(a[1..], b);
      assert WithoutCommas(ab) == (if a[0] == ',' then [] else [a[0]]) + WithoutCommas(a[1..] + b);
    } else {
      assert a + b == b;
    }
  }

  lemma {:induction false} WithoutCommasOfDigits(ds: string)
    requires AllDigits(ds)
    ensures WithoutCommas(ds) == ds
  {
    if ds != [] {
      WithoutCommasOfDigits(ds[1..]);
    }
  }

  /** Removing the commas of `g + "," + tail` removes those of `g` and the separator. */
  lemma WithoutCommasGroupStep(g: string, tail: string)
    requires AllDigits(tail)
    ensures WithoutCommas(g + "," + tail) == WithoutCommas(g) + tail
  {
    assert g + "," + tail == g + ("," + tail);
    WithoutCommasAppend(g, "," + tail);
    assert ("," + tail)[1..] == tail;
    assert WithoutCommas("," + tail) == WithoutCommas(tail);
    WithoutCommasOfDigits(tail);
  }

  lemma {:induction false} UngroupGrouped(ds: string)
    requires AllDigits(ds)
    ensures WithoutCommas(Grouped(ds)) == ds
  {
    if |ds| <= 3 {
      WithoutCommasOfDigits(ds);
    } else {
      var head, tail := ds[..|ds| - 3], ds[|ds| - 3..];
      UngroupGrouped(head);
      WithoutCommasGroupStep(Grouped(head), tail);
      assert Grouped(ds) == Grouped(head) + "," + tail;
      assert head + tail == ds;
    }
  }

  /**
   * The shape of a rendered amount: it starts with '$'; its only '.' is the
   * third character from the end and is followed by exactly two digits; the
   * whole dollars between are thousands-grouped with no leading zero.
   */
  lemma FormatShape(cents: Cents)
    ensures var r := Format(cents);
      && |r| >= 5
      && r[0] == '$'
      && r[|r| - 3] == '.' && IsDigit(r[|r| - 2]) && IsDigit(r[|r| - 1])
      && ThousandsGrouped(r[1..|r| - 3])
      && (r[1] == '0' ==> |r| == 5)
      && forall i :: 0 <= i < |r| && r[i] == '.' ==> i == |r| - 3
  {
    var r := Format(cents);
    var ds := Digits(cents / 100);
    GroupedDigitsAreGrouped(ds);
    var g := Grouped(ds);
    assert r == "$" + g + "." + [DigitChar(cents % 100 / 10), DigitChar(cents % 100 % 10)];
    assert r[1..|r| - 3] == g;
    forall i | 0 <= i < |r| && i != |r| - 3
      ensures r[i] != '.'
    {
      if 1 <= i < |r| - 3 {
        assert r[i] == g[i - 1];
      }
    }
  }

  /** The two-character cents field denotes the cents. */
  lemma ValueOfCents(n: nat)
    requires n < 100
    ensures Value([DigitChar(n / 10), DigitChar(n % 10)]) == n
  {
    var frac := [DigitChar(n / 10), DigitChar(n % 10)];
    var hi, lo := n / 10, n % 10;
    assert frac[..1] == [DigitChar(hi)] && frac[..1][..0] == [];
    assert DigitValue(DigitChar(hi)) == hi && DigitValue(DigitChar(lo)) == lo;
    assert Value(frac[..1]) == hi;
    assert Value(frac) == hi * 10 + lo;
  }

  /** The two-character cents field of `Format(cents)`. */
  function CentsField(cents: Cents): string
  {
    [DigitChar(cents % 100 / 10), DigitChar(cents % 100 % 10)]
  }

  /** Dropping the '$' and the commas of a rendered amount leaves its dollars' digits, a point and its cents. */
  lemma FormatWithoutCommas(cents: Cents)
    ensures WithoutCommas(Format(cents)[1..]) == Digits(cents / 100) + "." + CentsField(cents)
  {
    var ds, frac := Digits(cents / 100), CentsField(cents);
    assert Format(cents)[1..] == Grouped(ds) + ("." + frac);
    WithoutCommasAppend(Grouped(ds), "." + frac);
    UngroupGrouped(ds);
    assert ("." + frac)[1..] == frac;
    WithoutCommasOfDigits(frac);
  }

  /** Removing the '$' and the commas of a rendered amount gives back the amount. */
  lemma FormatRoundTrip(cents: Cents)
    ensures Parse(Format(cents)) == Some(cents)
  {
    var ds, frac := Digits(cents / 100), CentsField(cents);
    FormatWithoutCommas(cents);
    assert AllDigits(frac);
    ParseAmount(Format(cents), ds, frac);
    ValueOfDigits(cents / 100);
    ValueOfCents(cents % 100);
  }

  /** A '$' followed by digits, a point and two digits, commas aside, parses to that amount. */
  lemma ParseAmount(s: string, whole: string, frac: string)
    requires |s| >= 1 && s[0] == '$'
    requires WithoutCommas(s[1..]) == whole + "." + frac
    requires |whole| >= 1 && AllDigits(whole) && |frac| == 2 && AllDigits(frac)
    ensures Parse(s) == Some(Value(whole) * 100 + Value(frac))
  {
    PointSplit(whole, frac);
  }

  /** The point of `whole + "." + frac` is third from the end, between the two parts. */
  lemma PointSplit(whole: string, frac: string)
    requires |frac| == 2
    ensures var t := whole + "." + frac;
      |t| == |whole| + 3 && t[|t| - 3] == '.' && t[..|t| - 3] == whole && t[|t| - 2..] == frac
  {
  }

  /** Formatting is injective: two different amounts never render alike. */
  lemma FormatInjective(a: Cents, b: Cents)
    requires Format(a) == Format(b)
    ensures a == b
  {
    FormatRoundTrip(a);
    FormatRoundTrip(b);
  }

  /** Amounts below a thousand dollars: no comma, and always two digits of cents. */
  lemma FormatSmallExamples()
    ensures Format(0) == "$0.00"
    ensures Format(5) == "$0.05"
    ensures Format(99999) == "$999.99"
  {
    assert Digits(9) == "9" && Digits(99) == "99" && Digits(999) == "999";
  }
}
