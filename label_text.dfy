/**
 * The text rules a printed label follows (app/utils/pdf_generator.py): name
 * truncation, the ingredient list and its hard wrap, and the yen price with
 * thousands separators.
 */
module LabelText {
  import opened Numeric

  /** At most this many characters of the product name are printed. */
  const NameLimit: nat := 30
  /** At most this many ingredient names are listed. */
  const IngredientLimit: nat := 5
  /** The ingredient text is cut into lines of this many characters. */
  const WrapWidth: nat := 35

  function Min(a: int, b: int): int
  {
    if a < b then a else b
  }

  /** The printed product name: the first 30 characters. */
  function NameText(name: string): (r: string)
    ensures |r| == Min(NameLimit, |name|)
    ensures r <= name
  {
    name[..Min(NameLimit, |name|)]
  }

  /** Python's `sep.join(xs)`. */
  function Join(xs: seq<string>, sep: string): string
  {
    if |xs| == 0 then ""
    else if |xs| == 1 then xs[0]
    else Join(xs[..|xs| - 1], sep) + sep + xs[|xs| - 1]
  }

  /** Joining a list split in two is joining the parts with one more separator between them. */
  lemma {:induction false} JoinAppend(a: seq<string>, b: seq<string>, sep: string)
    requires |a| > 0 && |b| > 0
    ensures Join(a + b, sep) == Join(a, sep) + sep + Join(b, sep)
  {
    var ab := a + b;
    if |b| == 1 {
      assert ab[..|ab| - 1] == a;
    } else {
      var b' := b[..|b| - 1];
      assert ab[..|ab| - 1] == a + b';
      assert ab[|ab| - 1] == b[|b| - 1];
      JoinAppend(a, b', sep);
    }
  }

  /** The ingredient text: the first five names joined by ", ", and "..." when there are more. */
  function IngredientText(names: seq<string>): string
  {
    Join(names[..Min(IngredientLimit, |names|)], ", ") + (if |names| > IngredientLimit then "..." else "")
  }

  /**
   * The ingredient text lists the names in recipe order: for every k of the
   * listed names short of the last, it begins with the first k names joined,
   * followed by a separator.
   */
  lemma IngredientTextInOrder(names: seq<string>, k: nat)
    requires 1 <= k < Min(IngredientLimit, |names|)
    ensures Join(names[..k], ", ") + ", " <= IngredientText(names)
  {
    var shown := names[..Min(IngredientLimit, |names|)];
    assert shown == names[..k] + shown[k..];
    JoinAppend(names[..k], shown[k..], ", ");
  }

  /**
   * Every listed name appears in recipe order: for every k up to the number of
   * listed names, the ingredient text begins with the first k names joined.
   */
  lemma IngredientTextListsInOrder(names: seq<string>, k: nat)
    requires 1 <= k <= Min(IngredientLimit, |names|)
    ensures Join(names[..k], ", ") <= IngredientText(names)
  {
    if k < Min(IngredientLimit, |names|) {
      IngredientTextInOrder(names, k);
    } else {
      assert names[..k] == names[..Min(IngredientLimit, |names|)];
    }
  }

  /** Only the first five names and whether there are more decide the ingredient text. */
  lemma IngredientTextIgnoresRest(a: seq<string>, b: seq<string>)
    requires |a| > IngredientLimit && |b| > IngredientLimit
    requires a[..IngredientLimit] == b[..IngredientLimit]
    ensures IngredientText(a) == IngredientText(b)
  {
  }

  /** The six-ingredient example: five names, then the ellipsis, exactly 35 characters long. */
  lemma IngredientTextExample()
    ensures IngredientText(["Flour", "Sugar", "Butter", "Eggs", "Milk", "Salt"])
         == "Flour, Sugar, Butter, Eggs, Milk..."
    ensures |IngredientText(["Flour", "Sugar", "Butter", "Eggs", "Milk", "Salt"])| == WrapWidth
  {
    var names := ["Flour", "Sugar", "Butter", "Eggs", "Milk", "Salt"];
    assert names[..5] == ["Flour", "Sugar", "Butter", "Eggs", "Milk"];
    assert names[..5][..4] == ["Flour", "Sugar", "Butter", "Eggs"];
    assert names[..5][..4][..3] == ["Flour", "Sugar", "Butter"];
    assert names[..5][..4][..3][..2] == ["Flour", "Sugar"];
    assert names[..5][..4][..3][..2][..1] == ["Flour"];
    assert Join(["Flour", "Sugar"], ", ") == "Flour, Sugar";
    assert Join(["Flour", "Sugar", "Butter"], ", ") == "Flour, Sugar, Butter";
    assert Join(["Flour", "Sugar", "Butter", "Eggs"], ", ") == "Flour, Sugar, Butter, Eggs";
    assert Join(names[..5], ", ") == "Flour, Sugar, Butter, Eggs, Milk";
  }

  /**
   * The hard wrap: text longer than 35 characters is drawn as its first 35
   * characters and the next (at most) 35; shorter text as one line.
   */
  function WrapLines(text: string): seq<string>
  {
    if |text| > WrapWidth then [text[..WrapWidth], text[WrapWidth..Min(2 * WrapWidth, |text|)]] else [text]
  }

  function Concat(lines: seq<string>): string
  {
    if lines == [] then "" else lines[0] + Concat(lines[1..])
  }

  /**
   * The wrap loses nothing of the first 70 characters and keeps their order,
   * no line is longer than 35 characters, and a second line is drawn exactly
   * when the text is longer than 35.
   */
  lemma WrapKeepsFirstSeventy(text: string)
    ensures Concat(WrapLines(text)) == text[..Min(2 * WrapWidth, |text|)]
    ensures forall i :: 0 <= i < |WrapLines(text)| ==> |WrapLines(text)[i]| <= WrapWidth
    ensures |WrapLines(text)| == 2 <==> |text| > WrapWidth
  {
    var lines := WrapLines(text);
    if |text| > WrapWidth {
      assert lines[1..][1..] == [];
      assert Concat(lines) == lines[0] + lines[1];
      assert text[..Min(2 * WrapWidth, |text|)] == text[..WrapWidth] + text[WrapWidth..Min(2 * WrapWidth, |text|)];
    } else {
      assert lines[1..] == [];
      assert text[..Min(2 * WrapWidth, |text|)] == text;
    }
  }

  /* ---- The price line: "¥" and the truncated price with a comma every three digits. ---- */

  const Yen: string := "\U{00A5}"

  function DigitChar(d: nat): char
    requires d < 10
  {
    ('0' as int + d) as char
  }

  predicate IsDigit(c: char)
  {
    '0' <= c <= '9'
  }

  function DigitValue(c: char): nat
  {
    if IsDigit(c) then c as int - '0' as int else 0
  }

  /** The decimal digits of `n`, without leading zeros. */
  function Decimal(n: nat): string
  {
    if n < 10 then [DigitChar(n)] else Decimal(n / 10) + [DigitChar(n % 10)]
  }

  /** `n` below 1000 as exactly three digits. */
  function Pad3(n: nat): string
    requires n < 1000
  {
    [DigitChar(n / 100), DigitChar(n / 10 % 10), DigitChar(n % 10)]
  }

  /** Python's `f"{n:,}"` for a natural number: digits grouped in threes from the right. */
  function Grouped(n: nat): string
  {
    if n < 1000 then Decimal(n) else Grouped(n / 1000) + "," + Pad3(n % 1000)
  }

  /** Python's `f"{i:,}"`: a minus sign for negative numbers, then the grouped digits. */
  function FormatThousands(i: int): string
  {
    if i < 0 then "-" + Grouped(-i) else Grouped(i)
  }

  /** The price line's text: the yen sign and the price truncated toward zero, comma-grouped. */
  function PriceText(price: real): string
  {
    Yen + FormatThousands(Trunc(price))
  }

  function Pow10(k: nat): nat
  {
    if k == 0 then 1 else 10 * Pow10(k - 1)
  }

  /** How many digits a string holds, separators aside. */
  function DigitCount(s: string): nat
  {
    if s == [] then 0 else DigitCount(s[..|s| - 1]) + (if s[|s| - 1] == ',' then 0 else 1)
  }

  /** Reading a grouped number back: its digits, separators skipped. */
  function Value(s: string): nat
  {
    if s == [] then 0
    else if s[|s| - 1] == ',' then Value(s[..|s| - 1])
    else Value(s[..|s| - 1]) * 10 + DigitValue(s[|s| - 1])
  }

  /** Reading a formatted integer back, sign included. */
  function ParseThousands(s: string): int
  {
    if |s| > 0 && s[0] == '-' then -(Value(s[1..]) as int) else Value(s)
  }

  lemma {:induction false} ValueAppend(a: string, b: string)
    ensures Value(a + b) == Value(a) * Pow10(DigitCount(b)) + Value(b)
  {
    if b == [] {
      assert a + b == a;
    } else {
      var b' := b[..|b| - 1];
      assert (a + b)[..|a + b| - 1] == a + b';
      assert (a + b)[|a + b| - 1] == b[|b| - 1];
      ValueAppend(a, b');
      var c := b[|b| - 1];
      if c != ',' {
        Regroup(Value(a), Pow10(DigitCount(b')), Value(b'), DigitValue(c));
      }
    }
  }

  /** Shifting a number by one more digit place distributes over its two parts. */
  lemma Regroup(high: int, scale: int, low: int, digit: int)
    ensures (high * scale + low) * 10 + digit == high * (10 * scale) + (low * 10 + digit)
  {
  }

  lemma {:induction false} DecimalValue(n: nat)
    ensures Value(Decimal(n)) == n
    ensures |Decimal(n)| > 0 && IsDigit(Decimal(n)[0])
  {
    if n < 10 {
      assert Decimal(n)[..0] == [];
    } else {
      var prefix := Decimal(n / 10);
      DecimalValue(n / 10);
      assert Decimal(n)[..|Decimal(n)| - 1] == prefix;
    }
  }

  lemma Pad3Value(n: nat)
    requires n < 1000
    ensures Value(Pad3(n)) == n && DigitCount(Pad3(n)) == 3
  {
    var p := Pad3(n);
    var a, b, c := n / 100, n / 10 % 10, n % 10;
    DigitRoundTrip(a);
    DigitRoundTrip(b);
    DigitRoundTrip(c);
    assert p[..2] == [DigitChar(a), DigitChar(b)];
    assert p[..2][..1] == [DigitChar(a)];
    assert p[..2][..1][..0] == [];
    assert Value(p[..2][..1]) == a && DigitCount(p[..2][..1]) == 1;
    assert Value(p[..2]) == a * 10 + b && DigitCount(p[..2]) == 2;
    assert Value(p) == (a * 10 + b) * 10 + c && DigitCount(p) == 3;
    assert n == a * 100 + (n % 100) && n % 100 == b * 10 + c;
  }

  lemma DigitRoundTrip(d: nat)
    requires d < 10
    ensures IsDigit(DigitChar(d)) && DigitChar(d) != ',' && DigitValue(DigitChar(d)) == d
  {
  }

  lemma {:induction false} GroupedValue(n: nat)
    ensures Value(Grouped(n)) == n
    ensures |Grouped(n)| > 0 && IsDigit(Grouped(n)[0])
  {
    if n < 1000 {
      DecimalValue(n);
    } else {
      var head := Grouped(n / 1000);
      GroupedValue(n / 1000);
      Pad3Value(n % 1000);
      ValueAppend(head + ",", Pad3(n % 1000));
      assert (head + ",")[..|head + ","| - 1] == head;
      assert Grouped(n) == head + "," + Pad3(n % 1000);
    }
  }

  /**
   * The shape of Python's `:,` format: a comma exactly at every fourth place
   * counted from the right, so the first group holds one to three digits and
   * every comma is followed by exactly three; every other character is a
   * digit.
   */
  predicate GroupedShape(s: string)
  {
    && |s| % 4 != 0
    && (forall i :: 0 <= i < |s| ==> (s[i] == ',' <==> (|s| - i) % 4 == 0))
    && (forall i :: 0 <= i < |s| && s[i] != ',' ==> IsDigit(s[i]))
  }

  lemma {:induction false} DecimalDigits(n: nat)
    ensures forall i :: 0 <= i < |Decimal(n)| ==> IsDigit(Decimal(n)[i])
    ensures (n < 10 ==> |Decimal(n)| == 1) && (10 <= n < 100 ==> |Decimal(n)| == 2) && (100 <= n < 1000 ==> |Decimal(n)| == 3)
    ensures Decimal(n)[0] == '0' ==> n == 0
  {
    if n >= 10 {
      DecimalDigits(n / 10);
      assert Decimal(n)[0] == Decimal(n / 10)[0];
    }
  }

  /** The grouped digits of a natural number have the `:,` shape, with no leading zero except for zero itself. */
  lemma {:induction false} GroupedHasShape(n: nat)
    ensures GroupedShape(Grouped(n))
    ensures Grouped(n)[0] == '0' ==> n == 0
  {
    var s := Grouped(n);
    if n < 1000 {
      DecimalDigits(n);
    } else {
      var head := Grouped(n / 1000);
      GroupedHasShape(n / 1000);
      var tail := Pad3(n % 1000);
      assert s == head + "," + tail;
      assert |s| == |head| + 4;
      forall i | 0 <= i < |s|
        ensures (s[i] == ',' <==> (|s| - i) % 4 == 0)
        ensures s[i] != ',' ==> IsDigit(s[i])
      {
        if i < |head| {
          assert s[i] == head[i];
          assert (|s| - i) % 4 == (|head| - i) % 4;
        } else if i > |head| {
          assert s[i] == tail[i - |head| - 1];
          DigitRoundTrip(n % 1000 / 100);
          DigitRoundTrip(n % 1000 / 10 % 10);
          DigitRoundTrip(n % 1000 % 10);
        }
      }
      assert s[0] == head[0];
    }
  }

  /** Reading the formatted amount back gives the amount: the grouping loses no digit and adds none. */
  lemma FormatThousandsRoundTrip(i: int)
    ensures ParseThousands(FormatThousands(i)) == i
  {
    if i < 0 {
      GroupedValue(-i);
      assert ("-" + Grouped(-i))[1..] == Grouped(-i);
    } else {
      GroupedValue(i);
    }
  }
}
