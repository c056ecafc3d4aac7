/**
 * The console's currency display (src/main.cpp formatCurrency): "KRW " followed by the decimal
 * text of the amount, with a comma inserted in front of every group of three characters counted
 * from the right of that text.
 */
module CurrencyFormat {

  predicate IsDigit(c: char)
  {
    '0' <= c <= '9'
  }

  predicate AllDigits(s: string)
  {
    forall i :: 0 <= i < |s| ==> IsDigit(s[i])
  }

  function DigitChar(d: nat): (c: char)
    requires d < 10
    ensures IsDigit(c)
  {
    ('0' as int + d) as char
  }

  function DigitValue(c: char): (d: nat)
    requires IsDigit(c)
    ensures d < 10
  {
    c as int - '0' as int
  }

  /** The decimal text of a non-negative number, without leading zeros. */
  function Decimal(n: nat): (s: string)
    ensures |s| >= 1 && AllDigits(s)
    ensures s[0] == '0' ==> n == 0
    decreases n
  {
    if n < 10 then [DigitChar(n)] else Decimal(n / 10) + [DigitChar(n % 10)]
  }

  /** The value a string of decimal digits denotes. */
  function ParseDecimal(s: string): nat
    requires AllDigits(s)
    decreases |s|
  {
    if s == [] then 0 else 10 * ParseDecimal(s[..|s| - 1]) + DigitValue(s[|s| - 1])
  }

  /** Reading the decimal text back gives the number: Decimal is injective and loses nothing. */
  lemma {:induction false} DecimalRoundTrip(n: nat)
    ensures ParseDecimal(Decimal(n)) == n
    decreases n
  {
    var s := Decimal(n);
    if n >= 10 {
      DecimalRoundTrip(n / 10);
      assert s[..|s| - 1] == Decimal(n / 10);
    }
  }

  /** std::to_string on an int: a minus sign in front of the magnitude when negative. */
  function IntText(n: int): (s: string)
    ensures n >= 0 ==> s == Decimal(n)
    ensures n < 0 ==> s == "-" + Decimal(-n)
  {
    if n < 0 then "-" + Decimal(-n) else Decimal(n)
  }

  /** The text with a comma in front of every full group of three characters from the right, except at the very front. */
  function Grouped(s: string): string
    decreases |s|
  {
    if |s| <= 3 then s else Grouped(s[..|s| - 3]) + "," + s[|s| - 3..]
  }

  predicate CommaFree(s: string)
  {
    forall i :: 0 <= i < |s| ==> s[i] != ','
  }

  /** The text with every comma deleted. */
  function WithoutCommas(s: string): (r: string)
    ensures CommaFree(r)
    decreases |s|
  {
    if s == [] then [] else (if s[0] == ',' then [] else [s[0]]) + WithoutCommas(s[1..])
  }

  lemma {:induction false} WithoutCommasAppend(a: string, b: string)
    ensures WithoutCommas(a + b) == WithoutCommas(a) + WithoutCommas(b)
    decreases |a|
  {
    if a == [] {
      assert a + b == b;
    } else {
      assert (a + b)[1..] == a[1..] + b;
      WithoutCommasAppend(a[1..], b);
    }
  }

  lemma {:induction false} WithoutCommasKeeps(s: string)
    requires CommaFree(s)
    ensures WithoutCommas(s) == s
    decreases |s|
  {
    if s != [] {
      assert CommaFree(s[1..]);
      WithoutCommasKeeps(s[1..]);
    }
  }

  lemma CommaFreeSlice(s: string, i: int, j: int)
    requires CommaFree(s) && 0 <= i <= j <= |s|
    ensures CommaFree(s[i..j])
  {
  }

  /** Deleting the commas undoes the grouping. */
  lemma {:induction false} GroupedRoundTrip(s: string)
    requires CommaFree(s)
    ensures WithoutCommas(Grouped(s)) == s
    decreases |s|
  {
    if |s| <= 3 {
      WithoutCommasKeeps(s);
    } else {
      var head, tail := s[..|s| - 3], s[|s| - 3..];
      CommaFreeSlice(s, 0, |s| - 3);
      CommaFreeSlice(s, |s| - 3, |s|);
      GroupedRoundTrip(head);
      WithoutCommasAppend(Grouped(head) + ",", tail);
      WithoutCommasAppend(Grouped(head), ",");
      WithoutCommasKeeps(tail);
      assert WithoutCommas(",") == [];
      assert head + tail == s;
    }
  }

  /**
   * Grouping a comma-free text of n characters inserts (n - 1) / 3 commas: none at all for at
   * most three characters, and at least one beyond that.
   */
  lemma {:induction false} GroupedCommas(s: string)
    requires |s| >= 1 && CommaFree(s)
    ensures |Grouped(s)| == |s| + (|s| - 1) / 3
    ensures ',' in Grouped(s) <==> |s| > 3
    decreases |s|
  {
    if |s| > 3 {
      var head := s[..|s| - 3];
      CommaFreeSlice(s, 0, |s| - 3);
      GroupedCommas(head);
      assert Grouped(s)[|Grouped(head)|] == ',';
    }
  }

  /** One step of the formatting loop: the last group of a prefix longer than three characters is split off. */
  lemma GroupedStep(s: string, pos: int)
    requires 0 < pos && pos + 3 <= |s|
    ensures Grouped(s[..pos + 3]) == Grouped(s[..pos]) + "," + s[pos..pos + 3]
  {
    var prefix := s[..pos + 3];
    assert prefix[..pos] == s[..pos] && prefix[pos..] == s[pos..pos + 3];
  }

  lemma TextCommaFree(n: int)
    ensures CommaFree(IntText(n))
  {
    var d := Decimal(if n < 0 then -n else n);
    assert CommaFree(d) by {
      forall i | 0 <= i < |d| ensures d[i] != ',' {
        assert IsDigit(d[i]);
      }
    }
    if n < 0 {
      assert IntText(n) == "-" + d;
      assert forall i :: 0 < i < |IntText(n)| ==> IntText(n)[i] == d[i - 1];
    }
  }

  /**
   * The formatting loop: starting three characters from the right of the decimal text, a comma
   * is inserted and the position moves three to the left while it is still positive.
   */
  method FormatCurrency(amount: int) returns (r: string)
    ensures r == "KRW " + Grouped(IntText(amount))
  {
    var s := IntText(amount);
    var str := s;
    var pos := |s| - 3;
    ghost var tail: string := "";
    assert s[..pos + 3] == s;
    while pos > 0
      invariant -2 <= pos && pos + 3 <= |s|
      invariant str == s[..pos + 3] + tail
      invariant Grouped(s) == Grouped(s[..pos + 3]) + tail
      decreases pos
    {
      GroupedStep(s, pos);
      assert str[..pos] == s[..pos] && str[pos..] == s[pos..pos + 3] + tail;
      tail := "," + s[pos..pos + 3] + tail;
      str := str[..pos] + "," + str[pos..];
      pos := pos - 3;
    }
    r := "KRW " + str;
  }

  /**
   * Deleting the commas from the grouped text of any amount gives back its decimal text, and the
   * grouped text has a comma exactly when the decimal text is longer than three characters.
   */
  lemma FormatRoundTrip(amount: int)
    ensures WithoutCommas(Grouped(IntText(amount))) == IntText(amount)
    ensures ',' in Grouped(IntText(amount)) <==> |IntText(amount)| > 3
  {
    TextCommaFree(amount);
    GroupedRoundTrip(IntText(amount));
    GroupedCommas(IntText(amount));
  }

  lemma DecimalOfExample()
    ensures Decimal(123456) == "123456"
  {
    assert Decimal(12) == "12";
    assert Decimal(123) == "123";
    assert Decimal(1234) == "1234";
    assert Decimal(12345) == "12345";
  }

  /** A six-digit negative amount gets a comma right after its minus sign. */
  lemma NegativeSixDigits()
    ensures Grouped(IntText(-123456)) == "-,123,456"
  {
    DecimalOfExample();
    var text := "-123456";
    assert IntText(-123456) == text;
    assert Grouped(text) == Grouped("-123") + "," + "456" by {
      assert text[..4] == "-123" && text[4..] == "456";
    }
    assert Grouped("-123") == Grouped("-") + "," + "123" by {
      assert "-123"[..1] == "-" && "-123"[1..] == "123";
    }
  }

  /** The display with the sign kept outside the grouping: only the digits are grouped. */
  function FormatSigned(amount: int): (r: string)
    ensures |r| >= 5 && r[..4] == "KRW "
    ensures WithoutCommas(r[4..]) == IntText(amount)
  {
    var magnitude := Decimal(if amount < 0 then -amount else amount);
    var sign := if amount < 0 then "-" else "";
    TextCommaFree(if amount < 0 then -amount else amount);
    GroupedRoundTrip(magnitude);
    WithoutCommasAppend(sign, Grouped(magnitude));
    WithoutCommasKeeps(sign);
    var r := "KRW " + sign + Grouped(magnitude);
    assert r[4..] == sign + Grouped(magnitude);
    r
  }

  /** In the corrected display a digit always follows "KRW " or the minus sign: no comma comes first. */
  lemma SignedDisplayStartsWithDigit(amount: int)
    ensures amount < 0 ==> |FormatSigned(amount)| >= 6 && FormatSigned(amount)[4] == '-' && IsDigit(FormatSigned(amount)[5])
    ensures amount >= 0 ==> IsDigit(FormatSigned(amount)[4])
  {
    var magnitude := Decimal(if amount < 0 then -amount else amount);
    GroupedFront(magnitude);
    var sign := if amount < 0 then "-" else "";
    assert FormatSigned(amount) == "KRW " + sign + Grouped(magnitude);
  }

  /** Grouping a digit string keeps its first character in front. */
  lemma {:induction false} GroupedFront(s: string)
    requires |s| >= 1
    ensures |Grouped(s)| >= 1 && Grouped(s)[0] == s[0]
    decreases |s|
  {
    if |s| > 3 {
      GroupedFront(s[..|s| - 3]);
    }
  }
}
