/** JavaScript numbers as the attribute codec uses them: `toString()` on a
    number and the global `Number(text)` conversion. Numbers are restricted
    to the integers and NaN; everything else JavaScript's number type holds
    is outside this model. */
module Decimal {

  /** An integral JavaScript number, or NaN. */
  datatype Num = Int(i: int) | NaN

  predicate IsDigit(c: char) {
    '0' <= c <= '9'
  }

  predicate AllDigits(s: string) {
    forall k :: 0 <= k < |s| ==> IsDigit(s[k])
  }

  function DigitValue(c: char): (d: nat)
    requires IsDigit(c)
    ensures d < 10
  {
    c as int - '0' as int
  }

  function DigitChar(d: nat): (c: char)
    requires d < 10
    ensures IsDigit(c) && DigitValue(c) == d
  {
    ('0' as int + d) as char
  }

  /** Decimal digits of `n`, most significant first, without leading zeros. */
  function NatText(n: nat): (s: string)
    ensures s != [] && AllDigits(s)
    ensures s[0] == '0' ==> n == 0 && |s| == 1
  {
    if n < 10 then [DigitChar(n)] else NatText(n / 10) + [DigitChar(n % 10)]
  }

  /** The value of a run of decimal digits (leading zeros allowed). */
  function DigitsValue(s: string): nat
    requires AllDigits(s)
  {
    if s == [] then 0 else DigitsValue(s[..|s| - 1]) * 10 + DigitValue(s[|s| - 1])
  }

  lemma {:induction false} DigitsValueOfNatText(n: nat)
    ensures DigitsValue(NatText(n)) == n
  {
    if n >= 10 {
      var s := NatText(n);
      assert s[..|s| - 1] == NatText(n / 10);
      DigitsValueOfNatText(n / 10);
    }
  }

  /** `Number.prototype.toString()` with radix 10, for integral numbers:
      NaN prints as "NaN", an integer as its decimal digits without leading
      zeros, after a minus sign when it is negative. */
  function ToString(x: Num): (s: string)
    ensures IsPrintedForm(s)
    ensures s == "NaN" <==> x.NaN?
    ensures s[0] == '-' <==> x.Int? && x.i < 0
  {
    match x
    case NaN => "NaN"
    case Int(i) => if i < 0 then "-" + NatText(-i) else NatText(i)
  }

  /** The characters `Number(text)` strips from both ends before reading:
      tab, vertical tab, form feed, the byte order mark, the line
      terminators, and every space separator of Unicode. */
  predicate IsSpace(c: char) {
    || c == '\t' || c == '\U{0B}' || c == '\U{0C}' || c == '\U{FEFF}'
    || c == '\n' || c == '\r' || c == '\U{2028}' || c == '\U{2029}'
    || c == ' ' || c == '\U{A0}' || c == '\U{1680}' || '\U{2000}' <= c <= '\U{200A}'
    || c == '\U{202F}' || c == '\U{205F}' || c == '\U{3000}'
  }

  function TrimStart(s: string): string {
    if s != [] && IsSpace(s[0]) then TrimStart(s[1..]) else s
  }

  function TrimEnd(s: string): string {
    if s != [] && IsSpace(s[|s| - 1]) then TrimEnd(s[..|s| - 1]) else s
  }

  function Trim(s: string): string {
    TrimEnd(TrimStart(s))
  }

  /** A decimal integer literal with an optional sign. */
  predicate IsIntegerLiteral(t: string) {
    if t != [] && (t[0] == '-' || t[0] == '+') then t[1..] != [] && AllDigits(t[1..])
    else t != [] && AllDigits(t)
  }

  /** The global `Number(text)`: surrounding white space is ignored, text
      that is empty after trimming reads as 0, a signed decimal integer reads
      as its value, and anything else reads as NaN. */
  function Parse(s: string): (r: Num)
    ensures Trim(s) == "" ==> r == Int(0)
    ensures r.NaN? <==> Trim(s) != "" && !IsIntegerLiteral(Trim(s))
  {
    var t := Trim(s);
    if t == "" then Int(0)
    else if !IsIntegerLiteral(t) then NaN
    else if t[0] == '-' then Int(-(DigitsValue(t[1..]) as int))
    else if t[0] == '+' then Int(DigitsValue(t[1..]))
    else Int(DigitsValue(t))
  }

  /** Text that `Number` reads back as the number it came from: printing a
      number and reading the text back gives the same number. */
  lemma ParseToString(x: Num)
    ensures Parse(ToString(x)) == x
  {
    match x
    case NaN =>
      assert Trim("NaN") == "NaN";
    case Int(i) =>
      var n: nat := if i < 0 then -i else i;
      var digits := NatText(n);
      var s := ToString(x);
      assert s == if i < 0 then "-" + digits else digits;
      assert !IsSpace(s[0]) && !IsSpace(s[|s| - 1]);
      assert TrimStart(s) == s;
      assert Trim(s) == s;
      DigitsValueOfNatText(n);
      if i < 0 {
        assert s[1..] == digits;
      }
  }

  /** Printing is injective: distinct numbers have distinct texts. */
  lemma ToStringInjective(x: Num, y: Num)
    requires ToString(x) == ToString(y)
    ensures x == y
  {
    ParseToString(x);
    ParseToString(y);
  }

  /** Whether printing the number that `s` reads as gives back `s` itself. */
  predicate Canonical(s: string) {
    ToString(Parse(s)) == s
  }

  /** A non-empty run of digits that does not start with 0: the text
      `toString` prints for a positive integer. */
  predicate PositiveText(t: string) {
    t != [] && AllDigits(t) && t[0] != '0'
  }

  /** The texts `toString` prints: "NaN", "0", and a positive integer's
      digits with or without a minus sign in front. */
  predicate IsPrintedForm(s: string) {
    s == "NaN" || s == "0" || PositiveText(s) || (s != [] && s[0] == '-' && PositiveText(s[1..]))
  }

  /** Digits without a leading zero are the printed form of their value. */
  lemma {:induction false} NatTextOfDigitsValue(t: string)
    requires PositiveText(t)
    ensures DigitsValue(t) >= 1 && NatText(DigitsValue(t)) == t
  {
    var v := DigitsValue(t);
    var d := DigitValue(t[|t| - 1]);
    if |t| == 1 {
      assert t[..|t| - 1] == [];
      assert DigitsValue(t[..|t| - 1]) == 0;
      assert v == DigitsValue(t[..|t| - 1]) * 10 + d;
      assert DigitChar(d) == t[0];
      assert t == [t[0]];
    } else {
      var p := t[..|t| - 1];
      assert PositiveText(p);
      NatTextOfDigitsValue(p);
      assert v == DigitsValue(p) * 10 + d;
      assert v / 10 == DigitsValue(p) && v % 10 == d;
      assert NatText(v) == NatText(DigitsValue(p)) + [DigitChar(d)];
      assert t == p + [t[|t| - 1]];
    }
  }

  /** Every printed form is what `toString` prints for some number. */
  lemma PrintedFormIsToString(s: string) returns (x: Num)
    requires IsPrintedForm(s)
    ensures ToString(x) == s
  {
    if s == "NaN" {
      x := NaN;
    } else if s == "0" {
      x := Int(0);
    } else if PositiveText(s) {
      NatTextOfDigitsValue(s);
      x := Int(DigitsValue(s));
    } else {
      NatTextOfDigitsValue(s[1..]);
      x := Int(-(DigitsValue(s[1..]) as int));
      assert s == "-" + s[1..];
    }
  }

  /** A text is canonical exactly when `toString` could have printed it, so
      the condition depends on the text alone and not on the parser. */
  lemma CanonicalIffPrintedForm(s: string)
    ensures Canonical(s) <==> IsPrintedForm(s)
  {
    if IsPrintedForm(s) {
      var x := PrintedFormIsToString(s);
      ParseToString(x);
    }
  }

  /** `Number` accepts non-canonical text: leading zeros and a plus sign
      read as numbers whose printed form is different text, and a fraction
      reads as NaN among the integers modelled here. */
  lemma NonCanonicalTexts()
    ensures Parse("007") == Int(7) && !Canonical("007")
    ensures Parse("+5") == Int(5) && !Canonical("+5")
    ensures Parse("1.5") == NaN
  {
    assert Parse("007") == Int(7) by {
      assert Trim("007") == "007";
      assert DigitsValue("00") == 0;
      assert DigitsValue("007") == 7;
    }
    assert NatText(7) == "7";
    assert Parse("+5") == Int(5) by {
      assert Trim("+5") == "+5";
      assert DigitsValue("5") == 5;
    }
    assert NatText(5) == "5";
    assert Trim("1.5") == "1.5";
    assert !IsDigit('.');
  }

  /** Surrounding white space and the empty string are read too, and are
      not the printed form of the number they read as. */
  lemma PaddedTexts()
    ensures Parse(" 12 ") == Int(12) && !Canonical(" 12 ")
    ensures Parse("") == Int(0) && !Canonical("")
  {
    assert Parse(" 12 ") == Int(12) by {
      assert TrimStart(" 12 ") == "12 ";
      assert TrimEnd("12 ") == "12";
      assert DigitsValue("1") == 1;
      assert DigitsValue("12") == 12;
    }
    assert NatText(12) == "12";
    assert NatText(0) == "0";
  }

  /** Every space separator of Unicode counts as white space: an ideographic
      space alone reads as 0, and an em space before digits is ignored. */
  lemma UnicodeSpacesTrimmed()
    ensures Parse("\U{3000}") == Int(0)
    ensures Parse("\U{2003}12") == Int(12)
  {
    assert TrimStart("\U{3000}") == "";
    assert TrimStart("\U{2003}12") == "12";
    assert TrimEnd("12") == "12";
    assert DigitsValue("1") == 1;
    assert DigitsValue("12") == 12;
  }
}
