/** strtol with base 0, as detect_vendor calls it on a machine with 64-bit long, and the numerals it reads. */
module Numerals {
  import opened HexText

  const LONG_MAX: int := 0x7fff_ffff_ffff_ffff

  predicate IsSpace(c: char) { c == ' ' || '\t' <= c <= '\r' }

  /** The value of a digit in any base up to 36, or 99. */
  function DigitValue(c: char): nat {
    if IsHex(c) then HexValue(c) as int
    else if 'g' <= c <= 'z' then 10 + (c as int - 'a' as int)
    else if 'G' <= c <= 'Z' then 10 + (c as int - 'A' as int)
    else 99
  }

  /** The longest run of digits of the base at the front. */
  function DigitRun(s: string, base: nat): (n: nat)
    ensures n <= |s|
    ensures forall i :: 0 <= i < n ==> DigitValue(s[i]) < base
    ensures n < |s| ==> DigitValue(s[n]) >= base
  {
    if s == "" || DigitValue(s[0]) >= base then 0 else 1 + DigitRun(s[1..], base)
  }

  function Number(s: string, base: nat): nat {
    if s == "" then 0 else Number(s[..|s| - 1], base) * base + DigitValue(s[|s| - 1])
  }

  function SkipSpaces(s: string): string {
    if s != "" && IsSpace(s[0]) then SkipSpaces(s[1..]) else s
  }

  function Clamp(v: int): int {
    if v > LONG_MAX then LONG_MAX else if v < -LONG_MAX - 1 then -LONG_MAX - 1 else v
  }

  /** The base that prefix 0x or 0 announces, and the length of the prefix. */
  function BaseOf(s: string): (r: (nat, nat))
    ensures r.1 <= |s|
  {
    if |s| >= 3 && s[0] == '0' && (s[1] == 'x' || s[1] == 'X') && IsHex(s[2]) then (16, 2)
    else if |s| >= 1 && s[0] == '0' then (8, 0)
    else (10, 0)
  }

  /** The number strtol reads and the text it leaves; without any digit it reads 0 and leaves the whole text. */
  function StrToL(text: string): (r: (int, string)) {
    var s := SkipSpaces(text);
    var minus := s != "" && s[0] == '-';
    var t := if s != "" && (s[0] == '-' || s[0] == '+') then s[1..] else s;
    var (base, prefix) := BaseOf(t);
    var n := DigitRun(t[prefix..], base);
    if n == 0 then (0, text)
    else
      var v: int := Number(t[prefix..prefix + n], base);
      (Clamp(if minus then -v else v), t[prefix + n..])
  }

  // ------------------------------------------------------------ numerals

  const DECIMAL := "0123456789"

  /** The decimal numeral of a number, without leading zeros. */
  function Decimal(v: nat): (s: string)
    ensures |s| >= 1
  {
    if v < 10 then [DECIMAL[v]] else Decimal(v / 10) + [DECIMAL[v % 10]]
  }

  lemma DecimalDigit(d: nat)
    requires d < 10
    ensures DigitValue(DECIMAL[d]) == d && !IsSpace(DECIMAL[d]) && DECIMAL[d] != '-' && DECIMAL[d] != '+'
    ensures DECIMAL[d] == '0' <==> d == 0
  {
  }

  lemma {:induction false} DecimalReads(v: nat)
    ensures var s := Decimal(v);
            && Number(s, 10) == v
            && (forall i :: 0 <= i < |s| ==> DigitValue(s[i]) < 10)
            && (s[0] == '0' <==> v == 0)
            && !IsSpace(s[0]) && s[0] != '-' && s[0] != '+'
            && (v == 0 ==> |s| == 1)
  {
    if v < 10 {
      DecimalDigit(v);
      assert Decimal(v)[..0] == "";
    } else {
      DecimalReads(v / 10);
      DecimalDigit(v % 10);
      assert Decimal(v)[..|Decimal(v)| - 1] == Decimal(v / 10);
    }
  }

  lemma {:induction false} RunOfDigits(s: string, base: nat)
    requires forall i :: 0 <= i < |s| ==> DigitValue(s[i]) < base
    ensures DigitRun(s, base) == |s|
  {
  }

  lemma NoSpaces(s: string)
    requires s != "" && !IsSpace(s[0])
    ensures SkipSpaces(s) == s
  {
  }

  /** A text that is a prefix and then digits of the announced base is read as a whole. */
  lemma ReadsWhole(s: string, base: nat, prefix: nat)
    requires s != "" && !IsSpace(s[0]) && s[0] != '-' && s[0] != '+'
    requires BaseOf(s) == (base, prefix) && prefix < |s|
    requires forall i :: prefix <= i < |s| ==> DigitValue(s[i]) < base
    ensures StrToL(s) == (Clamp(Number(s[prefix..], base)), "")
  {
    NoSpaces(s);
    hide Number, SkipSpaces, BaseOf, DigitRun, DigitValue;
    RunOfDigits(s[prefix..], base);
    assert s[prefix..prefix + |s[prefix..]|] == s[prefix..] && s[prefix + |s[prefix..]|..] == "";
  }

  lemma NumberOfZero()
    ensures Number("0", 8) == 0
  {
    assert "0"[..0] == "";
  }

  /** Reading the decimal numeral of a number gives the number, or the largest there is, and leaves nothing. */
  lemma StrToLOfDecimal(v: nat)
    ensures StrToL(Decimal(v)) == (if v <= LONG_MAX then v else LONG_MAX, "")
  {
    var s := Decimal(v);
    DecimalReads(v);
    hide StrToL, Number, DigitRun, Decimal, DigitValue;
    assert s[0..] == s;
    if v == 0 {
      DecimalOfZero();
      NumberOfZero();
      ReadsWhole(s, 8, 0);
    } else {
      ReadsWhole(s, 10, 0);
    }
  }

  // ------------------------------------------------------------ other numerals, and what is none

  /** A sign and blanks in front, and anything that does not continue the digits behind. */
  lemma StrToLOfSigned(v: nat, blanks: string, rest: string)
    requires v <= LONG_MAX && forall i :: 0 <= i < |blanks| ==> IsSpace(blanks[i])
    requires rest != "" ==> DigitValue(rest[0]) >= 10
    requires v == 0 ==> rest == ""
    ensures StrToL(blanks + "-" + Decimal(v) + rest) == (-(v as int), rest)
    ensures StrToL(blanks + "+" + Decimal(v) + rest) == (v, rest)
    ensures StrToL(blanks + Decimal(v) + rest) == (v, rest)
  {
    var s := Decimal(v);
    DecimalReads(v);
    hide Number, DigitRun, Decimal, DigitValue, SkipSpaces, StrToL;
    SkipsBlanks(blanks, "-" + s + rest);
    SkipsBlanks(blanks, "+" + s + rest);
    SkipsBlanks(blanks, s + rest);
    assert blanks + "-" + s + rest == blanks + ("-" + s + rest);
    assert blanks + "+" + s + rest == blanks + ("+" + s + rest);
    assert blanks + s + rest == blanks + (s + rest);
    assert ("-" + s + rest)[1..] == s + rest && ("+" + s + rest)[1..] == s + rest;
    DigitsThen(v, rest);
    ReadsFrom(blanks + "-" + s + rest, "-" + s + rest, s + rest, v, rest);
    ReadsFrom(blanks + "+" + s + rest, "+" + s + rest, s + rest, v, rest);
    ReadsFrom(blanks + s + rest, s + rest, s + rest, v, rest);
  }

  lemma {:induction false} SkipsBlanks(blanks: string, s: string)
    requires s != "" && !IsSpace(s[0]) && forall i :: 0 <= i < |blanks| ==> IsSpace(blanks[i])
    ensures SkipSpaces(blanks + s) == s
  {
    if blanks == "" {
      assert blanks + s == s;
    } else {
      assert (blanks + s)[1..] == blanks[1..] + s;
      SkipsBlanks(blanks[1..], s);
    }
  }

  /** Where the digits of a decimal numeral end. */
  lemma DigitsThen(v: nat, rest: string)
    requires rest != "" ==> DigitValue(rest[0]) >= 10
    requires v == 0 ==> rest == ""
    ensures var t := Decimal(v) + rest;
            && t[0] != '-' && t[0] != '+' && !IsSpace(t[0])
            && var (base, prefix) := BaseOf(t);
               && prefix == 0 && DigitRun(t[prefix..], base) == |Decimal(v)|
               && Number(t[prefix..prefix + |Decimal(v)|], base) == v
  {
    var s, t := Decimal(v), Decimal(v) + rest;
    DecimalReads(v);
    if v == 0 {
      DecimalOfZero();
      NumberOfZero();
      assert t == "0";
    }
    assert t[0..] == t && t[0..|s|] == s;
    RunEnds(s, rest, if v == 0 then 8 else 10);
  }

  lemma {:induction false} RunEnds(s: string, rest: string, base: nat)
    requires forall i :: 0 <= i < |s| ==> DigitValue(s[i]) < base
    requires rest != "" ==> DigitValue(rest[0]) >= base
    ensures DigitRun(s + rest, base) == |s|
  {
    hide DigitValue;
    if s == "" {
      assert s + rest == rest;
    } else {
      assert (s + rest)[1..] == s[1..] + rest;
      RunEnds(s[1..], rest, base);
    }
  }

  lemma ReadsFrom(text: string, s: string, t: string, v: nat, rest: string)
    requires SkipSpaces(text) == s && s != "" && v <= LONG_MAX && t == Decimal(v) + rest
    requires t == if s[0] == '-' || s[0] == '+' then s[1..] else s
    requires var (base, prefix) := BaseOf(t);
             && prefix == 0 && DigitRun(t[prefix..], base) == |Decimal(v)|
             && Number(t[prefix..prefix + |Decimal(v)|], base) == v
    ensures StrToL(text) == (if s[0] == '-' then -(v as int) else v as int, rest)
  {
    hide Number, DigitRun, SkipSpaces, Decimal, BaseOf;
    assert t[0 + |Decimal(v)|..] == rest;
  }

  /** The octal numeral of a number, behind its 0. */
  function Octal(v: nat): (s: string)
    ensures |s| >= 1
  {
    if v < 8 then [DECIMAL[v]] else Octal(v / 8) + [DECIMAL[v % 8]]
  }

  lemma {:induction false} OctalReads(v: nat)
    ensures var s := Octal(v); Number(s, 8) == v && forall i :: 0 <= i < |s| ==> '0' <= s[i] <= '7'
  {
    if v < 8 {
      DecimalDigit(v);
      assert Octal(v)[..0] == "";
    } else {
      OctalReads(v / 8);
      DecimalDigit(v % 8);
      assert Octal(v)[..|Octal(v)| - 1] == Octal(v / 8);
    }
  }

  lemma {:induction false} LeadingZero(s: string)
    ensures Number("0" + s, 8) == Number(s, 8)
  {
    if s == "" {
      NumberOfZero();
      assert "0" + s == "0";
    } else {
      assert ("0" + s)[..|s|] == "0" + s[..|s| - 1];
      LeadingZero(s[..|s| - 1]);
    }
  }

  /** A 0 in front announces octal digits. */
  lemma StrToLOfOctal(v: nat)
    requires v <= LONG_MAX
    ensures StrToL("0" + Octal(v)) == (v, "")
  {
    var s := "0" + Octal(v);
    OctalReads(v);
    LeadingZero(Octal(v));
    hide StrToL, Number, DigitRun, Octal;
    assert s[0..] == s && s[1] == Octal(v)[0];
    forall i | 0 <= i < |s| ensures DigitValue(s[i]) < 8 {
      if i > 0 { assert s[i] == Octal(v)[i - 1]; }
    }
    ReadsWhole(s, 8, 0);
  }

  /** A text that does not begin with a digit is no numeral, and all of it is left. */
  lemma StrToLOfNone(s: string)
    requires s != "" && !IsSpace(s[0]) && s[0] != '-' && s[0] != '+' && DigitValue(s[0]) >= 10
    ensures StrToL(s) == (0, s)
  {
  }

  lemma DecimalOfZero()
    ensures Decimal(0) == "0" && DigitValue('0') == 0
  {
  }

  lemma {:induction false} HexDigitsRead(v: nat, n: nat)
    requires v < Power16(n)
    ensures forall i :: 0 <= i < n ==> IsHex(HexDigits(v, n)[i])
    ensures Number(HexDigits(v, n), 16) == v
    decreases n
  {
    NumberOfHexDigits(v, n);
    if n > 0 {
      HexDigitsRead(v / 16, n - 1);
      DigitOf(v % 16);
      assert HexDigits(v, n)[..n - 1] == HexDigits(v / 16, n - 1);
    }
  }

  lemma {:induction false} FoldedReads(a: string, b: string)
    requires SameFolded(a, b) && forall i :: 0 <= i < |a| ==> IsHex(a[i])
    ensures Number(a, 16) == Number(b, 16) && forall i :: 0 <= i < |b| ==> IsHex(b[i])
  {
    forall i | 0 <= i < |b| ensures IsHex(b[i]) {
      FoldedHex(a[i], b[i]);
    }
    if a != "" {
      FoldedReads(a[..|a| - 1], b[..|b| - 1]);
      FoldedHex(a[|a| - 1], b[|b| - 1]);
    }
  }

  /** Reading 0x and the hexadecimal digits of a number, in either case, gives the number and leaves nothing. */
  lemma StrToLOfHex(v: nat, n: nat, digits: string)
    requires 1 <= n && v < Power16(n) && v <= LONG_MAX && SameFolded(HexDigits(v, n), digits)
    ensures StrToL("0x" + digits) == (v, "")
  {
    hide StrToL, Number, DigitRun, HexDigits, Power16, SkipSpaces;
    HexDigitsRead(v, n);
    FoldedReads(HexDigits(v, n), digits);
    var s := "0x" + digits;
    assert s[2..] == digits && s[2] == digits[0];
    forall i | 2 <= i < |s| ensures DigitValue(s[i]) < 16 {
      assert s[i] == digits[i - 2];
    }
    ReadsWhole(s, 16, 2);
  }
}
