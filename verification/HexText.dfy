/** Hexadecimal digits and the text form of UUIDs. */
module HexText {
  import opened Codec

  type nibble = x: int | 0 <= x < 16

  const LOWER := "0123456789abcdef"
  const UPPER := "0123456789ABCDEF"

  predicate IsHex(c: char) { '0' <= c <= '9' || 'a' <= c <= 'f' || 'A' <= c <= 'F' }

  function HexValue(c: char): (v: nibble)
    requires IsHex(c)
  {
    if '0' <= c <= '9' then c as int - '0' as int
    else if 'a' <= c <= 'f' then 10 + c as int - 'a' as int
    else 10 + c as int - 'A' as int
  }

  /** tolower in the C locale. */
  function Lower(c: char): char {
    if 'A' <= c <= 'Z' then ((c as int) + 32) as char else c
  }

  /** Equality by strcasecmp. */
  predicate SameFolded(a: string, b: string) {
    |a| == |b| && forall i :: 0 <= i < |a| ==> Lower(a[i]) == Lower(b[i])
  }

  lemma FoldedHex(a: char, b: char)
    requires Lower(a) == Lower(b) && IsHex(a)
    ensures IsHex(b) && HexValue(a) == HexValue(b)
  {
  }

  lemma DigitOf(v: nibble)
    ensures IsHex(LOWER[v]) && HexValue(LOWER[v]) == v && IsHex(UPPER[v]) && HexValue(UPPER[v]) == v
    ensures Lower(UPPER[v]) == LOWER[v] && Lower(LOWER[v]) == LOWER[v]
  {
  }

  /** printf's %n.nx on a value of at most n digits: n lower-case digits, the highest first. */
  function HexDigits(v: nat, n: nat): (s: string)
    ensures |s| == n
  {
    if n == 0 then "" else HexDigits(v / 16, n - 1) + [LOWER[v % 16]]
  }

  /** The value of a string of hexadecimal digits. */
  function HexNumber(s: string): nat
    requires forall i :: 0 <= i < |s| ==> IsHex(s[i])
  {
    if s == "" then 0 else HexNumber(s[..|s| - 1]) * 16 + HexValue(s[|s| - 1])
  }

  function Power16(n: nat): (r: nat)
    ensures r >= 1
  {
    if n == 0 then 1 else 16 * Power16(n - 1)
  }

  lemma {:induction false} HexDigitsAreHex(v: nat, n: nat)
    ensures forall i :: 0 <= i < n ==> IsHex(HexDigits(v, n)[i])
    decreases n
  {
    if n > 0 {
      HexDigitsAreHex(v / 16, n - 1);
      DigitOf(v % 16);
    }
  }

  lemma {:induction false} NumberOfHexDigits(v: nat, n: nat)
    requires v < Power16(n)
    ensures forall i :: 0 <= i < n ==> IsHex(HexDigits(v, n)[i])
    ensures HexNumber(HexDigits(v, n)) == v
    decreases n
  {
    HexDigitsAreHex(v, n);
    if n > 0 {
      NumberOfHexDigits(v / 16, n - 1);
      DigitOf(v % 16);
      assert HexDigits(v, n)[..n - 1] == HexDigits(v / 16, n - 1);
    }
  }

  lemma {:induction false} FoldedNumber(a: string, b: string)
    requires SameFolded(a, b) && forall i :: 0 <= i < |a| ==> IsHex(a[i])
    ensures forall i :: 0 <= i < |b| ==> IsHex(b[i])
    ensures HexNumber(a) == HexNumber(b)
  {
    forall i | 0 <= i < |b| ensures IsHex(b[i]) {
      FoldedHex(a[i], b[i]);
    }
    if a != "" {
      FoldedNumber(a[..|a| - 1], b[..|b| - 1]);
      FoldedHex(a[|a| - 1], b[|b| - 1]);
    }
  }

  /** Two digits for a byte, with the given digit characters. */
  function ByteText(b: byte, digits: string): (s: string)
    requires |digits| == 16
    ensures |s| == 2
  {
    [digits[b / 16], digits[b % 16]]
  }

  /** The digits of bytes one after the other. */
  function BytesText(s: seq<byte>, digits: string): (t: string)
    requires |digits| == 16
    ensures |t| == 2 * |s|
  {
    if |s| == 0 then "" else ByteText(s[0], digits) + BytesText(s[1..], digits)
  }

  /** Five groups of digits joined by hyphens. */
  function Dashed(a: string, b: string, c: string, d: string, e: string): (t: string)
    ensures |t| == |a| + |b| + |c| + |d| + |e| + 4
  {
    a + "-" + b + "-" + c + "-" + d + "-" + e
  }

  /** The text of a 128-bit UUID: 8, 4, 4, 4 and 12 digits for the bytes in their order. */
  function UuidText(b: seq<byte>, digits: string): (t: string)
    requires |b| == 16 && |digits| == 16
    ensures |t| == 36
  {
    Dashed(BytesText(b[..4], digits), BytesText(b[4..6], digits), BytesText(b[6..8], digits),
           BytesText(b[8..10], digits), BytesText(b[10..], digits))
  }

  /** The UUID part of the line ibeacon's main prints: two upper-case digits for each byte, in order. */
  function PrintedUuid(uuid: seq<byte>): (t: string)
    requires |uuid| == 16
  {
    UuidText(uuid, UPPER)
  }

  lemma {:induction false} BytesTextAt(s: seq<byte>, digits: string, i: nat)
    requires |digits| == 16 && i < |s|
    ensures BytesText(s, digits)[2 * i] == digits[s[i] / 16] && BytesText(s, digits)[2 * i + 1] == digits[s[i] % 16]
  {
    if i > 0 { BytesTextAt(s[1..], digits, i - 1); }
  }

  /** Where the two digits of byte i stand in the text of a UUID. */
  function PlaceOf(i: nat): (p: nat)
    requires i < 16
    ensures p < 35
  {
    2 * i + if i < 4 then 0 else if i < 6 then 1 else if i < 8 then 2 else if i < 10 then 3 else 4
  }

  /** Every character of the text of a UUID: hyphens behind the first four groups, and two digits for each byte. */
  lemma UuidTextAt(b: seq<byte>, digits: string, i: nat)
    requires |b| == 16 && |digits| == 16 && i < 16
    ensures var t := UuidText(b, digits);
            && t[PlaceOf(i)] == digits[b[i] / 16] && t[PlaceOf(i) + 1] == digits[b[i] % 16]
            && t[8] == t[13] == t[18] == t[23] == '-'
  {
    hide BytesText;
    if i < 4 { BytesTextAt(b[..4], digits, i); }
    else if i < 6 { BytesTextAt(b[4..6], digits, i - 4); }
    else if i < 8 { BytesTextAt(b[6..8], digits, i - 6); }
    else if i < 10 { BytesTextAt(b[8..10], digits, i - 8); }
    else { BytesTextAt(b[10..], digits, i - 10); }
  }

  /** The texts of a UUID in the two letter cases are equal by strcasecmp. */
  lemma CasesFold(b: seq<byte>)
    requires |b| == 16
    ensures SameFolded(UuidText(b, LOWER), UuidText(b, UPPER))
  {
    hide BytesText, Lower;
    BytesFold(b[..4]);
    BytesFold(b[4..6]);
    BytesFold(b[6..8]);
    BytesFold(b[8..10]);
    BytesFold(b[10..]);
  }

  lemma {:induction false} BytesFold(s: seq<byte>)
    ensures SameFolded(BytesText(s, LOWER), BytesText(s, UPPER))
  {
    if |s| > 0 {
      BytesFold(s[1..]);
      DigitFolds(s[0] / 16);
      DigitFolds(s[0] % 16);
    }
  }

  lemma DigitFolds(v: nibble)
    ensures Lower(LOWER[v]) == Lower(UPPER[v])
  {
  }

  /** What ibeacon prints: hyphens in their places and the bytes in order, in upper case. */
  lemma PrintedAt(uuid: seq<byte>, i: nat)
    requires |uuid| == 16 && i < 16
    ensures var t := PrintedUuid(uuid);
            && t[PlaceOf(i)] == "0123456789ABCDEF"[uuid[i] / 16]
            && t[PlaceOf(i) + 1] == "0123456789ABCDEF"[uuid[i] % 16]
            && t[8] == t[13] == t[18] == t[23] == '-'
  {
    hide UuidText;
    UuidTextAt(uuid, UPPER, i);
  }

  /** The text uuid2str128 formats: %8.8x, %4.4x and so on of little-endian parts from the end of the bytes. */
  function FormattedUuid(host: Host, b: seq<byte>): (t: string)
    requires |b| == 16
    ensures |t| == 36
  {
    Dashed(HexDigits(GetLe(host, b[12..]), 8), HexDigits(GetLe(host, b[10..12]), 4),
           HexDigits(GetLe(host, b[8..10]), 4), HexDigits(GetLe(host, b[6..8]), 4),
           HexDigits(GetLe(host, b[2..6]), 8) + HexDigits(GetLe(host, b[..2]), 4))
  }

  /** Formatting a little-endian integer gives the digits of its bytes from the last to the first. */
  lemma {:induction false} HexOfLeValue(s: seq<byte>)
    ensures HexDigits(LeValue(s), 2 * |s|) == BytesText(Reverse(s), LOWER)
  {
    hide LeValue, Reverse, HexDigits, BytesText, ByteText;
    if |s| > 0 {
      HexOfLeValue(s[1..]);
      LowestByteFirst(s);
      LastTwoDigits(s[0], LeValue(s[1..]), 2 * |s| - 2);
      BytesTextAppends(Reverse(s[1..]), s[0], LOWER);
    } else {
      NoBytes(s, LOWER);
    }
  }

  lemma LowestByteFirst(s: seq<byte>)
    requires |s| > 0
    ensures LeValue(s) == s[0] + 256 * LeValue(s[1..]) && Reverse(s) == Reverse(s[1..]) + [s[0]]
  {
  }

  lemma NoBytes(s: seq<byte>, digits: string)
    requires s == [] && |digits| == 16
    ensures HexDigits(LeValue(s), 0) == BytesText(Reverse(s), digits)
  {
  }

  lemma LastTwoDigits(b: byte, w: nat, n: nat)
    ensures HexDigits(b + 256 * w, n + 2) == HexDigits(w, n) + ByteText(b, LOWER)
  {
    var v := b + 256 * w;
    LowDigits(b, w);
    assert HexDigits(v, n + 2) == HexDigits(v / 16, n + 1) + [LOWER[v % 16]];
    assert HexDigits(v / 16, n + 1) == HexDigits(v / 16 / 16, n) + [LOWER[v / 16 % 16]];
    hide HexDigits;
  }

  lemma LowDigits(b: byte, w: nat)
    ensures var v := b + 256 * w; v / 16 / 16 == w && v % 16 == b % 16 && v / 16 % 16 == b / 16
  {
  }

  lemma {:induction false} BytesTextAppends(s: seq<byte>, b: byte, digits: string)
    requires |digits| == 16
    ensures BytesText(s + [b], digits) == BytesText(s, digits) + ByteText(b, digits)
  {
    if |s| > 0 {
      BytesTextAppends(s[1..], b, digits);
      assert (s + [b])[1..] == s[1..] + [b];
    }
  }

  lemma {:induction false} BytesTextConcat(s: seq<byte>, t: seq<byte>, digits: string)
    requires |digits| == 16
    ensures BytesText(s + t, digits) == BytesText(s, digits) + BytesText(t, digits)
  {
    if |s| == 0 {
      assert s + t == t;
    } else {
      BytesTextConcat(s[1..], t, digits);
      assert (s + t)[1..] == s[1..] + t && (s + t)[0] == s[0];
      var first, middle, last := ByteText(s[0], digits), BytesText(s[1..], digits), BytesText(t, digits);
      hide BytesText, ByteText;
      assert first + (middle + last) == (first + middle) + last;
    }
  }

  /** uuid2str128 formats the bytes from the last to the first, on a host of either byte order. */
  lemma FormattedIsReversed(host: Host, b: seq<byte>)
    requires |b| == 16
    ensures FormattedUuid(host, b) == UuidText(Reverse(b), LOWER)
  {
    hide BytesText, HexDigits, GetLe, Reverse, Dashed;
    PartIsReversed(host, b, 12, 16);
    PartIsReversed(host, b, 10, 12);
    PartIsReversed(host, b, 8, 10);
    PartIsReversed(host, b, 6, 8);
    PartIsReversed(host, b, 2, 6);
    PartIsReversed(host, b, 0, 2);
    assert b[12..16] == b[12..] && b[0..2] == b[..2];
    var r := Reverse(b);
    assert r[0..4] == r[..4] && r[10..] == r[10..14] + r[14..16];
    BytesTextConcat(r[10..14], r[14..16], LOWER);
  }

  lemma PartIsReversed(host: Host, b: seq<byte>, i: nat, j: nat)
    requires |b| == 16 && i <= j <= 16
    ensures HexDigits(GetLe(host, b[i..j]), 2 * (j - i)) == BytesText(Reverse(b)[16 - j..16 - i], LOWER)
  {
    hide GetLe, LeValue, Reverse, HexDigits, BytesText, StandsAt;
    GetIsPositional(host, b[i..j]);
    HexOfLeValue(b[i..j]);
    PartStands(b[i..j], b, i);
    ReverseStands(b[i..j], b, i);
    PartStands(Reverse(b[i..j]), Reverse(b), 16 - j);
  }

  /** s stands in t from place `at` on. */
  ghost predicate StandsAt<T>(s: seq<T>, t: seq<T>, at: nat) {
    at + |s| <= |t| && forall k :: 0 <= k < |s| ==> s[k] == t[at + k]
  }

  lemma PartStands<T>(s: seq<T>, t: seq<T>, at: nat)
    requires at + |s| <= |t|
    ensures StandsAt(s, t, at) <==> s == t[at..at + |s|]
  {
  }

  lemma ReverseStands<T>(s: seq<T>, t: seq<T>, at: nat)
    requires StandsAt(s, t, at)
    ensures StandsAt(Reverse(s), Reverse(t), |t| - at - |s|)
  {
    hide Reverse;
    ReverseAt(s);
    ReverseAt(t);
    forall k | 0 <= k < |s| ensures Reverse(s)[k] == Reverse(t)[|t| - at - |s| + k] {
      assert s[|s| - 1 - k] == t[at + (|s| - 1 - k)];
    }
  }
}
