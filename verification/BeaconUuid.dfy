/** The UUID option of ibeacon: the parser, and what it makes of the texts the project prints. */
module BeaconUuid {
  import opened Codec
  import opened HexText

  const UUID_LENGTH: nat := 16

  predicate IsSeparator(c: char) { c == ':' || c == '-' }

  predicate IsWrong(c: char) {
    !('0' <= c <= '9' || 'a' <= c <= 'f' || 'A' <= c <= 'F' || c == ':' || c == '-')
  }

  /** The digits a text spells, at most `room` of them, and whether no wrong character comes before. */
  datatype Scanned = Scanned(digits: seq<nibble>, ok: bool)

  function Scan(text: string, room: nat): (r: Scanned)
    ensures |r.digits| <= room
  {
    if text == "" || room == 0 then Scanned([], true)
    else if IsHex(text[0]) then
      var r := Scan(text[1..], room - 1);
      Scanned([HexValue(text[0])] + r.digits, r.ok)
    else if IsSeparator(text[0]) then Scan(text[1..], room)
    else Scanned([], false)
  }

  /** Two digits make a byte, a last odd digit makes a byte of its own, the other bytes stay. */
  function Packed(before: seq<byte>, digits: seq<nibble>): (r: seq<byte>)
    requires |before| == UUID_LENGTH && |digits| <= 2 * UUID_LENGTH
    ensures |r| == UUID_LENGTH
  {
    seq(UUID_LENGTH, j requires 0 <= j < UUID_LENGTH =>
      if 2 * j + 1 < |digits| then 16 * (digits[2 * j] as int) + digits[2 * j + 1]
      else if 2 * j < |digits| then digits[2 * j]
      else before[j])
  }

  /** One more digit: a byte on its own, or the lower half of the byte begun before. */
  lemma PackedOneMore(before: seq<byte>, digits: seq<nibble>, d: nibble)
    requires |before| == UUID_LENGTH && |digits| < 2 * UUID_LENGTH
    ensures var j := |digits| / 2;
            var was := Packed(before, digits);
            if |digits| % 2 == 0 then Packed(before, digits + [d]) == was[j := d]
            else was[j] == digits[2 * j] && Packed(before, digits + [d]) == was[j := 16 * (was[j] as int) + d]
  {
  }

  /** The values of all hexadecimal digits of a text, in order. */
  function DigitsOf(text: string): seq<nibble> {
    if text == "" then []
    else if IsHex(text[0]) then [HexValue(text[0])] + DigitsOf(text[1..])
    else DigitsOf(text[1..])
  }

  lemma {:induction false} ScanTakesDigits(text: string, room: nat)
    requires Scan(text, room).ok
    ensures var d := DigitsOf(text); Scan(text, room).digits == if |d| <= room then d else d[..room]
  {
    if text != "" && room > 0 {
      ScanTakesDigits(text[1..], if IsHex(text[0]) then room - 1 else room);
    }
  }

  /**
   The bytes of a text of digits d over those that were there: two digits make a byte, a last odd one makes
   a byte of its own, and the others stay.
   */
  ghost predicate Fills(before: seq<byte>, d: seq<nibble>, after: seq<byte>)
    requires |before| == UUID_LENGTH && |after| == UUID_LENGTH
  {
    forall j :: 0 <= j < UUID_LENGTH ==>
      after[j] == if 2 * j + 1 < |d| then 16 * (d[2 * j] as int) + d[2 * j + 1]
                  else if 2 * j + 1 == |d| then d[2 * j]
                  else before[j]
  }

  lemma AcceptedFills(text: string, before: seq<byte>)
    requires |before| == UUID_LENGTH && Scan(text, 32).ok
    ensures Fills(before, DigitsOf(text), Packed(before, Scan(text, 32).digits))
  {
    ScanTakesDigits(text, 32);
    hide Scan;
  }

  lemma ScanStep(text: string, i: nat, room: nat)
    requires i < |text| && room > 0
    ensures var r := Scan(text[i + 1..], if IsHex(text[i]) then room - 1 else room);
            (Scan(text[i..], room)
             == if IsHex(text[i]) then Scanned([HexValue(text[i])] + r.digits, r.ok)
                else if IsSeparator(text[i]) then r
                else Scanned([], false))
  {
    assert text[i..][1..] == text[i + 1..];
  }

  /** The loop under option u, which fills the UUID in place. */
  method ParseUuid(text: string, uuid: array<byte>) returns (ok: bool)
    requires uuid.Length == UUID_LENGTH
    modifies uuid
    ensures ok == Scan(text, 32).ok
    ensures uuid[..] == Packed(old(uuid[..]), Scan(text, 32).digits)
    ensures ok ==> Fills(old(uuid[..]), DigitsOf(text), uuid[..])
  {
    hide Scan, Packed, Fills;
    if Scan(text, 32).ok { AcceptedFills(text, uuid[..]); }
    ghost var before, digits := uuid[..], [];
    PackedNothing(before);
    ScanAll(text);
    var i, j, k := 0, 0, false;
    while i < |text| && j < 16
      invariant i <= |text| && j <= 16 && (j == 16 ==> !k)
      invariant |digits| == 2 * j + if k then 1 else 0
      invariant uuid[..] == Packed(before, digits)
      invariant Scan(text, 32).digits == digits + Scan(text[i..], 32 - |digits|).digits
      invariant Scan(text, 32).ok == Scan(text[i..], 32 - |digits|).ok
    {
      ScanStep(text, i, 32 - |digits|);
      if IsHex(text[i]) {
        var d := HexValue(text[i]);
        PackedOneMore(before, digits, d);
        ghost var was := uuid[..];
        if k {
          uuid[j] := (uuid[j] * 16) % 256 + d;
          assert uuid[..] == was[j := 16 * (was[j] as int) + d];
          j := j + 1;
        } else {
          uuid[j] := d;
          assert uuid[..] == was[j := d];
        }
        k := !k;
        digits := digits + [d];
      } else if !IsSeparator(text[i]) {
        assert digits + [] == digits;
        return false;
      }
      i := i + 1;
    }
    ScanEnd(text[i..], 32 - |digits|);
    assert digits + [] == digits;
    return true;
  }

  lemma PackedNothing(before: seq<byte>)
    requires |before| == UUID_LENGTH
    ensures Packed(before, []) == before
  {
  }

  lemma ScanAll(text: string)
    ensures text[0..] == text
  {
  }

  lemma ScanEnd(text: string, room: nat)
    requires text == "" || room == 0
    ensures Scan(text, room) == Scanned([], true)
  {
  }

  // ------------------------------------------------------------ what the parser accepts

  function DigitCount(text: string): nat {
    if text == "" then 0 else DigitCount(text[..|text| - 1]) + if IsHex(text[|text| - 1]) then 1 else 0
  }

  lemma {:induction false} DigitCountFromFront(text: string)
    requires text != ""
    ensures DigitCount(text) == (if IsHex(text[0]) then 1 else 0) + DigitCount(text[1..])
  {
    if |text| > 1 {
      DigitCountFromFront(text[..|text| - 1]);
      assert text[..|text| - 1][1..] == text[1..][..|text| - 2];
    }
  }

  /** A wrong character stands at some place before which fewer than `room` digits stand. */
  ghost predicate WrongBefore(text: string, room: nat) {
    exists i :: 0 <= i < |text| && IsWrong(text[i]) && DigitCount(text[..i]) < room
  }

  lemma WrongFirst(text: string, room: nat)
    requires text != "" && room > 0 && IsWrong(text[0])
    ensures WrongBefore(text, room)
  {
    assert IsWrong(text[0]) && DigitCount(text[..0]) == 0;
  }

  lemma DigitsBefore(text: string, i: nat)
    requires 0 < i <= |text|
    ensures DigitCount(text[..i]) == (if IsHex(text[0]) then 1 else 0) + DigitCount(text[1..][..i - 1])
  {
    DigitCountFromFront(text[..i]);
    assert text[..i][1..] == text[1..][..i - 1];
  }

  lemma WrongLater(text: string, room: nat, less: nat)
    requires text != "" && !IsWrong(text[0]) && room == less + if IsHex(text[0]) then 1 else 0
    ensures WrongBefore(text[1..], less) ==> WrongBefore(text, room)
  {
    hide DigitCount;
    if i :| 0 <= i < |text[1..]| && IsWrong(text[1..][i]) && DigitCount(text[1..][..i]) < less {
      DigitsBefore(text, i + 1);
      assert IsWrong(text[i + 1]) && DigitCount(text[..i + 1]) < room;
    }
  }

  lemma WrongNotFirst(text: string, room: nat, less: nat)
    requires text != "" && !IsWrong(text[0]) && room == less + if IsHex(text[0]) then 1 else 0
    ensures WrongBefore(text, room) ==> WrongBefore(text[1..], less)
  {
    hide DigitCount;
    if i :| 0 <= i < |text| && IsWrong(text[i]) && DigitCount(text[..i]) < room {
      DigitsBefore(text, i);
      assert IsWrong(text[1..][i - 1]) && DigitCount(text[1..][..i - 1]) < less;
    }
  }

  /** A text is refused if and only if a wrong character comes before the last digit that is needed. */
  lemma {:induction false} RefusedIff(text: string, room: nat)
    ensures !Scan(text, room).ok <==> WrongBefore(text, room)
  {
    hide WrongBefore;
    if text == "" || room == 0 {
      NothingWrong(text, room);
    } else if IsWrong(text[0]) {
      WrongFirst(text, room);
    } else {
      var less := if IsHex(text[0]) then room - 1 else room;
      RefusedIff(text[1..], less);
      WrongLater(text, room, less);
      WrongNotFirst(text, room, less);
    }
  }

  lemma NothingWrong(text: string, room: nat)
    requires text == "" || room == 0
    ensures !WrongBefore(text, room)
  {
  }

  /** The text without separators and in lower case. */
  function Canonical(text: string): string {
    if text == "" then ""
    else if IsSeparator(text[0]) then Canonical(text[1..])
    else [Lower(text[0])] + Canonical(text[1..])
  }

  lemma LowerKeepsDigit(c: char)
    ensures IsHex(Lower(c)) == IsHex(c) && (IsHex(c) ==> HexValue(Lower(c)) == HexValue(c))
    ensures IsSeparator(Lower(c)) == IsSeparator(c)
  {
  }

  /** Separators and letter case make no difference anywhere in the text. */
  lemma {:induction false} ScanOfCanonical(text: string, room: nat)
    ensures Scan(text, room) == Scan(Canonical(text), room)
  {
    if text != "" && room > 0 {
      LowerKeepsDigit(text[0]);
      if IsHex(text[0]) {
        ScanOfCanonical(text[1..], room - 1);
        assert Canonical(text)[1..] == Canonical(text[1..]);
      } else if IsSeparator(text[0]) {
        ScanOfCanonical(text[1..], room);
      }
    }
  }

  lemma {:induction false} CanonicalConcat(a: string, b: string)
    ensures Canonical(a + b) == Canonical(a) + Canonical(b)
  {
    if a == "" {
      assert a + b == b;
    } else {
      CanonicalConcat(a[1..], b);
      assert (a + b)[1..] == a[1..] + b;
    }
  }

  lemma {:induction false} CanonicalBytes(s: seq<byte>, digits: string)
    requires digits == LOWER || digits == UPPER
    ensures Canonical(BytesText(s, digits)) == BytesText(s, LOWER)
  {
    if |s| > 0 {
      CanonicalBytes(s[1..], digits);
      CanonicalConcat(ByteText(s[0], digits), BytesText(s[1..], digits));
      CanonicalByte(s[0], digits);
    }
  }

  lemma CanonicalByte(b: byte, digits: string)
    requires digits == LOWER || digits == UPPER
    ensures Canonical(ByteText(b, digits)) == ByteText(b, LOWER)
  {
    var t := ByteText(b, digits);
    DigitOf(b / 16);
    DigitOf(b % 16);
    assert t[1..][1..] == "" && Canonical(t[1..]) == [Lower(t[1])] + Canonical(t[1..][1..]);
  }

  lemma CanonicalDash(a: string, b: string)
    ensures Canonical(a + "-" + b) == Canonical(a) + Canonical(b)
  {
    CanonicalConcat(a, "-");
    CanonicalConcat(a + "-", b);
    assert Canonical("-") == "";
  }

  lemma CanonicalDashed(a: string, b: string, c: string, d: string, e: string)
    ensures Canonical(Dashed(a, b, c, d, e)) == Canonical(a) + Canonical(b) + Canonical(c) + Canonical(d) + Canonical(e)
  {
    hide Canonical;
    var s2 := a + "-" + b;
    var s3 := s2 + "-" + c;
    var s4 := s3 + "-" + d;
    CanonicalDash(a, b);
    CanonicalDash(s2, c);
    CanonicalDash(s3, d);
    CanonicalDash(s4, e);
  }

  lemma CanonicalUuid(b: seq<byte>, digits: string)
    requires |b| == 16 && (digits == LOWER || digits == UPPER)
    ensures Canonical(UuidText(b, digits)) == BytesText(b, LOWER)
  {
    hide Canonical, BytesText, Dashed;
    CanonicalDashed(BytesText(b[..4], digits), BytesText(b[4..6], digits), BytesText(b[6..8], digits),
                    BytesText(b[8..10], digits), BytesText(b[10..], digits));
    CanonicalBytes(b[..4], digits);
    CanonicalBytes(b[4..6], digits);
    CanonicalBytes(b[6..8], digits);
    CanonicalBytes(b[8..10], digits);
    CanonicalBytes(b[10..], digits);
    BytesTextConcat(b[..4], b[4..6], LOWER);
    BytesTextConcat(b[..4] + b[4..6], b[6..8], LOWER);
    BytesTextConcat(b[..4] + b[4..6] + b[6..8], b[8..10], LOWER);
    BytesTextConcat(b[..4] + b[4..6] + b[6..8] + b[8..10], b[10..], LOWER);
    assert b == b[..4] + b[4..6] + b[6..8] + b[8..10] + b[10..];
  }

  // ------------------------------------------------------------ round trips

  function Nibbles(s: seq<byte>): (d: seq<nibble>)
    ensures |d| == 2 * |s|
    ensures forall j :: 0 <= j < |s| ==> d[2 * j] == s[j] / 16 && d[2 * j + 1] == s[j] % 16
  {
    if |s| == 0 then [] else [s[0] / 16, s[0] % 16] + Nibbles(s[1..])
  }

  lemma ScanDigit(c: char, rest: string, room: nat)
    requires IsHex(c) && room > 0
    ensures Scan([c] + rest, room).digits == [HexValue(c)] + Scan(rest, room - 1).digits
    ensures Scan([c] + rest, room).ok == Scan(rest, room - 1).ok
  {
    assert ([c] + rest)[1..] == rest;
  }

  ghost predicate SpellsNibbles(digits: string) {
    |digits| == 16 && forall v: nibble :: IsHex(digits[v]) && HexValue(digits[v]) == v
  }

  lemma LowerSpellsNibbles()
    ensures SpellsNibbles(LOWER)
  {
    forall v: nibble ensures IsHex(LOWER[v]) && HexValue(LOWER[v]) == v {
      DigitOf(v);
    }
  }

  lemma FirstByte(s: seq<byte>, digits: string)
    requires |s| > 0 && |digits| == 16
    ensures BytesText(s, digits) == [digits[s[0] / 16]] + ([digits[s[0] % 16]] + BytesText(s[1..], digits))
    ensures Nibbles(s) == [s[0] / 16] + ([s[0] % 16] + Nibbles(s[1..]))
  {
    TwoThenRest(digits[s[0] / 16], digits[s[0] % 16], BytesText(s[1..], digits));
    TwoThenRest(s[0] / 16, s[0] % 16, Nibbles(s[1..]));
  }

  lemma TwoThenRest<T>(a: T, b: T, rest: seq<T>)
    ensures [a, b] + rest == [a] + ([b] + rest)
  {
  }

  lemma {:induction false} ScanOfBytes(s: seq<byte>, digits: string, room: nat)
    requires room >= 2 * |s| && SpellsNibbles(digits)
    ensures Scan(BytesText(s, digits), room) == Scanned(Nibbles(s), true)
  {
    if |s| > 0 {
      hide Scan, BytesText, Nibbles;
      var hi, lo, rest := digits[s[0] / 16], digits[s[0] % 16], BytesText(s[1..], digits);
      ScanOfBytes(s[1..], digits, room - 2);
      FirstByte(s, digits);
      ScanDigit(lo, rest, room - 1);
      ScanDigit(hi, [lo] + rest, room);
    }
  }

  lemma PackedNibbles(before: seq<byte>, b: seq<byte>)
    requires |before| == 16 && |b| == 16
    ensures Packed(before, Nibbles(b)) == b
  {
  }

  /**
   For every UUID, the parser accepts the text main prints, and every text that differs from it in
   separators and letter case only, and fills in exactly the UUID, whatever was there before.
   */
  lemma ParserInvertsPrinter(uuid: seq<byte>, text: string, before: seq<byte>)
    requires |uuid| == 16 && |before| == 16
    requires Canonical(text) == Canonical(PrintedUuid(uuid))
    ensures Scan(text, 32).ok && Packed(before, Scan(text, 32).digits) == uuid
  {
    hide Canonical, Packed;
    CanonicalUuid(uuid, UPPER);
    ScanOfCanonical(text, 32);
    LowerSpellsNibbles();
    ScanOfBytes(uuid, LOWER, 32);
    PackedNibbles(before, uuid);
  }

  /** XX:XX:...:XX. */
  function ColonText(b: seq<byte>, digits: string): string
    requires |digits| == 16
  {
    if |b| == 0 then ""
    else if |b| == 1 then ByteText(b[0], digits)
    else ByteText(b[0], digits) + ":" + ColonText(b[1..], digits)
  }

  lemma {:induction false} CanonicalColons(b: seq<byte>, digits: string)
    requires digits == LOWER || digits == UPPER
    ensures Canonical(ColonText(b, digits)) == BytesText(b, LOWER)
  {
    if |b| == 1 {
      CanonicalByte(b[0], digits);
      assert BytesText(b[1..], LOWER) == "";
    } else if |b| > 1 {
      CanonicalColons(b[1..], digits);
      CanonicalByte(b[0], digits);
      var first, rest := ByteText(b[0], digits), ColonText(b[1..], digits);
      CanonicalConcat(first, ":");
      CanonicalConcat(first + ":", rest);
      assert Canonical(":") == "";
    }
  }

  /** The parser reads the form with colons as well, in either letter case. */
  lemma ParserReadsColons(uuid: seq<byte>, digits: string, before: seq<byte>)
    requires |uuid| == 16 && |before| == 16 && (digits == LOWER || digits == UPPER)
    ensures var r := Scan(ColonText(uuid, digits), 32); r.ok && Packed(before, r.digits) == uuid
  {
    hide Canonical, Packed, ColonText;
    CanonicalColons(uuid, digits);
    ScanOfCanonical(ColonText(uuid, digits), 32);
    LowerSpellsNibbles();
    ScanOfBytes(uuid, LOWER, 32);
    PackedNibbles(before, uuid);
  }

  /** Of the text uuid2str128 formats for bytes b the parser makes the bytes in the opposite order. */
  lemma ParserReversesFormatted(host: Host, b: seq<byte>, before: seq<byte>)
    requires |b| == 16 && |before| == 16
    ensures var r := Scan(FormattedUuid(host, b), 32); r.ok && Packed(before, r.digits) == Reverse(b)
  {
    hide Canonical, Packed;
    FormattedIsReversed(host, b);
    CanonicalUuid(Reverse(b), LOWER);
    ScanOfCanonical(FormattedUuid(host, b), 32);
    LowerSpellsNibbles();
    ScanOfBytes(Reverse(b), LOWER, 32);
    PackedNibbles(before, Reverse(b));
  }

  /** Different UUIDs are formatted differently, on hosts of either byte order. */
  lemma FormattedIsInjective(host: Host, other: Host, a: seq<byte>, b: seq<byte>)
    requires |a| == 16 && |b| == 16
    ensures FormattedUuid(host, a) == FormattedUuid(other, b) <==> a == b
  {
    hide Packed, FormattedUuid;
    ParserReversesFormatted(host, a, a);
    ParserReversesFormatted(other, b, a);
    ReverseTwice(a);
    ReverseTwice(b);
    FormattedIsReversed(host, a);
    FormattedIsReversed(other, b);
  }
}
