/** The name lookups of db.c. The tables are parameters; their last row, whose name is null, is their end. */
module Names {
  import opened Codec
  import opened HexText
  import opened Numerals

  datatype Option<+T> = None | Some(value: T)

  datatype Row16 = Row16(uuid: nat, name: string)
  datatype Row128 = Row128(uuid: string, name: string)

  /**
   The two UUID tables, and what sscanf makes of "%08x" on a text whose first eight characters are
   not all hexadecimal digits.
   */
  datatype Db = Db(short: seq<Row16>, long: seq<Row128>, odd: string -> Option<nat>)

  const UNKNOWN := "Unknown"
  const VENDOR := "Vendor specific"
  const BASE_SUFFIX := "-0000-1000-8000-00805f9b34fb"

  // ------------------------------------------------------------ 16 and 32 bits

  /** The name in the first row for the UUID, or the default. */
  function Name16(rows: seq<Row16>, uuid: nat): string {
    if rows == [] then UNKNOWN else if rows[0].uuid == uuid then rows[0].name else Name16(rows[1..], uuid)
  }

  lemma {:induction false} Name16Meaning(rows: seq<Row16>, uuid: nat, k: nat)
    requires k <= |rows| && forall j :: 0 <= j < k ==> rows[j].uuid != uuid
    requires k < |rows| ==> rows[k].uuid == uuid
    ensures Name16(rows, uuid) == if k < |rows| then rows[k].name else UNKNOWN
  {
    if k > 0 {
      assert k < |rows| ==> rows[1..][k - 1] == rows[k];
      Name16Meaning(rows[1..], uuid, k - 1);
    }
  }

  /** uuid2str16. */
  method Uuid2Str16(rows: seq<Row16>, uuid: nat) returns (name: string)
    ensures name == Name16(rows, uuid)
    ensures forall k :: 0 <= k < |rows| && rows[k].uuid == uuid && (forall j :: 0 <= j < k ==> rows[j].uuid != uuid)
              ==> name == rows[k].name
    ensures (forall k :: 0 <= k < |rows| ==> rows[k].uuid != uuid) ==> name == UNKNOWN
  {
    var i := 0;
    while i < |rows|
      invariant i <= |rows| && forall j :: 0 <= j < i ==> rows[j].uuid != uuid
    {
      if uuid == rows[i].uuid {
        Name16Meaning(rows, uuid, i);
        return rows[i].name;
      }
      i := i + 1;
    }
    Name16Meaning(rows, uuid, i);
    return UNKNOWN;
  }

  /** uuid2str32. */
  function Name32(rows: seq<Row16>, uuid: nat): string {
    if uuid / 0x1_0000 % 0x1_0000 == 0 then Name16(rows, uuid % 0x1_0000) else UNKNOWN
  }

  /** The name in the first row for the UUID, or the default if there is no such row. */
  ghost predicate IsFirst(rows: seq<Row16>, uuid: nat, name: string) {
    || (exists k :: 0 <= k < |rows| && rows[k].uuid == uuid && rows[k].name == name
                    && forall j :: 0 <= j < k ==> rows[j].uuid != uuid)
    || (name == UNKNOWN && forall j :: 0 <= j < |rows| ==> rows[j].uuid != uuid)
  }

  /** What the table makes of a UUID of at most 32 bits: it has names for 16 bits only. */
  ghost predicate Named(rows: seq<Row16>, v: nat, name: string) {
    if v < 0x1_0000 then IsFirst(rows, v, name) else name == UNKNOWN
  }

  lemma NamedOnce(rows: seq<Row16>, v: nat, a: string, b: string)
    requires Named(rows, v, a) && Named(rows, v, b)
    ensures a == b
  {
  }

  lemma Name16IsFirst(rows: seq<Row16>, uuid: nat)
    ensures IsFirst(rows, uuid, Name16(rows, uuid))
  {
    var k := 0;
    while k < |rows| && rows[k].uuid != uuid
      invariant k <= |rows| && forall j :: 0 <= j < k ==> rows[j].uuid != uuid
    {
      k := k + 1;
    }
    Name16Meaning(rows, uuid, k);
  }

  /** uuid2str32 names a UUID as the table does. */
  lemma Name32IsNamed(rows: seq<Row16>, v: nat)
    requires v < 0x1_0000_0000
    ensures Named(rows, v, Name32(rows, v))
  {
    hide Name16, IsFirst;
    Name16IsFirst(rows, v);
    assert v < 0x1_0000 ==> v / 0x1_0000 == 0 && v % 0x1_0000 == v;
    assert v >= 0x1_0000 ==> 1 <= v / 0x1_0000 < 0x1_0000;
  }

  // ------------------------------------------------------------ text

  /** The first row whose UUID equals the text but for letter case, or the number of rows. */
  function RowOf(rows: seq<Row128>, text: string): (k: nat)
    ensures k <= |rows|
    ensures k < |rows| ==> SameFolded(rows[k].uuid, text)
    ensures forall j :: 0 <= j < k ==> !SameFolded(rows[j].uuid, text)
  {
    if rows == [] then 0 else if SameFolded(rows[0].uuid, text) then 0 else 1 + RowOf(rows[1..], text)
  }

  /** sscanf with %08x on a text of at least eight characters. */
  function ScanHex8(db: Db, text: string): Option<nat>
    requires |text| >= 8
  {
    if forall i :: 0 <= i < 8 ==> IsHex(text[i]) then Some(HexNumber(text[..8])) else db.odd(text)
  }

  /** detect_vendor of a text of fewer than 36 characters. */
  function NameOfNumeral(db: Db, text: string): Option<string> {
    var (v, rest) := StrToL(text);
    if rest != "" then None
    else
      var value := v % 0x1_0000_0000;
      Some(if value > 0xffff then Name32(db.short, value) else Name16(db.short, value))
  }

  /** What detect_vendor does with a text of 36 characters that no row of the long table has. */
  function NameOfBase(db: Db, text: string): Option<string>
    requires |text| == 36
  {
    if !SameFolded(text[8..], BASE_SUFFIX) then Some(VENDOR)
    else
      match ScanHex8(db, text)
      case None => None
      case Some(value) => Some(Name32(db.short, value))
  }

  /** detect_vendor; None is the null result. */
  function VendorOf(db: Db, text: string): Option<string> {
    if |text| < 36 then NameOfNumeral(db, text)
    else if |text| != 36 then None
    else if RowOf(db.long, text) < |db.long| then Some(db.long[RowOf(db.long, text)].name)
    else NameOfBase(db, text)
  }

  method DetectVendor(db: Db, text: string) returns (name: Option<string>)
    ensures name == VendorOf(db, text)
    ensures |text| == 36 ==>
              forall k :: (0 <= k < |db.long| && SameFolded(db.long[k].uuid, text)
                           && forall j :: 0 <= j < k ==> !SameFolded(db.long[j].uuid, text))
                          ==> name == Some(db.long[k].name)
  {
    if 36 > |text| {
      var (v, rest) := StrToL(text);
      if rest != "" {
        return None;
      }
      var value := v % 0x1_0000_0000;
      if value > 0xffff {
        return Some(Name32(db.short, value));
      }
      var short := Uuid2Str16(db.short, value);
      return Some(short);
    }
    if 36 != |text| {
      return None;
    }
    var i := 0;
    while i < |db.long|
      invariant i <= |db.long| && forall j :: 0 <= j < i ==> !SameFolded(db.long[j].uuid, text)
    {
      if SameFolded(db.long[i].uuid, text) {
        return Some(db.long[i].name);
      }
      i := i + 1;
    }
    if !SameFolded(text[8..], BASE_SUFFIX) {
      return Some(VENDOR);
    }
    var scanned := ScanHex8(db, text);
    match scanned
    case None => return None;
    case Some(value) => return Some(Name32(db.short, value));
  }

  /** uuid2str128. */
  function NameOfBytes(host: Host, db: Db, b: seq<byte>): Option<string>
    requires |b| == 16
  {
    VendorOf(db, FormattedUuid(host, b))
  }

  // ------------------------------------------------------------ the Bluetooth Base UUID

  /** The Base UUID of section 2.5.1 of the Core Specification, Vol 3 Part B, carrying v, last byte first. */
  function BaseUuid(v: nat): (b: seq<byte>)
    ensures |b| == 16
  {
    [0xfb, 0x34, 0x9b, 0x5f, 0x80, 0x00, 0x00, 0x80, 0x00, 0x10, 0x00, 0x00] + LeBytes(v, 4)
  }

  /** No row of the long table is a Base UUID. */
  ghost predicate NoBaseRow(db: Db) {
    forall k :: 0 <= k < |db.long| && |db.long[k].uuid| == 36 ==> !SameFolded(db.long[k].uuid[8..], BASE_SUFFIX)
  }

  lemma FoldTail(a: string, b: string)
    requires SameFolded(a, b) && |a| == 36
    ensures SameFolded(a[8..], b[8..]) && SameFolded(a[..8], b[..8])
  {
  }

  lemma NoRowFor(db: Db, text: string)
    requires NoBaseRow(db) && |text| == 36 && SameFolded(text[8..], BASE_SUFFIX)
    ensures RowOf(db.long, text) == |db.long|
  {
    var k := RowOf(db.long, text);
    if k < |db.long| {
      FoldTail(db.long[k].uuid, text);
      assert SameFolded(db.long[k].uuid[8..], BASE_SUFFIX);
    }
  }

  /** What follows the first group of a text of five groups. */
  function Tail(b: string, c: string, d: string, e: string): string {
    "-" + b + "-" + c + "-" + d + "-" + e
  }

  lemma DashedSplits(a: string, b: string, c: string, d: string, e: string)
    ensures Dashed(a, b, c, d, e) == a + Tail(b, c, d, e)
  {
  }

  lemma FormattedHead(host: Host, b: seq<byte>)
    requires |b| == 16
    ensures FormattedUuid(host, b)[..8] == HexDigits(LeValue(b[12..]), 8)
  {
    hide HexDigits, GetLe, LeValue, Dashed, Tail;
    GetIsPositional(host, b[12..]);
    DashedSplits(HexDigits(GetLe(host, b[12..]), 8), HexDigits(GetLe(host, b[10..12]), 4),
                 HexDigits(GetLe(host, b[8..10]), 4), HexDigits(GetLe(host, b[6..8]), 4),
                 HexDigits(GetLe(host, b[2..6]), 8) + HexDigits(GetLe(host, b[..2]), 4));
  }

  lemma PowersAgree()
    ensures Power(4) == Power16(8) == 0x1_0000_0000
  {
    assert Power(4) == 256 * Power(3) && Power(3) == 256 * Power(2) && Power(2) == 256 * Power(1)
           && Power(1) == 256 * Power(0);
    assert Power16(8) == 16 * Power16(7) && Power16(7) == 16 * Power16(6) && Power16(6) == 16 * Power16(5)
        && Power16(5) == 16 * Power16(4) && Power16(4) == 16 * Power16(3) && Power16(3) == 16 * Power16(2)
        && Power16(2) == 16 * Power16(1) && Power16(1) == 16 * Power16(0);
  }

  lemma BaseHead(host: Host, v: nat)
    requires v < 0x1_0000_0000
    ensures FormattedUuid(host, BaseUuid(v))[..8] == HexDigits(v, 8)
  {
    hide HexDigits, FormattedUuid, LeBytes, LeValue, BaseUuid, Power, Power16;
    PowersAgree();
    ValueOfBytes(v, 4);
    BaseCarries(v);
    FormattedHead(host, BaseUuid(v));
  }

  lemma BaseCarries(v: nat)
    ensures BaseUuid(v)[12..] == LeBytes(v, 4)
  {
    hide LeBytes;
  }

  lemma TextSplits(b: seq<byte>)
    requires |b| == 16
    ensures UuidText(b, LOWER)[8..]
         == Tail(BytesText(b[4..6], LOWER), BytesText(b[6..8], LOWER), BytesText(b[8..10], LOWER),
                 BytesText(b[10..], LOWER))
  {
    hide BytesText, Dashed, Tail;
    DashedSplits(BytesText(b[..4], LOWER), BytesText(b[4..6], LOWER), BytesText(b[6..8], LOWER),
                 BytesText(b[8..10], LOWER), BytesText(b[10..], LOWER));
  }

  /** The text of a Base UUID: the digits of the value, then the fixed part. */
  lemma BaseText(host: Host, v: nat)
    requires v < 0x1_0000_0000
    ensures FormattedUuid(host, BaseUuid(v)) == HexDigits(v, 8) + BASE_SUFFIX
  {
    hide HexDigits, FormattedUuid, BytesText, UuidText, Tail, Reverse, BaseUuid;
    var t, r := FormattedUuid(host, BaseUuid(v)), Reverse(BaseUuid(v));
    BaseHead(host, v);
    FormattedIsReversed(host, BaseUuid(v));
    TextSplits(r);
    BaseGroups(v);
    BaseLastGroup();
    SuffixIsTail();
    assert t == t[..8] + t[8..];
  }

  lemma BaseGroups(v: nat)
    ensures var r := Reverse(BaseUuid(v));
            && BytesText(r[4..6], LOWER) == "0000" && BytesText(r[6..8], LOWER) == "1000"
            && BytesText(r[8..10], LOWER) == "8000" && r[10..] == [0x00, 0x80, 0x5f, 0x9b, 0x34, 0xfb]
  {
    hide BytesText, LeBytes;
    var r := Reverse(BaseUuid(v));
    ReverseAt(BaseUuid(v));
    assert r[4..6] == [0x00, 0x00] && r[6..8] == [0x10, 0x00] && r[8..10] == [0x80, 0x00];
    TwoBytesText(0x00, 0x00);
    TwoBytesText(0x10, 0x00);
    TwoBytesText(0x80, 0x00);
  }

  lemma BaseLastGroup()
    ensures BytesText([0x00, 0x80, 0x5f, 0x9b, 0x34, 0xfb], LOWER) == "00805f9b34fb"
  {
    hide BytesText;
    TwoBytesText(0x00, 0x80);
    TwoBytesText(0x5f, 0x9b);
    TwoBytesText(0x34, 0xfb);
    var s := [0x00, 0x80] + [0x5f, 0x9b];
    BytesTextConcat([0x00, 0x80], [0x5f, 0x9b], LOWER);
    BytesTextConcat(s, [0x34, 0xfb], LOWER);
    assert s + [0x34, 0xfb] == [0x00, 0x80, 0x5f, 0x9b, 0x34, 0xfb];
  }

  lemma SuffixIsTail()
    ensures Tail("0000", "1000", "8000", "00805f9b34fb") == BASE_SUFFIX
  {
  }

  lemma TwoBytesText(a: byte, b: byte)
    ensures BytesText([a, b], LOWER) == [LOWER[a / 16], LOWER[a % 16], LOWER[b / 16], LOWER[b % 16]]
  {
    assert [a, b][1..] == [b] && [b][1..] == [];
    assert BytesText([b], LOWER) == ByteText(b, LOWER) + BytesText([], LOWER);
  }

  // ------------------------------------------------------------ all forms of a UUID have one name

  /** A text equal to the formatted Base UUID but for letter case has the name of its value. */
  lemma NameOfBaseText(db: Db, host: Host, v: nat, text: string)
    requires NoBaseRow(db) && v < 0x1_0000_0000 && SameFolded(FormattedUuid(host, BaseUuid(v)), text)
    ensures VendorOf(db, text).Some? && Named(db.short, v, VendorOf(db, text).value)
  {
    hide VendorOf, FormattedUuid, BaseUuid, NoBaseRow, Name32, Named;
    BaseTextLookup(db, host, v, text);
    Name32IsNamed(db.short, v);
  }

  lemma BaseTextLookup(db: Db, host: Host, v: nat, text: string)
    requires NoBaseRow(db) && v < 0x1_0000_0000 && SameFolded(FormattedUuid(host, BaseUuid(v)), text)
    ensures VendorOf(db, text) == Some(Name32(db.short, v))
  {
    var t := FormattedUuid(host, BaseUuid(v));
    BaseText(host, v);
    FoldTail(t, text);
    assert t[..8] == HexDigits(v, 8) && t[8..] == BASE_SUFFIX;
    SuffixFolds(text[8..]);
    NoRowFor(db, text);
    PowersAgree();
    NumberOfHexDigits(v, 8);
    FoldedNumber(HexDigits(v, 8), text[..8]);
    hide HexDigits, HexNumber, FormattedUuid, Power16, NameOfNumeral, Name32;
    assert forall i :: 0 <= i < 8 ==> text[i] == text[..8][i];
  }

  lemma SuffixFolds(s: string)
    requires SameFolded(BASE_SUFFIX, s)
    ensures SameFolded(s, BASE_SUFFIX)
  {
  }

  lemma ValueFits(v: nat)
    requires v < 0x1_0000_0000
    ensures v % 0x1_0000_0000 == v && v <= LONG_MAX
  {
  }

  lemma ShortName(db: Db, v: nat)
    requires v <= 0xffff
    ensures Name32(db.short, v) == Name16(db.short, v)
  {
  }

  /** A numeral, as strtol reads it, names the UUID of its lowest 32 bits. */
  lemma NumeralText(db: Db, v: int, text: string)
    requires StrToL(text) == (v, "") && |text| < 36
    ensures VendorOf(db, text).Some? && Named(db.short, v % 0x1_0000_0000, VendorOf(db, text).value)
  {
    hide StrToL, Name32, Name16, NameOfBase, Named;
    var low := v % 0x1_0000_0000;
    Name32IsNamed(db.short, low);
    if low <= 0xffff { ShortName(db, low); }
  }

  /** A negative numeral wraps around. */
  lemma NegativeNumeral(db: Db, v: nat)
    requires 1 <= v <= 0x1_0000_0000 && |Decimal(v)| < 35
    ensures VendorOf(db, "-" + Decimal(v)).Some?
    ensures Named(db.short, 0x1_0000_0000 - v, VendorOf(db, "-" + Decimal(v)).value)
  {
    hide VendorOf, Decimal, Named, StrToL;
    StrToLOfSigned(v, "", "");
    assert "" + "-" + Decimal(v) + "" == "-" + Decimal(v);
    NumeralText(db, -(v as int), "-" + Decimal(v));
  }

  /**
   What has no name: a numeral with anything behind it that does not belong to it, a short text that does
   not begin with a digit, a sign or a blank, and a text that is longer than a UUID.
   */
  lemma NoName(db: Db, v: nat, rest: string, text: string)
    requires rest != "" && DigitValue(rest[0]) >= 10 && 0 < v <= LONG_MAX
    ensures |Decimal(v) + rest| < 36 ==> VendorOf(db, Decimal(v) + rest) == None
    ensures 0 < |text| < 36 && !IsSpace(text[0]) && text[0] !in {'-', '+'} && DigitValue(text[0]) >= 10 ==>
              VendorOf(db, text) == None
    ensures |text| > 36 ==> VendorOf(db, text) == None
  {
    hide StrToL, Name32, Name16, NameOfBase, Decimal, DigitValue, RowOf;
    StrToLOfSigned(v, "", rest);
    assert "" + Decimal(v) + rest == Decimal(v) + rest;
    if 0 < |text| && !IsSpace(text[0]) && text[0] !in {'-', '+'} && DigitValue(text[0]) >= 10 {
      StrToLOfNone(text);
    }
  }

  lemma {:induction false} DecimalIsShort(v: nat, n: nat, bound: nat)
    requires v < bound && bound == TenTo(n) && n >= 1
    ensures |Decimal(v)| <= n
    decreases n
  {
    if v >= 10 {
      assert n > 1 by { assert TenTo(1) == 10 * TenTo(0); }
      DecimalIsShort(v / 10, n - 1, TenTo(n - 1));
    }
  }

  function TenTo(n: nat): nat { if n == 0 then 1 else 10 * TenTo(n - 1) }

  lemma TenDigits(v: nat)
    requires v < 0x1_0000_0000
    ensures |Decimal(v)| <= 10
  {
    assert TenTo(10) == 10_000_000_000 by {
      assert TenTo(10) == 10 * TenTo(9) && TenTo(9) == 10 * TenTo(8) && TenTo(8) == 10 * TenTo(7)
             && TenTo(7) == 10 * TenTo(6)
             && TenTo(6) == 10 * TenTo(5) && TenTo(5) == 10 * TenTo(4) && TenTo(4) == 10 * TenTo(3)
             && TenTo(3) == 10 * TenTo(2)
          && TenTo(2) == 10 * TenTo(1) && TenTo(1) == 10 * TenTo(0);
    }
    DecimalIsShort(v, 10, 10_000_000_000);
  }

  lemma FoldsItself(t: string)
    ensures SameFolded(t, t)
  {
  }

  /**
   For every 32-bit value the raw Base UUID that carries it, its text in any letter case, its
   decimal numeral and its hexadecimal numerals, with as many leading zeros as one likes and in any
   letter case, all have one name, as long as they are shorter than a UUID text: that of the first row for
   the value, and the default if there is none or the value has more than 16 bits.
   */
  lemma AllFormsHaveOneName(db: Db, host: Host, v: nat, text: string, n: nat, digits: string)
    requires NoBaseRow(db) && v < 0x1_0000_0000 && 1 <= n <= 33 && v < Power16(n)
    requires SameFolded(FormattedUuid(host, BaseUuid(v)), text) && SameFolded(HexDigits(v, n), digits)
    ensures var name := NameOfBytes(host, db, BaseUuid(v));
            && name.Some? && Named(db.short, v, name.value)
            && VendorOf(db, text) == VendorOf(db, Decimal(v)) == VendorOf(db, "0x" + digits) == name
            && VendorOf(db, UuidText(Reverse(BaseUuid(v)), UPPER)) == name
  {
    var t := FormattedUuid(host, BaseUuid(v));
    PowersAgree();
    ValueFits(v);
    FormattedIsReversed(host, BaseUuid(v));
    CasesFold(Reverse(BaseUuid(v)));
    hide VendorOf, StrToL, Name32, FormattedUuid, HexDigits, Decimal, Power16, NoBaseRow, Named, UuidText, SameFolded,
         BaseUuid, Reverse;
    var upper := UuidText(Reverse(BaseUuid(v)), UPPER);
    NameOfBaseText(db, host, v, upper);
    FoldsItself(t);
    NameOfBaseText(db, host, v, t);
    NameOfBaseText(db, host, v, text);
    TenDigits(v);
    StrToLOfDecimal(v);
    NumeralText(db, v, Decimal(v));
    StrToLOfHex(v, n, digits);
    NumeralText(db, v, "0x" + digits);
    var name := VendorOf(db, t).value;
    NamedOnce(db.short, v, name, VendorOf(db, text).value);
    NamedOnce(db.short, v, name, VendorOf(db, upper).value);
    NamedOnce(db.short, v, name, VendorOf(db, Decimal(v)).value);
    NamedOnce(db.short, v, name, VendorOf(db, "0x" + digits).value);
  }

  lemma ValueOfFour(b: seq<byte>)
    requires |b| == 16
    ensures LeValue(b[12..]) < 0x1_0000_0000
  {
    PowersAgree();
    hide Power, Power16;
  }

  /**
   uuid2str128 has a name for all 128-bit UUIDs: that of the first row whose text it is, what the table of
   short UUIDs makes of its value if its text ends like a Base UUID, and the vendor's otherwise.
   */
  lemma EveryUuidHasName(host: Host, db: Db, b: seq<byte>)
    requires |b| == 16
    ensures var text := FormattedUuid(host, b);
            var k := RowOf(db.long, text);
            var name := NameOfBytes(host, db, b);
            && name.Some?
            && if k < |db.long| then name.value == db.long[k].name
               else if !SameFolded(text[8..], BASE_SUFFIX) then name.value == VENDOR
               else Named(db.short, LeValue(b[12..]), name.value)
  {
    hide FormattedUuid, HexDigits, LeValue, NameOfNumeral, Name32, HexNumber, Power, Power16, Named;
    ValueOfFour(b);
    Name32IsNamed(db.short, LeValue(b[12..]));
    var text := FormattedUuid(host, b);
    FormattedHead(host, b);
    PowersAgree();
    NumberOfHexDigits(LeValue(b[12..]), 8);
    assert forall i :: 0 <= i < 8 ==> text[i] == text[..8][i];
  }
}
