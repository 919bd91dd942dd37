/** The byte-order readers and writers of utility.c, on hosts of either byte order. */
module Codec {

  type byte = x: int | 0 <= x < 256

  datatype Host = LittleEndian | BigEndian

  /** 256 to the power n. */
  function Power(n: nat): (r: nat)
    ensures r >= 1
  {
    if n == 0 then 1 else 256 * Power(n - 1)
  }

  /** The value of bytes with the least significant one first: the sum of s[i] * 256^i. */
  function LeValue(s: seq<byte>): (v: nat)
    ensures v < Power(|s|)
  {
    if |s| == 0 then 0 else s[0] + 256 * LeValue(s[1..])
  }

  /** The n lowest bytes of a value, least significant first. */
  function LeBytes(v: nat, n: nat): (s: seq<byte>)
    ensures |s| == n
  {
    if n == 0 then [] else [v % 256] + LeBytes(v / 256, n - 1)
  }

  function Reverse<T>(s: seq<T>): (r: seq<T>)
    ensures |r| == |s|
  {
    if |s| == 0 then [] else Reverse(s[1..]) + [s[0]]
  }

  lemma {:induction false} ReverseAt<T>(s: seq<T>)
    ensures forall k :: 0 <= k < |s| ==> Reverse(s)[k] == s[|s| - 1 - k]
  {
    if |s| > 0 { ReverseAt(s[1..]); }
  }

  function BeValue(s: seq<byte>): nat {
    LeValue(Reverse(s))
  }

  lemma ReverseTwice<T>(s: seq<T>)
    ensures Reverse(Reverse(s)) == s
  {
    hide Reverse;
    ReverseAt(s);
    ReverseAt(Reverse(s));
  }

  lemma {:induction false} ValueOfBytes(v: nat, n: nat)
    ensures LeValue(LeBytes(v, n)) == v % Power(n)
    decreases n
  {
    if n > 0 {
      ValueOfBytes(v / 256, n - 1);
      assert LeBytes(v, n)[1..] == LeBytes(v / 256, n - 1);
      DivModPower(v, Power(n - 1));
    }
  }

  lemma DivModPower(v: nat, m: nat)
    requires m >= 1
    ensures v % 256 + 256 * ((v / 256) % m) == v % (256 * m)
  {
    var q, r := v / 256, v % 256;
    var a, b := q / m, q % m;
    assert v == 256 * q + r && q == m * a + b;
    assert v == (256 * m) * a + (256 * b + r) by { assert 256 * (m * a) == (256 * m) * a; }
    ModUnique(v, 256 * m, a, 256 * b + r);
  }

  lemma ModUnique(v: nat, m: nat, a: nat, r: nat)
    requires v == m * a + r && r < m
    ensures v % m == r && v / m == a
  {
    var q, t := v / m, v % m;
    assert v == m * q + t;
    if q < a { NextMultiple(m, q, a); }
    if a < q { NextMultiple(m, a, q); }
  }

  lemma {:induction false} NextMultiple(m: nat, a: nat, b: nat)
    requires a < b
    ensures m * a + m <= m * b
    decreases b
  {
    assert m * b == m * (b - 1) + m;
    if a < b - 1 { NextMultiple(m, a, b - 1); }
  }

  lemma {:induction false} BytesOfValue(s: seq<byte>)
    ensures LeBytes(LeValue(s), |s|) == s
  {
    if |s| > 0 {
      BytesOfValue(s[1..]);
      assert LeValue(s) % 256 == s[0] && LeValue(s) / 256 == LeValue(s[1..]);
    }
  }

  // ------------------------------------------------------------ what the host does

  /** Reading an unsigned integer of |s| bytes from memory. */
  function Load(host: Host, s: seq<byte>): nat {
    match host case LittleEndian => LeValue(s) case BigEndian => BeValue(s)
  }

  /** The bytes in memory of an unsigned integer of n bytes. */
  function Store(host: Host, v: nat, n: nat): (s: seq<byte>)
    ensures |s| == n
  {
    match host case LittleEndian => LeBytes(v, n) case BigEndian => Reverse(LeBytes(v, n))
  }

  /** bswap_16, bswap_32 and bswap_64: an integer of n bytes with its bytes in the opposite order. */
  function Swap(v: nat, n: nat): nat {
    LeValue(Reverse(LeBytes(v, n)))
  }

  /** leN_to_cpu and cpu_to_leN. */
  function LeCpu(host: Host, v: nat, n: nat): nat {
    match host case LittleEndian => v case BigEndian => Swap(v, n)
  }

  /** beN_to_cpu and cpu_to_beN. */
  function BeCpu(host: Host, v: nat, n: nat): nat {
    match host case LittleEndian => Swap(v, n) case BigEndian => v
  }

  /** get_le16, get_le32 and get_le64, by the number of bytes. */
  function GetLe(host: Host, s: seq<byte>): nat {
    LeCpu(host, Load(host, s), |s|)
  }

  /** get_be16, get_be32 and get_be64, by the number of bytes. */
  function GetBe(host: Host, s: seq<byte>): nat {
    BeCpu(host, Load(host, s), |s|)
  }

  function GetLe24(host: Host, s: seq<byte>): nat
    requires |s| == 3
  {
    s[2] * 65536 + GetLe(host, s[..2])
  }

  function GetBe24(host: Host, s: seq<byte>): nat
    requires |s| == 3
  {
    s[0] * 65536 + GetBe(host, s[1..])
  }

  /** On either host a reader gives the positional value of the bytes in the order it is named after. */
  lemma GetIsPositional(host: Host, s: seq<byte>)
    ensures GetLe(host, s) == LeValue(s) && GetBe(host, s) == BeValue(s)
  {
    SwapOfLoad(s);
  }

  lemma Get24IsPositional(host: Host, s: seq<byte>)
    requires |s| == 3
    ensures GetLe24(host, s) == LeValue(s) && GetBe24(host, s) == BeValue(s)
  {
    hide GetLe, GetBe, LeValue;
    GetIsPositional(host, s[..2]);
    GetIsPositional(host, s[1..]);
    ThreeBytes(s);
    ThreeBytes(Reverse(s));
    TwoBytes(s[..2]);
    TwoBytes(Reverse(s[1..]));
  }

  lemma SwapOfLoad(s: seq<byte>)
    ensures Swap(BeValue(s), |s|) == LeValue(s) && Swap(LeValue(s), |s|) == BeValue(s)
  {
    BytesOfValue(s);
    BytesOfValue(Reverse(s));
    ReverseTwice(s);
  }

  lemma TwoBytes(s: seq<byte>)
    requires |s| == 2
    ensures LeValue(s) == s[0] as int + 256 * (s[1] as int)
  {
    assert LeValue(s[1..]) == s[1] + 256 * LeValue(s[1..][1..]);
  }

  lemma ThreeBytes(s: seq<byte>)
    requires |s| == 3
    ensures LeValue(s) == s[0] as int + 256 * (s[1] as int) + 65536 * (s[2] as int)
  {
    TwoBytes(s[1..]);
  }

  // ------------------------------------------------------------ the writers

  /** The bytes put_le16, put_le32 and put_le64 store. */
  function PutLe(host: Host, v: nat, n: nat): (s: seq<byte>)
    ensures |s| == n
  {
    Store(host, LeCpu(host, v % Power(n), n), n)
  }

  /** The bytes put_be16, put_be32 and put_be64 store. */
  function PutBe(host: Host, v: nat, n: nat): (s: seq<byte>)
    ensures |s| == n
  {
    Store(host, BeCpu(host, v % Power(n), n), n)
  }

  lemma {:induction false} BytesOfMod(v: nat, n: nat)
    ensures LeBytes(v % Power(n), n) == LeBytes(v, n)
  {
    ValueOfBytes(v, n);
    BytesOfValue(LeBytes(v, n));
  }

  /** On either host a writer stores the lowest n bytes in the order it is named after. */
  lemma PutIsPositional(host: Host, v: nat, n: nat)
    ensures PutLe(host, v, n) == LeBytes(v, n) && PutBe(host, v, n) == Reverse(LeBytes(v, n))
  {
    var s := LeBytes(v, n);
    BytesOfMod(v, n);
    ValueOfBytes(v, n);
    BytesOfValue(Reverse(s));
    ReverseTwice(s);
  }

  /** Reading back what was written gives the value modulo 2^N, whatever the hosts. */
  lemma GetAfterPut(writer: Host, reader: Host, v: nat, n: nat)
    ensures GetLe(reader, PutLe(writer, v, n)) == v % Power(n)
    ensures GetBe(reader, PutBe(writer, v, n)) == v % Power(n)
  {
    PutIsPositional(writer, v, n);
    GetIsPositional(reader, PutLe(writer, v, n));
    GetIsPositional(reader, PutBe(writer, v, n));
    ValueOfBytes(v, n);
    ReverseTwice(LeBytes(v, n));
  }

  /** put_unaligned: the bytes are stored from `at` on. */
  method PutUnaligned(a: array<byte>, at: nat, s: seq<byte>)
    requires at + |s| <= a.Length
    modifies a
    ensures a[..] == old(a[..at]) + s + old(a[at + |s|..])
  {
    var i := 0;
    while i < |s|
      invariant i <= |s|
      invariant a[..] == old(a[..at]) + s[..i] + old(a[at + i..])
    {
      a[at + i] := s[i];
      i := i + 1;
    }
  }

  /** put_le16, put_le32 and put_le64, by the number of bytes: the neighbouring bytes stay. */
  method WriteLe(a: array<byte>, at: nat, v: nat, n: nat, host: Host)
    requires at + n <= a.Length
    modifies a
    ensures a[..] == old(a[..at]) + LeBytes(v, n) + old(a[at + n..])
    ensures GetLe(LittleEndian, a[at..at + n]) == GetLe(BigEndian, a[at..at + n]) == v % Power(n)
  {
    PutIsPositional(host, v, n);
    PutUnaligned(a, at, PutLe(host, v, n));
    assert a[at..at + n] == a[..][at..at + n] == PutLe(host, v, n);
    GetAfterPut(host, LittleEndian, v, n);
    GetAfterPut(host, BigEndian, v, n);
  }

  /** put_be16, put_be32 and put_be64, by the number of bytes: the neighbouring bytes stay. */
  method WriteBe(a: array<byte>, at: nat, v: nat, n: nat, host: Host)
    requires at + n <= a.Length
    modifies a
    ensures a[..] == old(a[..at]) + Reverse(LeBytes(v, n)) + old(a[at + n..])
    ensures GetBe(LittleEndian, a[at..at + n]) == GetBe(BigEndian, a[at..at + n]) == v % Power(n)
  {
    PutIsPositional(host, v, n);
    PutUnaligned(a, at, PutBe(host, v, n));
    assert a[at..at + n] == a[..][at..at + n] == PutBe(host, v, n);
    GetAfterPut(host, LittleEndian, v, n);
    GetAfterPut(host, BigEndian, v, n);
  }

  /** put_le24: the lowest three bytes, least significant first. */
  method PutLe24(a: array<byte>, at: nat, v: nat, host: Host)
    requires at + 3 <= a.Length
    modifies a
    ensures a[..] == old(a[..at]) + LeBytes(v, 3) + old(a[at + 3..])
  {
    WriteLe(a, at, v, 2, host);
    assert a[..at + 2] == a[..][..at + 2] == old(a[..at]) + LeBytes(v, 2);
    assert a[at + 3..] == a[..][at + 3..] == old(a[at + 3..]);
    PutUnaligned(a, at + 2, [(v / 65536) % 256]);
    LowThreeBytes(v);
    assert a[..] == old(a[..at]) + LeBytes(v, 2) + [(v / 65536) % 256] + old(a[at + 3..]);
  }

  /** put_be24 as it is written: the highest byte goes to offset 2 and is overwritten at once. */
  method PutBe24(a: array<byte>, at: nat, v: nat, host: Host)
    requires at + 3 <= a.Length
    modifies a
    ensures a[..] == old(a[..at]) + PutBe24Bytes(old(a[at]), v) + old(a[at + 3..])
  {
    hide Reverse, LeBytes, GetBe, Power;
    LowTwoOfThree(v);
    PutUnaligned(a, at + 2, [(v / 65536) % 256]);
    assert a[..at + 1] == a[..][..at + 1] == old(a[..at]) + [old(a[at])];
    assert a[at + 3..] == a[..][at + 3..] == old(a[at + 3..]);
    WriteBe(a, at + 1, v, 2, host);
    assert a[..] == old(a[..at]) + [old(a[at])] + Reverse(LeBytes(v, 2)) + old(a[at + 3..]);
  }

  lemma LowTwoOfThree(v: nat)
    ensures Reverse(LeBytes(v, 2)) == Reverse(LeBytes(v, 3))[1..]
  {
    LowThreeBytes(v);
  }

  lemma LowThreeBytes(v: nat)
    ensures LeBytes(v, 3) == LeBytes(v, 2) + [(v / 65536) % 256]
  {
    assert LeBytes(v, 3) == [v % 256] + LeBytes(v / 256, 2);
    assert LeBytes(v / 256, 2) == [(v / 256) % 256] + LeBytes(v / 256 / 256, 1);
    assert LeBytes(v, 2) == [v % 256] + LeBytes(v / 256, 1);
    assert v / 256 / 256 == v / 65536;
  }

  /** The three bytes put_be24 leaves behind where the first one was `first`. */
  function PutBe24Bytes(first: byte, v: nat): (s: seq<byte>)
    ensures |s| == 3
  {
    [first] + Reverse(LeBytes(v, 3))[1..]
  }

  /**
   get_be24 reads back what put_be24 was given, modulo 2^24, if and only if the first byte happened
   to hold the highest byte of the value before.
   */
  lemma GetAfterPutBe24Iff(host: Host, first: byte, v: nat)
    ensures GetBe24(host, PutBe24Bytes(first, v)) == v % Power(3) <==> first == (v / 65536) % 256
    ensures GetLe24(host, LeBytes(v, 3)) == v % Power(3)
  {
    var s, t := LeBytes(v, 3), PutBe24Bytes(first, v);
    Get24IsPositional(host, t);
    Get24IsPositional(host, s);
    ValueOfBytes(v, 3);
    LowThreeBytes(v);
    ThreeBytes(s);
    ReverseAt(t);
    ReverseAt(s);
    assert Reverse(t) == [s[0], s[1], first];
    ThreeBytes(Reverse(t));
  }
}
