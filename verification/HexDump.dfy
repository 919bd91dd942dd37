/** util_hexdump: sixteen bytes a line, in one buffer that is filled again for every line. */
module HexDump {
  import opened Codec
  import opened HexText

  const PER_LINE: nat := 16
  const LINE_LENGTH: nat := 67

  /** isprint, which depends on the locale. */
  type Printable = byte -> bool

  function Shown(b: byte, printable: Printable): char {
    if printable(b) then b as char else '.'
  }

  /** hexdigits. */
  function Digit(v: nibble): char {
    LOWER[v]
  }

  lemma DigitReads(v: nibble)
    ensures IsHex(Digit(v)) && HexValue(Digit(v)) == v && Digit(v) != ' '
  {
    DigitOf(v);
  }

  /** The character at place p of the line for a chunk of at most sixteen bytes. */
  function LineChar(head: char, chunk: seq<byte>, printable: Printable, p: nat): char {
    if p == 0 then head
    else if p < 49 then
      var i, column := (p - 1) / 3, (p - 1) % 3;
      if i >= |chunk| || column == 0 then ' '
      else if column == 1 then Digit(chunk[i] / 16)
      else Digit(chunk[i] % 16)
    else if p < 51 then ' '
    else if p - 51 < |chunk| then Shown(chunk[p - 51], printable)
    else ' '
  }

  function Line(head: char, chunk: seq<byte>, printable: Printable): (s: string)
    ensures |s| == LINE_LENGTH
  {
    seq(LINE_LENGTH, p requires 0 <= p < LINE_LENGTH => LineChar(head, chunk, printable, p))
  }

  /** The lines of a buffer, the first of which begins with the direction and the others with a blank. */
  function Dump(head: char, buf: seq<byte>, printable: Printable): (lines: seq<string>)
    ensures |lines| == (|buf| + PER_LINE - 1) / PER_LINE
    ensures forall k :: 0 <= k < |lines| ==> |lines[k]| == LINE_LENGTH
    decreases |buf|
  {
    if |buf| == 0 then []
    else if |buf| <= PER_LINE then [Line(head, buf, printable)]
    else [Line(head, buf[..PER_LINE], printable)] + Dump(' ', buf[PER_LINE..], printable)
  }

  // ------------------------------------------------------------ reading a dump back

  /** The bytes in the hexadecimal columns of a line from column i on, up to the first blank one. */
  function LineBytes(line: string, i: nat): seq<byte>
    requires |line| == LINE_LENGTH && i <= PER_LINE
    decreases PER_LINE - i
  {
    if i == PER_LINE || !IsHex(line[3 * i + 2]) || !IsHex(line[3 * i + 3]) then []
    else [16 * (HexValue(line[3 * i + 2]) as int) + HexValue(line[3 * i + 3])] + LineBytes(line, i + 1)
  }

  function DumpBytes(lines: seq<string>): seq<byte>
    requires forall k :: 0 <= k < |lines| ==> |lines[k]| == LINE_LENGTH
  {
    if lines == [] then [] else LineBytes(lines[0], 0) + DumpBytes(lines[1..])
  }

  lemma Columns(i: nat)
    ensures (3 * i + 1 - 1) / 3 == i && (3 * i + 1 - 1) % 3 == 0
    ensures (3 * i + 2 - 1) / 3 == i && (3 * i + 2 - 1) % 3 == 1
    ensures (3 * i + 3 - 1) / 3 == i && (3 * i + 3 - 1) % 3 == 2
  {
  }

  lemma ColumnOf(head: char, chunk: seq<byte>, printable: Printable, i: nat)
    requires i < PER_LINE
    ensures var line := Line(head, chunk, printable);
            if i < |chunk| then
              && IsHex(line[3 * i + 2]) && HexValue(line[3 * i + 2]) == chunk[i] / 16
              && IsHex(line[3 * i + 3]) && HexValue(line[3 * i + 3]) == chunk[i] % 16
            else line[3 * i + 2] == ' '
  {
    hide Digit, HexValue, IsHex;
    Columns(i);
    if i < |chunk| {
      DigitReads(chunk[i] / 16);
      DigitReads(chunk[i] % 16);
    }
  }

  lemma {:induction false} LineBytesOfLine(head: char, chunk: seq<byte>, printable: Printable, i: nat)
    requires i <= |chunk| <= PER_LINE
    ensures LineBytes(Line(head, chunk, printable), i) == chunk[i..]
    decreases PER_LINE - i
  {
    hide Line;
    if i < PER_LINE {
      ColumnOf(head, chunk, printable, i);
      if i < |chunk| {
        LineBytesOfLine(head, chunk, printable, i + 1);
      }
    }
  }

  /** The hexadecimal columns of the dump of a buffer of any length give the buffer back. */
  lemma {:induction false} DumpReadsBack(head: char, buf: seq<byte>, printable: Printable)
    ensures DumpBytes(Dump(head, buf, printable)) == buf
    decreases |buf|
  {
    hide Line, LineBytes;
    if |buf| > PER_LINE {
      LineBytesOfLine(head, buf[..PER_LINE], printable, 0);
      DumpReadsBack(' ', buf[PER_LINE..], printable);
      assert Dump(head, buf, printable)[1..] == Dump(' ', buf[PER_LINE..], printable);
      assert buf[..PER_LINE][0..] + buf[PER_LINE..] == buf;
    } else if |buf| > 0 {
      LineBytesOfLine(head, buf, printable, 0);
      assert Dump(head, buf, printable)[1..] == [];
      assert DumpBytes([]) == [];
      assert buf[0..] + [] == buf;
    }
  }

  /**
   Every place of every line: the first line names the direction; each column has a blank and the two
   digits of its byte, and two blanks go before the text, where each byte is itself if it can be printed
   and otherwise a dot; what the last line has no bytes for is blank.
   */
  lemma LineLayout(head: char, buf: seq<byte>, printable: Printable, k: nat, i: nat)
    requires k < (|buf| + PER_LINE - 1) / PER_LINE && i < PER_LINE
    ensures var line := Dump(head, buf, printable)[k];
            && line[0] == (if k == 0 then head else ' ')
            && line[3 * i + 1] == ' ' && line[49] == ' ' && line[50] == ' '
            && if 16 * k + i < |buf| then
                 var b := buf[16 * k + i];
                 && line[3 * i + 2] == "0123456789abcdef"[b / 16] && line[3 * i + 3] == "0123456789abcdef"[b % 16]
                 && line[51 + i] == if printable(b) then b as char else '.'
               else line[3 * i + 2] == ' ' && line[3 * i + 3] == ' ' && line[51 + i] == ' '
    decreases k
  {
    if k > 0 {
      LineLayout(' ', buf[PER_LINE..], printable, k - 1, i);
    }
  }

  // ------------------------------------------------------------ the one buffer

  lemma {:induction false} OneMoreLine(head: char, done: seq<byte>, chunk: seq<byte>, printable: Printable)
    requires |done| % PER_LINE == 0 && 0 < |chunk| <= PER_LINE
    ensures Dump(head, done + chunk, printable)
         == Dump(head, done, printable) + [Line(if done == [] then head else ' ', chunk, printable)]
    decreases |done|
  {
    hide Line;
    if done == [] {
      assert done + chunk == chunk;
      assert Dump(head, done, printable) == [];
    } else {
      var rest := done[PER_LINE..];
      OneMoreLine(' ', rest, chunk, printable);
      assert (done + chunk)[PER_LINE..] == rest + chunk && (done + chunk)[..PER_LINE] == done[..PER_LINE];
      if rest == [] {
        assert done[..PER_LINE] == done;
        assert Dump(' ', rest, printable) == [];
      }
    }
  }

  ghost predicate ColumnFilled(str: seq<char>, i: nat, b: byte, printable: Printable)
    requires |str| == 68 && i < PER_LINE
  {
    && str[3 * i + 1] == ' ' && str[3 * i + 2] == Digit(b / 16) && str[3 * i + 3] == Digit(b % 16)
    && str[i + 51] == Shown(b, printable)
  }

  ghost predicate ColumnBlank(str: seq<char>, i: nat)
    requires |str| == 68 && i < PER_LINE
  {
    str[3 * i + 1] == ' ' && str[3 * i + 2] == ' ' && str[3 * i + 3] == ' ' && str[i + 51] == ' '
  }

  /** The buffer begins with the head and holds the columns of the first n bytes of the chunk. */
  ghost predicate Filled(str: seq<char>, head: char, chunk: seq<byte>, n: nat, printable: Printable)
    requires |str| == 68
  {
    && n <= |chunk| && n <= PER_LINE
    && str[0] == head
    && forall i :: 0 <= i < n ==> ColumnFilled(str, i, chunk[i], printable)
  }

  /** The columns from n on are blank. */
  ghost predicate Blank(str: seq<char>, n: nat)
    requires |str| == 68
  {
    forall i :: n <= i < PER_LINE ==> ColumnBlank(str, i)
  }

  lemma FilledIsLine(str: seq<char>, head: char, chunk: seq<byte>, printable: Printable)
    requires |str| == 68 && |chunk| <= PER_LINE && Filled(str, head, chunk, |chunk|, printable) && Blank(str, |chunk|)
    requires str[49] == ' ' && str[50] == ' '
    ensures str[..67] == Line(head, chunk, printable)
  {
    hide Digit, Shown;
    forall p | 0 <= p < 67 ensures str[p] == LineChar(head, chunk, printable, p) {
      if 1 <= p < 49 {
        var i := (p - 1) / 3;
        assert p == 3 * i + 1 || p == 3 * i + 2 || p == 3 * i + 3;
        Columns(i);
        assert if i < |chunk| then ColumnFilled(str, i, chunk[i], printable) else ColumnBlank(str, i);
      } else if p >= 51 {
        var i := p - 51;
        assert if i < |chunk| then ColumnFilled(str, i, chunk[i], printable) else ColumnBlank(str, i);
      }
    }
  }

  /** The stores for one byte, in column n. */
  method PutByte(str: array<char>, n: nat, b: byte, printable: Printable, ghost head: char, ghost chunk: seq<byte>)
    requires str.Length == 68 && n < PER_LINE && n < |chunk| && chunk[n] == b
    requires Filled(str[..], head, chunk, n, printable)
    modifies str
    ensures Filled(str[..], head, chunk, n + 1, printable)
  {
    hide Digit, Shown;
    ghost var before := str[..];
    str[n * 3 + 1] := ' ';
    str[n * 3 + 2] := Digit(b / 16);
    str[n * 3 + 3] := Digit(b % 16);
    str[n + 51] := Shown(b, printable);
    assert ColumnFilled(str[..], n, b, printable);
    forall i | 0 <= i < n ensures ColumnFilled(str[..], i, chunk[i], printable) {
      assert ColumnFilled(before, i, chunk[i], printable);
    }
  }

  /** The loop that blanks the columns of a short last line. */
  method BlankRest(str: array<char>, n: nat, ghost head: char, ghost chunk: seq<byte>, ghost printable: Printable)
    requires str.Length == 68 && n <= PER_LINE && Filled(str[..], head, chunk, n, printable)
    modifies str
    ensures Filled(str[..], head, chunk, n, printable) && Blank(str[..], n)
  {
    hide Digit, Shown;
    var j := n;
    while j < 16
      invariant n <= j <= 16 && Filled(str[..], head, chunk, n, printable)
      invariant forall i :: n <= i < j ==> ColumnBlank(str[..], i)
    {
      ghost var before := str[..];
      str[j * 3 + 1] := ' ';
      str[j * 3 + 2] := ' ';
      str[j * 3 + 3] := ' ';
      str[j + 51] := ' ';
      assert ColumnBlank(str[..], j);
      forall i | n <= i < j ensures ColumnBlank(str[..], i) {
        assert ColumnBlank(before, i);
      }
      forall i | 0 <= i < n ensures ColumnFilled(str[..], i, chunk[i], printable) {
        assert ColumnFilled(before, i, chunk[i], printable);
      }
      j := j + 1;
    }
  }

  /** The stores that end a line, after which the debug function is called with it. */
  method EndLine(str: array<char>, lines: seq<string>, ghost head: char, ghost buf: seq<byte>, ghost start: nat,
                 ghost stop: nat, ghost printable: Printable) returns (more: seq<string>)
    requires str.Length == 68
    requires start % PER_LINE == 0 && start < stop <= |buf| && stop - start <= PER_LINE
    requires Filled(str[..], if start == 0 then head else ' ', buf[start..], stop - start, printable)
             && Blank(str[..], stop - start)
    requires lines == Dump(head, buf[..start], printable)
    modifies str
    ensures more == Dump(head, buf[..stop], printable)
  {
    hide Digit, Shown, Line, Dump;
    ghost var first, chunk := if start == 0 then head else ' ', buf[start..stop];
    ghost var before := str[..];
    str[49] := ' ';
    str[50] := ' ';
    str[67] := '\0';
    forall i | 0 <= i < |chunk| ensures ColumnFilled(str[..], i, chunk[i], printable) {
      assert ColumnFilled(before, i, buf[start..][i], printable);
    }
    forall i | |chunk| <= i < PER_LINE ensures ColumnBlank(str[..], i) {
      assert ColumnBlank(before, i);
    }
    FilledIsLine(str[..], first, chunk, printable);
    assert str[..][..67] == str[..67];
    NextLine(head, buf, start, stop, printable);
    more := lines + [str[..67]];
  }

  /** util_hexdump; the lines are what the debug function is called with. */
  method HexDump(dir: char, buf: seq<byte>, printable: Printable, hasFunction: bool) returns (lines: seq<string>)
    ensures lines == if hasFunction then Dump(dir, buf, printable) else []
  {
    hide Dump, Filled, Blank;
    lines := [];
    DumpNothing(dir, buf, printable);
    if !hasFunction || |buf| == 0 {
      return;
    }
    var str := new char[68];
    str[0] := dir;
    var i := 0;
    ghost var start := 0;
    StartLine(str[..], dir, buf[start..], printable);
    while i < |buf|
      invariant i <= |buf| && start <= i < start + 16 && start % 16 == 0
      invariant lines == Dump(dir, buf[..start], printable)
      invariant Filled(str[..], if start == 0 then dir else ' ', buf[start..], i - start, printable)
    {
      Column(start, i - start);
      PutByte(str, i % 16, buf[i], printable, if start == 0 then dir else ' ', buf[start..]);
      if (i + 1) % 16 == 0 {
        FullIsBlank(str[..]);
        lines := EndLine(str, lines, dir, buf, start, i + 1, printable);
        str[0] := ' ';
        start := i + 1;
        StartLine(str[..], ' ', buf[start..], printable);
      }
      i := i + 1;
    }
    Column(start, i - start);
    if i % 16 > 0 {
      BlankRest(str, i % 16, if start == 0 then dir else ' ', buf[start..], printable);
      lines := EndLine(str, lines, dir, buf, start, i, printable);
    }
    assert buf[..i] == buf;
  }

  lemma Column(start: nat, n: nat)
    requires start % PER_LINE == 0 && n < PER_LINE
    ensures (start + n) % PER_LINE == n && ((start + n + 1) % PER_LINE == 0 <==> n + 1 == PER_LINE)
  {
  }

  lemma NextLine(head: char, buf: seq<byte>, start: nat, stop: nat, printable: Printable)
    requires start % PER_LINE == 0 && start < stop <= |buf| && stop - start <= PER_LINE
    ensures Dump(head, buf[..stop], printable)
         == Dump(head, buf[..start], printable) + [Line(if start == 0 then head else ' ', buf[start..stop], printable)]
  {
    hide Dump, Line;
    OneMoreLine(head, buf[..start], buf[start..stop], printable);
    assert buf[..start] + buf[start..stop] == buf[..stop];
  }

  lemma DumpNothing(head: char, buf: seq<byte>, printable: Printable)
    ensures Dump(head, buf[..0], printable) == []
    ensures |buf| == 0 ==> Dump(head, buf, printable) == []
  {
  }

  lemma StartLine(str: seq<char>, head: char, chunk: seq<byte>, printable: Printable)
    requires |str| == 68 && str[0] == head
    ensures Filled(str, head, chunk, 0, printable)
  {
  }

  lemma FullIsBlank(str: seq<char>)
    requires |str| == 68
    ensures Blank(str, PER_LINE)
  {
  }
}
