/** strdelimit: every character of a string that is one of the delimiters is replaced, in place, in a copy. */
module Delimit {

  const NUL := '\0'

  /** A C string's characters. */
  predicate IsText(s: string) {
    NUL !in s
  }

  // ------------------------------------------------------------ what one delimiter does

  /** One delimiter is replaced everywhere; the terminator as replacement ends the string at its first place. */
  function Replaced(s: string, d: char, c: char): (r: string)
    ensures c != NUL ==> |r| == |s|
  {
    if s == "" then ""
    else if s[0] != d then [s[0]] + Replaced(s[1..], d, c)
    else if c == NUL then ""
    else [c] + Replaced(s[1..], d, c)
  }

  function AllReplaced(s: string, del: string, c: char): (r: string)
    ensures c != NUL ==> |r| == |s|
    decreases |del|
  {
    if del == "" then s else AllReplaced(Replaced(s, del[0], c), del[1..], c)
  }

  lemma {:induction false} ReplacedAt(s: string, d: char, c: char, i: nat)
    requires c != NUL && i < |s|
    ensures Replaced(s, d, c)[i] == if s[i] == d then c else s[i]
  {
    if i > 0 { ReplacedAt(s[1..], d, c, i - 1); }
  }

  /** Exactly the characters that are delimiters are replaced, also if the replacement is a delimiter itself. */
  lemma {:induction false} AllReplacedAt(s: string, del: string, c: char, i: nat)
    requires c != NUL && i < |s|
    ensures AllReplaced(s, del, c)[i] == if s[i] in del then c else s[i]
    decreases |del|
  {
    if del != "" {
      ReplacedAt(s, del[0], c, i);
      AllReplacedAt(Replaced(s, del[0], c), del[1..], c, i);
    }
  }

  /** The characters before the first delimiter. */
  function Cut(s: string, del: string): string {
    if s == "" || s[0] in del then "" else [s[0]] + Cut(s[1..], del)
  }

  lemma {:induction false} CutTwice(s: string, d: char, del: string)
    ensures Cut(Replaced(s, d, NUL), del) == Cut(s, [d] + del)
  {
    if s != "" && s[0] != d {
      CutTwice(s[1..], d, del);
      assert Replaced(s, d, NUL)[1..] == Replaced(s[1..], d, NUL);
    }
  }

  /** With the terminator as replacement the string ends before its first delimiter. */
  lemma {:induction false} AllReplacedCuts(s: string, del: string)
    ensures AllReplaced(s, del, NUL) == Cut(s, del)
    decreases |del|
  {
    if del == "" {
      CutNothing(s);
    } else {
      AllReplacedCuts(Replaced(s, del[0], NUL), del[1..]);
      CutTwice(s, del[0], del[1..]);
      assert [del[0]] + del[1..] == del;
    }
  }

  lemma {:induction false} CutNothing(s: string)
    ensures Cut(s, "") == s
  {
    if s != "" { CutNothing(s[1..]); }
  }

  // ------------------------------------------------------------ when it ends

  /** strchr from place i on; the length if the character does not occur. */
  function StrChr(s: string, i: nat, d: char): (k: nat)
    requires i <= |s|
    ensures i <= k <= |s|
    ensures k < |s| ==> s[k] == d
    ensures forall j :: i <= j < k ==> s[j] != d
    decreases |s| - i
  {
    if i == |s| || s[i] == d then i else StrChr(s, i + 1, d)
  }

  datatype Search = Ended(s: string) | Going(s: string, at: nat)

  /** n rounds of the inner loop for a replacement that is not the terminator. */
  function Rounds(n: nat, s: string, at: nat, d: char, c: char): Search
    requires at <= |s|
  {
    if n == 0 then Going(s, at)
    else
      var k := StrChr(s, at, d);
      if k == |s| then Ended(s) else Rounds(n - 1, s[k := c], k, d, c)
  }

  lemma {:induction false} NeverEnds(n: nat, s: string, at: nat, d: char)
    requires at <= |s| && StrChr(s, at, d) < |s|
    ensures Rounds(n, s, at, d, d).Going?
  {
    if n > 0 {
      var k := StrChr(s, at, d);
      assert s[k := d] == s;
      NeverEnds(n - 1, s, k, d);
    }
  }

  lemma {:induction false} EndsEventually(n: nat, s: string, at: nat, d: char, c: char)
    requires at <= |s| && c != d && n >= |s| - at + if at < |s| && s[at] == d then 2 else 1
    ensures Rounds(n, s, at, d, c).Ended?
    decreases n
  {
    var k := StrChr(s, at, d);
    if k < |s| {
      var t := s[k := c];
      EndsEventually(n - 1, t, k, d, c);
    }
  }

  /**
   The loop for one delimiter ends if and only if the replacement is another character or the
   delimiter does not occur.
   */
  lemma InnerLoopEndsIff(s: string, d: char, c: char)
    ensures (exists n :: Rounds(n, s, 0, d, c).Ended?) <==> c != d || d !in s
  {
    if c == d && d in s {
      forall n: nat ensures Rounds(n, s, 0, d, c).Going? {
        NeverEnds(n, s, 0, d);
      }
    } else if c != d {
      EndsEventually(|s| + 2, s, 0, d, c);
      assert Rounds(|s| + 2, s, 0, d, c).Ended?;
    } else {
      assert Rounds(1, s, 0, d, c).Ended?;
    }
  }

  /** The delimiters never reach the replacement while it stands in the string. */
  predicate Ends(s: string, del: string, c: char)
    decreases |del|
  {
    del == "" || ((c != del[0] || c !in s) && Ends(Replaced(s, del[0], c), del[1..], c))
  }

  lemma {:induction false} ReplacedNothing(s: string, d: char, c: char)
    requires d !in s
    ensures Replaced(s, d, c) == s
  {
    if s != "" { ReplacedNothing(s[1..], d, c); }
  }

  lemma {:induction false} ReplacementShows(s: string, d: char, c: char)
    requires d in s && c != NUL
    ensures c in Replaced(s, d, c)
  {
    var i :| 0 <= i < |s| && s[i] == d;
    ReplacedAt(s, d, c, i);
    assert Replaced(s, d, c)[i] == c;
  }

  /** No delimiter up to the last place of the replacement among the delimiters occurs in the string. */
  ghost predicate Clear(s: string, del: string, c: char) {
    forall k :: 0 <= k < |del| && c in del[k..] ==> del[k] !in s
  }

  lemma ClearStep(s: string, del: string, c: char)
    requires del != "" && c in del
    ensures Clear(s, del, c) <==> del[0] !in s && Clear(s, del[1..], c)
  {
    assert del[0..] == del;
    forall k | 0 <= k < |del[1..]| ensures del[1..][k..] == del[k + 1..] && del[1..][k] == del[k + 1] {
    }
    if Clear(s, del, c) {
      forall k | 0 <= k < |del[1..]| && c in del[1..][k..] ensures del[1..][k] !in s {
        assert c in del[k + 1..];
      }
    }
    if del[0] !in s && Clear(s, del[1..], c) {
      forall k | 0 <= k < |del| && c in del[k..] ensures del[k] !in s {
        if k > 0 { assert c in del[1..][k - 1..]; }
      }
    }
  }

  lemma ReplacementBlocks(s: string, del: string, c: char)
    requires c in s && c in del
    ensures !Clear(s, del, c)
  {
    var k :| 0 <= k < |del| && del[k] == c;
    assert c in del[k..] by { assert del[k..][0] == c; }
  }

  /**
   The whole call ends if and only if no delimiter up to the last place of the replacement among
   the delimiters occurs in the string; in particular if the replacement is no delimiter.
   */
  lemma {:induction false} EndsIff(s: string, del: string, c: char)
    requires IsText(del)
    ensures Ends(s, del, c) <==> Clear(s, del, c)
    decreases |del|
  {
    if del != "" {
      var d, t := del[0], Replaced(s, del[0], c);
      EndsIff(t, del[1..], c);
      if c !in del {
        assert Clear(s, del, c) && Clear(t, del[1..], c);
      } else {
        ClearStep(s, del, c);
        if d !in s {
          ReplacedNothing(s, d, c);
          if c !in del[1..] { assert Clear(s, del[1..], c); }
        } else if c != d {
          ReplacementShows(s, d, c);
          ReplacementBlocks(t, del[1..], c);
        }
      }
    }
  }

  // ------------------------------------------------------------ the loops

  /** The buffer holds the text and then the terminator. */
  ghost predicate Holds(a: array<char>, text: string)
    reads a
  {
    |text| < a.Length && a[..|text|] == text && a[|text|] == NUL
  }

  lemma {:induction false} ReplacedCut(s: string, d: char, k: nat)
    requires k < |s| && s[k] == d && d !in s[..k]
    ensures Replaced(s, d, NUL) == s[..k]
  {
    if k > 0 {
      assert s[0] == s[..k][0] && s[1..][..k - 1] == s[..k][1..];
      ReplacedCut(s[1..], d, k - 1);
    }
  }

  lemma {:induction false} ReplacedIsText(s: string, d: char, c: char)
    requires IsText(s)
    ensures IsText(Replaced(s, d, c))
  {
    if s != "" { ReplacedIsText(s[1..], d, c); }
  }

  lemma ReplacedEverywhere(s: string, d: char, c: char, t: string)
    requires |t| == |s| && (c == NUL ==> d !in s)
    requires forall j :: 0 <= j < |s| ==> t[j] == if s[j] == d then c else s[j]
    ensures t == Replaced(s, d, c)
  {
    if c == NUL {
      ReplacedNothing(s, d, c);
      assert t == s;
    } else {
      forall j | 0 <= j < |s| ensures t[j] == Replaced(s, d, c)[j] {
        ReplacedAt(s, d, c, j);
      }
    }
  }

  /** strchr in a buffer from place `from` on, which is not behind the terminator. */
  method FindChar(a: array<char>, from: nat, d: char) returns (k: nat)
    requires d != NUL && exists e :: from <= e < a.Length && a[e] == NUL
    ensures from <= k < a.Length && (a[k] == d || a[k] == NUL)
    ensures forall j :: from <= j < k ==> a[j] != d && a[j] != NUL
  {
    ghost var e :| from <= e < a.Length && a[e] == NUL;
    k := from;
    while a[k] != d && a[k] != NUL
      invariant from <= k <= e && forall j :: from <= j < k ==> a[j] != d && a[j] != NUL
      decreases e - k
    {
      k := k + 1;
    }
  }

  /** The inner loop: one delimiter. */
  method ReplaceOne(a: array<char>, d: char, c: char, ghost s: string)
    requires d != NUL && IsText(s) && Holds(a, s) && (c != d || c !in s)
    modifies a
    ensures Holds(a, Replaced(s, d, c))
  {
    ghost var n, done, cut := |s|, 0, false;
    var rep := 0;
    while true
      invariant 0 <= rep <= n && done <= n && (done == 0 || done == rep + 1)
      invariant !cut ==> a[n] == NUL && forall j :: 0 <= j < n ==> a[j] == if j < done && s[j] == d then c else s[j]
      invariant c == NUL && !cut ==> done == 0
      invariant !cut ==> forall j :: done <= j < rep ==> s[j] != d
      invariant cut ==> c == NUL && rep < n && s[rep] == d && a[..rep] == s[..rep] && d !in s[..rep] && a[rep] == NUL
      decreases if cut then 0 else n - done + 1
    {
      assert a[if cut then rep else n] == NUL;
      var k := FindChar(a, rep, d);
      if a[k] != d {
        if cut {
          ReplacedCut(s, d, rep);
        } else {
          assert k == n;
          ReplacedEverywhere(s, d, c, a[..n]);
        }
        break;
      }
      rep := k;
      a[rep] := c;
      if c == NUL { cut := true; } else { done := rep + 1; }
    }
  }

  /** strdelimit on a string that is not null. */
  method StrDelimit(str: string, del: string, c: char) returns (dup: array<char>)
    requires IsText(str) && IsText(del) && Ends(str, del, c)
    ensures fresh(dup) && dup.Length == |str| + 1 && Holds(dup, AllReplaced(str, del, c))
  {
    dup := new char[|str| + 1](i => if 0 <= i < |str| then str[i] else NUL);
    assert dup[..|str|] == str;
    if dup[0] == NUL {
      EmptyStays(del, c);
      return;
    }
    ghost var s := str;
    var i := 0;
    assert del[0..] == del;
    while i < |del|
      invariant i <= |del| && IsText(s) && Holds(dup, s) && Ends(s, del[i..], c)
      invariant AllReplaced(s, del[i..], c) == AllReplaced(str, del, c)
    {
      assert del[i..][1..] == del[i + 1..] && del[i..][0] == del[i];
      ReplaceOne(dup, del[i], c, s);
      ReplacedIsText(s, del[i], c);
      s := Replaced(s, del[i], c);
      i := i + 1;
    }
  }

  lemma {:induction false} EmptyStays(del: string, c: char)
    ensures AllReplaced("", del, c) == ""
    decreases |del|
  {
    if del != "" { EmptyStays(del[1..], c); }
  }
}
