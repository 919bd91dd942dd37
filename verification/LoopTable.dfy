/**
 The entry table of loop.c as a sequence: lookup by descriptor and the shift that deletes a slot.
 */
module LoopTable {
  import opened Events

  /** How the system answers the requests of loop_add_sd. */
  datatype Answer = NoTable | NoEntry | Refused | Taken

  const ENTRY_CHANGE: nat := 4
  const EINVAL := 22
  const ENXIO := 6
  const ENOMEM := 12
  const EEXIST := 17

  /** One registered descriptor; `id` is the address of the entry, `client` who it calls back. */
  datatype Entry<C> = Entry(id: nat, sd: int, mask: Mask, client: C)

  /** The first slot that holds the descriptor, or the length of the table. */
  function Find<C>(table: seq<Entry<C>>, sd: int): (k: nat)
    ensures k <= |table|
    ensures k < |table| ==> table[k].sd == sd
    ensures forall i :: 0 <= i < k ==> table[i].sd != sd
  {
    if |table| == 0 then 0
    else if table[0].sd == sd then 0
    else 1 + Find(table[1..], sd)
  }

  /** The first slot that holds the entry at that address, or the length of the table. */
  function FindId<C>(table: seq<Entry<C>>, id: nat): (k: nat)
    ensures k <= |table|
    ensures k < |table| ==> table[k].id == id
    ensures forall i :: 0 <= i < k ==> table[i].id != id
  {
    if |table| == 0 then 0
    else if table[0].id == id then 0
    else 1 + FindId(table[1..], id)
  }

  function Without<T>(s: seq<T>, k: nat): (r: seq<T>)
    requires k < |s|
  {
    s[..k] + s[k + 1..]
  }

  /**
   The table after the shift loop of loop_remove_sd has run with the guard `top > i + gap` and
   the top slot has been dropped. The loop is written with gap 2; gap 1 moves every later slot.
   */
  function Shift<T>(s: seq<T>, k: nat, gap: nat): (r: seq<T>)
    requires k < |s|
    ensures |r| == |s| - 1
  {
    seq(|s| - 1, i requires 0 <= i < |s| - 1 => if k <= i && i + gap < |s| then s[i + 1] else s[i])
  }

  lemma ShiftByOneDeletes<T>(s: seq<T>, k: nat)
    requires k < |s|
    ensures Shift(s, k, 1) == Without(s, k)
  {
  }

  /** The shift as written deletes the slot exactly when that slot is the last one. */
  lemma ShiftAsWrittenDeletesIffLast<T>(s: seq<T>, k: nat)
    requires k < |s|
    requires forall i, j :: 0 <= i < j < |s| ==> s[i] != s[j]
    ensures Shift(s, k, 2) == Without(s, k) <==> k + 1 == |s|
  {
    if k + 1 < |s| {
      var r, n := Shift(s, k, 2), |s|;
      assert r[n - 2] == s[n - 2];
      assert Without(s, k)[n - 2] == s[n - 1];
    }
  }

  /** Destructor runs, by slot content, when slot k is removed and the loop is then quit. */
  function DestructedByRemoveThenQuit<T>(s: seq<T>, k: nat, gap: nat): multiset<T>
    requires k < |s|
  {
    multiset{s[k]} + multiset(Shift(s, k, gap))
  }

  lemma ShiftKeepsUpToLast<T>(s: seq<T>, k: nat)
    requires k + 1 < |s|
    ensures Shift(s, k, 2) == Without(s[..|s| - 1], k) + [s[|s| - 2]]
  {
  }

  lemma {:induction false} WithoutPlusRemoved<T>(s: seq<T>, k: nat)
    requires k < |s|
    ensures multiset(Without(s, k)) + multiset{s[k]} == multiset(s)
  {
    assert s == s[..k] + [s[k]] + s[k + 1..];
  }

  /**
   Removing any slot but the last and then quitting runs the destructor of the last but one
   entry one time too many and never runs the one of the last entry.
   */
  lemma RemoveThenQuitAsWritten<T>(s: seq<T>, k: nat)
    requires k < |s|
    ensures k + 1 == |s| ==> DestructedByRemoveThenQuit(s, k, 2) == multiset(s)
    ensures k + 1 < |s| ==>
              DestructedByRemoveThenQuit(s, k, 2) + multiset{s[|s| - 1]} == multiset(s) + multiset{s[|s| - 2]}
  {
    var n := |s|;
    if k + 1 == n {
      assert Shift(s, k, 2) == Without(s, k);
      WithoutPlusRemoved(s, k);
    } else {
      ShiftKeepsUpToLast(s, k);
      WithoutPlusRemoved(s[..n - 1], k);
      assert s == s[..n - 1] + [s[n - 1]];
    }
  }

  /** Every entry is destructed once by a removal followed by a quit exactly when the last slot was removed. */
  lemma RemoveThenQuitIsExactIffLast<T>(s: seq<T>, k: nat)
    requires k < |s|
    requires forall i, j :: 0 <= i < j < |s| ==> s[i] != s[j]
    ensures DestructedByRemoveThenQuit(s, k, 2) == multiset(s) <==> k + 1 == |s|
    ensures k + 1 < |s| ==> s[|s| - 1] !in DestructedByRemoveThenQuit(s, k, 2)
    ensures k + 1 < |s| ==> DestructedByRemoveThenQuit(s, k, 2)[s[|s| - 2]] == 2
  {
    RemoveThenQuitAsWritten(s, k);
    if k + 1 < |s| {
      DistinctMeansOnce(s, |s| - 1);
      DistinctMeansOnce(s, |s| - 2);
      var runs, last, twice := DestructedByRemoveThenQuit(s, k, 2), s[|s| - 1], s[|s| - 2];
      assert last != twice;
      assert (runs + multiset{last})[twice] == runs[twice];
    }
  }

  lemma DistinctMeansOnce<T>(s: seq<T>, k: nat)
    requires k < |s|
    requires forall i, j :: 0 <= i < j < |s| ==> s[i] != s[j]
    ensures multiset(s)[s[k]] == 1
  {
    assert s == s[..k] + [s[k]] + s[k + 1..];
    assert s[k] !in s[..k];
    assert s[k] !in s[k + 1..];
  }
}
