/** util_get_uid and util_clear_uid: ids 1 to 64 handed out from the bits of a 64-bit word. */
module UidPool {

  const MAX_ID: bv8 := 64

  predicate Bit(bitmap: bv64, k: bv8)
    requires k < MAX_ID
  {
    (bitmap >> (k as bv64)) & 1 == 1
  }

  lemma BitAfterNot(bitmap: bv64, j: bv8)
    requires j < MAX_ID
    ensures Bit(!bitmap, j) <==> !Bit(bitmap, j)
  {
  }

  /** ffsll from bit k on: one more than the place of the lowest set bit, or 0. */
  function FirstSet(word: bv64, k: bv8): (r: bv8)
    requires k <= MAX_ID
    ensures r <= MAX_ID
    decreases MAX_ID - k
  {
    if k == MAX_ID then 0
    else if Bit(word, k) then k + 1
    else FirstSet(word, k + 1)
  }

  lemma {:induction false} FirstSetIsSet(word: bv64, k: bv8)
    requires k <= MAX_ID
    ensures var r := FirstSet(word, k); r == 0 || (k < r <= MAX_ID && Bit(word, r - 1))
    decreases MAX_ID - k
  {
    hide Bit;
    if k < MAX_ID && !Bit(word, k) { FirstSetIsSet(word, k + 1); }
  }

  lemma {:induction false} FirstSetIsFirst(word: bv64, k: bv8, j: bv8)
    requires k <= j < MAX_ID && Bit(word, j)
    ensures var r := FirstSet(word, k); 0 < r <= j + 1
    decreases MAX_ID - k
  {
    hide Bit;
    if !Bit(word, k) { FirstSetIsFirst(word, k + 1, j); }
  }

  /** The id's bit is set. */
  predicate Has(bitmap: bv64, id: bv8) {
    1 <= id <= MAX_ID && Bit(bitmap, id - 1)
  }

  /** The word with bit k set. */
  function Mark(bitmap: bv64, k: bv8): bv64
    requires k < MAX_ID
  {
    bitmap | ((1 as bv64) << (k as bv64))
  }

  /** The word with bit k cleared. */
  function Unmark(bitmap: bv64, k: bv8): bv64
    requires k < MAX_ID
  {
    bitmap & !((1 as bv64) << (k as bv64))
  }

  /** util_get_uid: the new bitmap and the id. */
  function GetUid(bitmap: bv64, max: bv8): (bv64, bv8) {
    var id := FirstSet(!bitmap, 0);
    if id == 0 || id > max then (bitmap, 0) else (Mark(bitmap, id - 1), id)
  }

  /** util_clear_uid. */
  function ClearUid(bitmap: bv64, id: bv8): bv64 {
    if id == 0 || id > MAX_ID then bitmap else Unmark(bitmap, id - 1)
  }

  lemma BitOfOne(k: bv8, j: bv8)
    requires k < MAX_ID && j < MAX_ID
    ensures Bit((1 as bv64) << (k as bv64), j) <==> j == k
  {
  }

  lemma BitOfOr(a: bv64, b: bv64, j: bv8)
    requires j < MAX_ID
    ensures Bit(a | b, j) <==> Bit(a, j) || Bit(b, j)
  {
  }

  lemma BitOfAnd(a: bv64, b: bv64, j: bv8)
    requires j < MAX_ID
    ensures Bit(a & b, j) <==> Bit(a, j) && Bit(b, j)
  {
  }

  lemma BitAfterMark(bitmap: bv64, k: bv8, j: bv8)
    requires k < MAX_ID && j < MAX_ID
    ensures Bit(Mark(bitmap, k), j) <==> j == k || Bit(bitmap, j)
  {
    hide Bit;
    BitOfOr(bitmap, (1 as bv64) << (k as bv64), j);
    BitOfOne(k, j);
  }

  lemma BitAfterUnmark(bitmap: bv64, k: bv8, j: bv8)
    requires k < MAX_ID && j < MAX_ID
    ensures Bit(Unmark(bitmap, k), j) <==> j != k && Bit(bitmap, j)
  {
    hide Bit;
    BitOfAnd(bitmap, !((1 as bv64) << (k as bv64)), j);
    BitAfterNot((1 as bv64) << (k as bv64), j);
    BitOfOne(k, j);
  }

  lemma Predecessors(a: bv8, b: bv8)
    ensures a - 1 == b - 1 <==> a == b
    ensures 1 <= a <= MAX_ID ==> a - 1 < MAX_ID
  {
  }

  lemma HasAfterMark(bitmap: bv64, id: bv8, j: bv8)
    requires 1 <= id <= MAX_ID
    ensures Has(Mark(bitmap, id - 1), j) <==> j == id || Has(bitmap, j)
    ensures Has(Unmark(bitmap, id - 1), j) <==> j != id && Has(bitmap, j)
  {
    hide Bit, Mark, Unmark;
    Predecessors(id, j);
    if 1 <= j <= MAX_ID {
      Predecessors(j, id);
      BitAfterMark(bitmap, id - 1, j - 1);
      BitAfterUnmark(bitmap, id - 1, j - 1);
    }
  }

  lemma HasOnlyIds(bitmap: bv64, j: bv8)
    ensures Has(bitmap, j) ==> 1 <= j <= MAX_ID
  {
  }

  /** What ffsll of the complement finds: the least id that is not set, or 0 if all are. */
  lemma FirstFree(bitmap: bv64, j: bv8)
    ensures var r := FirstSet(!bitmap, 0);
            && (r != 0 ==> 1 <= r <= MAX_ID && !Has(bitmap, r))
            && (1 <= j <= MAX_ID && (r == 0 || j < r) ==> Has(bitmap, j))
  {
    hide Bit, FirstSet;
    var r := FirstSet(!bitmap, 0);
    FirstSetIsSet(!bitmap, 0);
    if r != 0 { BitAfterNot(bitmap, r - 1); }
    if 1 <= j <= MAX_ID && !Has(bitmap, j) {
      BitAfterNot(bitmap, j - 1);
      FirstSetIsFirst(!bitmap, 0, j - 1);
    }
  }

  // ------------------------------------------------------------ the ids that are out

  /** The set bits are exactly the ids that are out. */
  ghost predicate Represents(bitmap: bv64, out: set<bv8>) {
    forall id: bv8 :: Has(bitmap, id) <==> id in out
  }

  predicate InRange(id: bv8, max: bv8) {
    1 <= id <= max && id <= MAX_ID
  }

  /** The least id up to max that is not out; 0 exactly if all of them are out. */
  ghost predicate IsLeastFree(out: set<bv8>, max: bv8, id: bv8) {
    if id == 0 then forall j: bv8 :: InRange(j, max) ==> j in out
    else InRange(id, max) && id !in out && forall j: bv8 :: 1 <= j < id ==> j in out
  }

  /** util_get_uid hands out the least free id within the limit, marks it, and 0 if there is none. */
  lemma GetIsLeastFree(bitmap: bv64, out: set<bv8>, max: bv8)
    requires Represents(bitmap, out)
    ensures var (after, id) := GetUid(bitmap, max);
            && IsLeastFree(out, max, id)
            && Represents(after, if id == 0 then out else out + {id})
  {
    hide Has, FirstSet, Mark, Unmark;
    var id := GetUid(bitmap, max).1;
    FirstFree(bitmap, 0);
    if id == 0 {
      forall j: bv8 | InRange(j, max) ensures j in out {
        FirstFree(bitmap, j);
      }
    } else {
      forall j: bv8 | 1 <= j < id ensures j in out {
        FirstFree(bitmap, j);
      }
      forall j: bv8 ensures Has(Mark(bitmap, id - 1), j) <==> j in out + {id} {
        HasAfterMark(bitmap, id, j);
      }
    }
  }

  /** util_clear_uid takes an id back; ids that do not exist and ids that are not out make no difference. */
  lemma ClearTakesBack(bitmap: bv64, out: set<bv8>, id: bv8)
    requires Represents(bitmap, out)
    ensures Represents(ClearUid(bitmap, id), out - {id})
  {
    hide Has, Mark, Unmark;
    forall j: bv8 ensures Has(ClearUid(bitmap, id), j) <==> j in out - {id} {
      HasOnlyIds(bitmap, j);
      if 1 <= id <= MAX_ID { HasAfterMark(bitmap, id, j); }
    }
  }

  // ------------------------------------------------------------ histories

  datatype Op = Get(max: bv8) | Clear(id: bv8)

  datatype Pool = Pool(bitmap: bv64, out: set<bv8>)

  /** Calls one after the other from an empty bitmap; `out` has what the calls returned and was not cleared since. */
  function Replay(ops: seq<Op>): Pool {
    if ops == [] then Pool(0, {})
    else
      var was := Replay(ops[..|ops| - 1]);
      match ops[|ops| - 1]
      case Get(max) =>
        var (after, id) := GetUid(was.bitmap, max);
        Pool(after, if id == 0 then was.out else was.out + {id})
      case Clear(id) => Pool(ClearUid(was.bitmap, id), was.out - {id})
  }

  lemma EmptyBitmap(k: bv8)
    requires k < MAX_ID
    ensures !Bit(0, k)
  {
  }

  /** After any history the set bits are exactly the ids that are out, so the next id is the least free one. */
  lemma {:induction false} HistoryIsExact(ops: seq<Op>, max: bv8)
    ensures var pool := Replay(ops);
            Represents(pool.bitmap, pool.out) && IsLeastFree(pool.out, max, GetUid(pool.bitmap, max).1)
  {
    hide Has, GetUid, ClearUid, IsLeastFree;
    if ops == [] {
      EmptyBitmapIsFree();
    } else {
      var was := Replay(ops[..|ops| - 1]);
      HistoryIsExact(ops[..|ops| - 1], max);
      match ops[|ops| - 1]
      case Get(m) => GetIsLeastFree(was.bitmap, was.out, m);
      case Clear(id) => ClearTakesBack(was.bitmap, was.out, id);
    }
    GetIsLeastFree(Replay(ops).bitmap, Replay(ops).out, max);
  }

  lemma EmptyHas(id: bv8)
    ensures !Has(0, id)
  {
    if 1 <= id <= MAX_ID { EmptyBitmap(id - 1); }
  }

  /** What the place ffsll returns is good for. */
  lemma LowestZeroBit(bitmap: bv64, out: set<bv8>, max: bv8)
    requires Represents(bitmap, out)
    ensures var id := FirstSet(!bitmap, 0);
            if id == 0 || id > max then IsLeastFree(out, max, 0)
            else id - 1 < MAX_ID && IsLeastFree(out, max, id) && Represents(Mark(bitmap, id - 1), out + {id})
  {
    hide Bit, Mark, FirstSet, Represents, IsLeastFree;
    GetIsLeastFree(bitmap, out, max);
  }

  lemma EmptyBitmapIsFree()
    ensures Represents(0, {})
  {
    hide Has;
    forall id: bv8 ensures !Has(0, id) {
      EmptyHas(id);
    }
  }

  /** The word the two calls are given a pointer to, with the ids that are out. */
  class Bitmap {
    var bits: bv64
    ghost var out: set<bv8>

    ghost predicate Valid()
      reads this
    {
      Represents(bits, out)
    }

    constructor ()
      ensures Valid() && out == {}
    {
      bits, out := 0, {};
      new;
      EmptyBitmapIsFree();
    }

    method GetId(max: bv8) returns (id: bv8)
      requires Valid()
      modifies this
      ensures Valid() && IsLeastFree(old(out), max, id)
      ensures out == if id == 0 then old(out) else old(out) + {id}
    {
      hide FirstSet, Bit, Mark, Represents, IsLeastFree;
      var word := bits;
      LowestZeroBit(word, out, max);
      id := FirstSet(!word, 0);
      if id == 0 || id > max {
        id := 0;
      } else {
        bits, out := Mark(word, id - 1), out + {id};
      }
    }

    method ClearId(id: bv8)
      requires Valid()
      modifies this
      ensures Valid() && out == old(out) - {id}
    {
      hide Bit, Unmark, Represents;
      ClearTakesBack(bits, out, id);
      out := out - {id};
      if id == 0 || id > 64 {
        return;
      }
      bits := Unmark(bits, id - 1);
    }
  }
}
