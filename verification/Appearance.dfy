/** detect_device: the appearance table is scanned once and the scan breaks off early. */
module Appearance {

  /** A row of the appearance table; the row with the null name is the end of the sequence. */
  datatype Row = Row(value: nat, generic: bool, name: string)

  /** The table begins with a generic row for 0 and its values ascend. */
  ghost predicate InOrder(rows: seq<Row>) {
    && |rows| > 0 && rows[0].generic && rows[0].value == 0
    && forall i, j :: 0 <= i < j < |rows| ==> rows[i].value < rows[j].value
  }

  /** The row for exactly this value if there is one, else the generic row with the greatest value not above it. */
  ghost predicate IsBestRow(rows: seq<Row>, appearance: nat, k: nat) {
    && k < |rows|
    && if exists i :: 0 <= i < |rows| && rows[i].value == appearance then rows[k].value == appearance
       else
         && rows[k].generic && rows[k].value <= appearance
         && forall j :: 0 <= j < |rows| && rows[j].generic && rows[j].value <= appearance ==>
                rows[j].value <= rows[k].value
  }

  /** There is never more than one such row. */
  lemma BestRowIsUnique(rows: seq<Row>, appearance: nat, k: nat, m: nat)
    requires InOrder(rows) && IsBestRow(rows, appearance, k) && IsBestRow(rows, appearance, m)
    ensures k == m
  {
    assert rows[k].value == rows[m].value;
  }

  /** The scan as written, from row i on with the last generic row seen so far. */
  function Scan(rows: seq<Row>, appearance: nat, i: nat, last: nat): (k: nat)
    requires i <= |rows| && last < |rows|
    ensures k < |rows|
    decreases |rows| - i
  {
    if i == |rows| then last
    else if rows[i].generic && appearance < rows[i].value then last
    else if rows[i].value == appearance then i
    else Scan(rows, appearance, i + 1, if rows[i].generic then i else last)
  }

  /** detect_device. */
  method DetectDevice(rows: seq<Row>, appearance: nat) returns (name: string)
    requires |rows| > 0
    ensures name == rows[Scan(rows, appearance, 0, 0)].name
    ensures InOrder(rows) ==> exists k: nat :: IsBestRow(rows, appearance, k) && name == rows[k].name
  {
    var i, last, found := 0, 0, false;
    name := rows[0].name;
    while i < |rows|
      invariant i <= |rows| && last < |rows| && !found
      invariant Scan(rows, appearance, 0, 0) == Scan(rows, appearance, i, last)
    {
      if rows[i].generic {
        if appearance < rows[i].value {
          break;
        }
        last := i;
      }
      if rows[i].value == appearance {
        name, found := rows[i].name, true;
        break;
      }
      i := i + 1;
    }
    if !found {
      name := rows[last].name;
    }
    if InOrder(rows) {
      ScanFindsBest(rows, appearance, 0, 0);
      assert IsBestRow(rows, appearance, Scan(rows, appearance, 0, 0));
    }
  }

  /** On a table in order, breaking off early never misses a row. */
  lemma {:induction false} ScanFindsBest(rows: seq<Row>, appearance: nat, i: nat, last: nat)
    requires InOrder(rows) && i <= |rows| && last < |rows|
    requires rows[last].generic && rows[last].value <= appearance && (i == 0 ==> last == 0)
    requires forall j :: 0 <= j < i ==>
               rows[j].value != appearance && (rows[j].generic ==> rows[j].value <= rows[last].value)
    ensures IsBestRow(rows, appearance, Scan(rows, appearance, i, last))
    decreases |rows| - i
  {
    if i < |rows| && !(rows[i].generic && appearance < rows[i].value) && rows[i].value != appearance {
      ScanFindsBest(rows, appearance, i + 1, if rows[i].generic then i else last);
    }
  }
}
