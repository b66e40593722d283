/** A queue cut into consecutive rows, and what changing one row does to the whole. */
module Rows {

  function Flatten<T>(rows: seq<seq<T>>): seq<T> {
    if rows == [] then [] else rows[0] + Flatten(rows[1..])
  }

  lemma {:induction false} FlattenConcat<T>(a: seq<seq<T>>, b: seq<seq<T>>)
    ensures Flatten(a + b) == Flatten(a) + Flatten(b)
  {
    if a == [] {
      assert a + b == b;
    } else {
      assert (a + b)[1..] == a[1..] + b;
      FlattenConcat(a[1..], b);
    }
  }

  lemma {:induction false} FlattenSplit<T>(rows: seq<seq<T>>, i: nat)
    requires i <= |rows|
    ensures Flatten(rows) == Flatten(rows[..i]) + Flatten(rows[i..])
  {
    assert rows == rows[..i] + rows[i..];
    FlattenConcat(rows[..i], rows[i..]);
  }

  lemma {:induction false} FlattenAround<T>(rows: seq<seq<T>>, i: nat)
    requires i < |rows|
    ensures Flatten(rows) == Flatten(rows[..i]) + rows[i] + Flatten(rows[i + 1..])
    ensures Flatten(rows[..i + 1]) == Flatten(rows[..i]) + rows[i]
  {
    FlattenSplit(rows, i + 1);
    assert rows[..i + 1] == rows[..i] + [rows[i]];
    FlattenConcat(rows[..i], [rows[i]]);
    assert Flatten([rows[i]]) == rows[i];
  }

  lemma {:induction false} FlattenUpdate<T>(rows: seq<seq<T>>, i: nat, row: seq<T>)
    requires i < |rows|
    ensures Flatten(rows[i := row]) == Flatten(rows[..i]) + row + Flatten(rows[i + 1..])
  {
    FlattenAround(rows[i := row], i);
    assert rows[i := row][..i] == rows[..i] && rows[i := row][i + 1..] == rows[i + 1..];
  }

  /** Putting in or taking out an empty row changes nothing. */
  lemma {:induction false} FlattenEmptyRow<T>(a: seq<seq<T>>, b: seq<seq<T>>)
    ensures Flatten(a + [[]] + b) == Flatten(a + b)
  {
    FlattenConcat(a + [[]], b);
    FlattenConcat(a, [[]]);
    FlattenConcat(a, b);
    assert Flatten<T>([[]]) == [];
  }

  lemma {:induction false} InSomeRow<T>(rows: seq<seq<T>>, x: T) returns (i: nat)
    requires x in Flatten(rows)
    ensures i < |rows| && x in rows[i]
  {
    if x in rows[0] {
      i := 0;
    } else {
      i := InSomeRow(rows[1..], x);
      i := i + 1;
    }
  }

  lemma {:induction false} RowInFlatten<T>(rows: seq<seq<T>>, i: nat)
    requires i < |rows|
    ensures forall x :: x in rows[i] ==> x in Flatten(rows)
  {
    FlattenAround(rows, i);
  }
}
