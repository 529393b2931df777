/** The canonical plan makes the tables that the launch count and the device search rely on
    (src/instrumentation_plan.cpp, src/plan_runtime.cpp, include/plan_selection.h). */
module PlanTables {
  import opened Sequences
  import opened PlanOrder
  import opened PlanText
  import opened PlanMerge
  import opened PlanRead
  import opened PlanFixed
  import C = PlanCapture
  import S = PlanSelection

  function AsTriple(t: (nat, nat, nat)): C.Triple { C.Triple(t.0, t.1, t.2) }

  function Listed<T>(c: Choice<T>): seq<T> {
    if c.All? then [] else c.items
  }

  /** The selection the runtime counts with: no list means everything. */
  function CaptureOf(c: Config): C.Capture {
    C.Capture(Map(Listed(c.ctas), AsTriple), Listed(c.warps), Listed(c.lanes))
  }

  /** The rows of a table, one after the other. */
  function Flatten(rows: seq<Key>): seq<nat> {
    if rows == [] then [] else Flatten(rows[..|rows| - 1]) + rows[|rows| - 1]
  }

  lemma {:induction false} FlatRow(rows: seq<Key>, width: nat, i: nat)
    requires i < |rows| && forall j :: 0 <= j < |rows| ==> |rows[j]| == width
    ensures |Flatten(rows)| == |rows| * width && S.HasRows(Flatten(rows), width, |rows|)
    ensures S.RowOf(Flatten(rows), width, |rows|, i) == rows[i]
  {
    FlatSize(rows, width);
    S.RowInside(width, i, |rows|);
    S.RowStart(width, i);
    var front := rows[..|rows| - 1];
    FlatSize(front, width);
    S.RowInside(width, |rows| - 1, |rows|);
    S.RowStart(width, |rows| - 1);
    if i < |rows| - 1 {
      FlatRow(front, width, i);
      S.RowInside(width, i, |front|);
      assert S.Row(Flatten(rows), width, i) == S.Row(Flatten(front), width, i);
    } else {
      assert S.Row(Flatten(rows), width, i) == rows[i];
    }
  }

  lemma {:induction false} FlatSize(rows: seq<Key>, width: nat)
    requires forall j :: 0 <= j < |rows| ==> |rows[j]| == width
    ensures |Flatten(rows)| == |rows| * width
  {
    if rows != [] {
      FlatSize(rows[..|rows| - 1], width);
      S.RowStart(width, |rows| - 1);
    }
  }

  lemma {:induction false} BeforeIsLess(a: Key, b: Key)
    requires |a| == |b|
    ensures Before(a, b) <==> S.Less(a, b)
  {
    if a != [] {
      BeforeIsLess(a[1..], b[1..]);
    }
  }

  /** A list sorted by keys of one length, flattened, is a table the device can search. */
  lemma {:induction false} SortedTable<T(!new)>(list: seq<T>, key: T -> Key, width: nat)
    requires Sorted(list, key) && forall t :: |key(t)| == width
    ensures var table := Flatten(Map(list, key));
            && S.HasRows(table, width, |list|) && S.Sorted(table, width, |list|)
            && forall i :: 0 <= i < |list| ==> S.RowOf(table, width, |list|, i) == key(list[i])
  {
    var rows := Map(list, key);
    FlatSize(rows, width);
    forall i | 0 <= i < |list| ensures S.RowOf(Flatten(rows), width, |list|, i) == key(list[i]) {
      FlatRow(rows, width, i);
    }
    forall i, j | 0 <= i < j < |list|
      ensures S.Less(S.RowOf(Flatten(rows), width, |list|, i), S.RowOf(Flatten(rows), width, |list|, j))
    {
      BeforeIsLess(key(list[i]), key(list[j]));
    }
  }

  lemma ChoiceSorted<T(!new), U(!new)>(c: Choice<T>, read: T -> Option<U>, key: U -> Key)
    requires KeyOk(key) && ReadChoice(c, read, key).Some?
    ensures Sorted(Listed(ReadChoice(c, read, key).value), key)
    ensures forall u :: u in Listed(ReadChoice(c, read, key).value) ==> exists t :: read(t) == Some(u)
  {
    if c.Only? {
      ReadListSettled(Map(c.items, read), key, ARRAY_MAX);
      forall u | u in Listed(ReadChoice(c, read, key).value) ensures exists t :: read(t) == Some(u) {
        var i :| 0 <= i < |c.items| && Map(c.items, read)[i] == Some(u);
        assert read(c.items[i]) == Some(u);
      }
    }
  }

  lemma KeysInOrder(list: seq<nat>)
    requires Sorted(list, IntegerKey)
    ensures forall i, j :: 0 <= i < j < |list| ==> list[i] < list[j]
  {
    forall i, j | 0 <= i < j < |list| ensures list[i] < list[j] {
      var a, b := IntegerKey(list[i]), IntegerKey(list[j]);
      assert Before(a, b) && !Before(a[1..], b[1..]);
      assert a[0] == list[i] && b[0] == list[j];
    }
  }

  /** Every configuration that is read gives a selection the count of expected warps is right for. */
  lemma {:induction false} CanonicalCapture(raw: RawConfig)
    requires ReadConfig(raw).Some?
    ensures C.CaptureOk(CaptureOf(ReadConfig(raw).value))
  {
    KeysOk();
    var c := ReadConfig(raw).value;
    CtasSorted(raw);
    ChoiceSorted(raw.warps, ReadInteger(0, EXACT_MAX), IntegerKey);
    ChoiceSorted(raw.lanes, ReadInteger(0, 31), IntegerKey);
    KeysInOrder(Listed(c.warps));
    KeysInOrder(Listed(c.lanes));
    var capture := CaptureOf(c);
    forall i | 0 <= i < |capture.lanes| ensures capture.lanes[i] < C.WARP {
      assert capture.lanes[i] in Listed(c.lanes);
    }
    hide ReadConfig;
  }

  lemma CtasSorted(raw: RawConfig)
    requires ReadConfig(raw).Some?
    ensures Sorted(Listed(ReadConfig(raw).value.ctas), TripleKey)
    ensures Distinct(Map(Listed(ReadConfig(raw).value.ctas), AsTriple))
  {
    KeysOk();
    ChoiceSorted(raw.ctas, ReadTriple, TripleKey);
    var list := Listed(ReadConfig(raw).value.ctas);
    hide ReadConfig;
    forall i, j | 0 <= i < j < |list| ensures AsTriple(list[i]) != AsTriple(list[j]) {
      BeforeIrreflexive(TripleKey(list[i]));
    }
  }

  /** The flattened CTA table of a configuration holds its CTAs, row by row, in order. */
  lemma {:induction false} CanonicalCtaTable(raw: RawConfig)
    requires ReadConfig(raw).Some?
    ensures var list := Listed(ReadConfig(raw).value.ctas);
            var table := Flatten(Map(list, TripleKey));
            && S.HasRows(table, 3, |list|) && S.Sorted(table, 3, |list|)
            && forall i :: 0 <= i < |list| ==> S.RowOf(table, 3, |list|, i) == TripleKey(list[i])
  {
    CtasSorted(raw);
    SortedTable(Listed(ReadConfig(raw).value.ctas), TripleKey, 3);
  }

  lemma {:induction false} FlatOnes(list: seq<nat>)
    ensures Flatten(Map(list, IntegerKey)) == list
  {
    if list != [] {
      var front, rows := list[..|list| - 1], Map(list, IntegerKey);
      FlatOnes(front);
      assert rows[..|rows| - 1] == Map(front, IntegerKey);
      assert list == front + [list[|list| - 1]];
    }
  }

  /** The list of warps is copied as it is, and is a table with one warp in each row. */
  lemma {:induction false} CanonicalWarpTable(raw: RawConfig)
    requires ReadConfig(raw).Some?
    ensures var list := Listed(ReadConfig(raw).value.warps);
            && S.HasRows(list, 1, |list|) && S.Sorted(list, 1, |list|)
            && forall i :: 0 <= i < |list| ==> S.RowOf(list, 1, |list|, i) == [list[i]]
  {
    KeysOk();
    ChoiceSorted(raw.warps, ReadInteger(0, EXACT_MAX), IntegerKey);
    var list := Listed(ReadConfig(raw).value.warps);
    hide ReadConfig;
    SortedTable(list, IntegerKey, 1);
    FlatOnes(list);
  }
}
