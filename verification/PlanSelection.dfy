/** Binary search over a flattened table of fixed-width keys (include/plan_selection.h). */
module PlanSelection {

  /** Row `i` of a table whose rows are `width` values long. */
  function Row(values: seq<nat>, width: nat, i: nat): (r: seq<nat>)
    requires (i + 1) * width <= |values|
    ensures |r| == width && forall a :: 0 <= a < width ==> 0 <= i * width + a < |values| && r[a] == values[i * width + a]
  {
    RowStart(width, i);
    values[i * width..i * width + width]
  }

  lemma RowStart(width: nat, i: nat)
    ensures (i + 1) * width == i * width + width && 0 <= i * width
  {
  }

  lemma {:induction false} RowInside(width: nat, i: nat, count: nat)
    requires i < count
    ensures 0 <= (i + 1) * width <= count * width
    decreases count
  {
    if i + 1 < count {
      RowInside(width, i, count - 1);
      RowStart(width, count - 1);
    } else {
      RowStart(width, i);
    }
  }

  /** Lexicographic order of keys of one length. */
  predicate Less(a: seq<nat>, b: seq<nat>)
    requires |a| == |b|
  {
    a != [] && (a[0] < b[0] || (a[0] == b[0] && Less(a[1..], b[1..])))
  }

  ghost predicate HasRows(values: seq<nat>, width: nat, count: nat) {
    count * width <= |values|
  }

  ghost function RowOf(values: seq<nat>, width: nat, count: nat, i: nat): (r: seq<nat>)
    requires HasRows(values, width, count) && i < count
    ensures |r| == width
  {
    RowInside(width, i, count);
    Row(values, width, i)
  }

  ghost predicate Sorted(values: seq<nat>, width: nat, count: nat)
    requires HasRows(values, width, count)
  {
    forall i, j :: 0 <= i < j < count ==> Less(RowOf(values, width, count, i), RowOf(values, width, count, j))
  }

  /** The first place where two keys differ decides their order. */
  lemma {:induction false} FirstDifference(a: seq<nat>, b: seq<nat>, axis: nat)
    requires |a| == |b| && axis < |a| && a[axis] < b[axis]
    requires forall k :: 0 <= k < axis ==> a[k] == b[k]
    ensures Less(a, b)
  {
    if axis > 0 {
      FirstDifference(a[1..], b[1..], axis - 1);
    }
  }

  lemma {:induction false} LessIsStrict(a: seq<nat>, b: seq<nat>)
    requires |a| == |b| && Less(a, b)
    ensures a != b && !Less(b, a)
  {
    if a[0] == b[0] {
      LessIsStrict(a[1..], b[1..]);
    }
  }

  lemma {:induction false} LessTransitive(a: seq<nat>, b: seq<nat>, c: seq<nat>)
    requires |a| == |b| == |c| && Less(a, b) && Less(b, c)
    ensures Less(a, c)
  {
    if a[0] == b[0] == c[0] {
      LessTransitive(a[1..], b[1..], c[1..]);
    }
  }

  /** Compares one row with the key, axis by axis. */
  method Compare(values: array<nat>, ghost count: nat, row: nat, key: seq<nat>) returns (axis: nat)
    requires HasRows(values[..], |key|, count) && row < count
    ensures axis <= |key|
    ensures axis == |key| ==> RowOf(values[..], |key|, count, row) == key
    ensures axis < |key| ==>
              var r := RowOf(values[..], |key|, count, row);
              && r[axis] != key[axis]
              && (if r[axis] < key[axis] then Less(r, key) else Less(key, r))
  {
    RowInside(|key|, row, count);
    RowStart(|key|, row);
    ghost var r := RowOf(values[..], |key|, count, row);
    axis := 0;
    while axis < |key| && values[row * |key| + axis] == key[axis]
      invariant axis <= |key|
      invariant forall a :: 0 <= a < axis ==> r[a] == key[a]
    {
      axis := axis + 1;
    }
    if axis < |key| {
      if r[axis] < key[axis] {
        FirstDifference(r, key, axis);
      } else {
        FirstDifference(key, r, axis);
      }
    }
  }

  lemma RowsBelow(values: seq<nat>, key: seq<nat>, count: nat, middle: nat)
    requires HasRows(values, |key|, count) && Sorted(values, |key|, count) && middle < count
    requires Less(RowOf(values, |key|, count, middle), key)
    ensures forall i :: 0 <= i <= middle ==> Less(RowOf(values, |key|, count, i), key)
  {
    hide Less;
    forall i | 0 <= i < middle ensures Less(RowOf(values, |key|, count, i), key) {
      LessTransitive(RowOf(values, |key|, count, i), RowOf(values, |key|, count, middle), key);
    }
  }

  lemma RowsAbove(values: seq<nat>, key: seq<nat>, count: nat, middle: nat)
    requires HasRows(values, |key|, count) && Sorted(values, |key|, count) && middle < count
    requires Less(key, RowOf(values, |key|, count, middle))
    ensures forall i :: middle <= i < count ==> Less(key, RowOf(values, |key|, count, i))
  {
    hide Less;
    forall i | middle < i < count ensures Less(key, RowOf(values, |key|, count, i)) {
      LessTransitive(key, RowOf(values, |key|, count, middle), RowOf(values, |key|, count, i));
    }
  }

  lemma NoRow(values: seq<nat>, key: seq<nat>, count: nat, first: nat)
    requires HasRows(values, |key|, count) && first <= count
    requires forall i :: 0 <= i < first ==> Less(RowOf(values, |key|, count, i), key)
    requires forall i :: first <= i < count ==> Less(key, RowOf(values, |key|, count, i))
    ensures forall i :: 0 <= i < count ==> RowOf(values, |key|, count, i) != key
  {
    hide Less;
    forall i | 0 <= i < count ensures RowOf(values, |key|, count, i) != key {
      if i < first {
        LessIsStrict(RowOf(values, |key|, count, i), key);
      } else {
        LessIsStrict(key, RowOf(values, |key|, count, i));
      }
    }
  }

  function Middle(first: nat, last: nat): (m: nat)
    requires first < last
    ensures first <= m < last
  {
    first + (last - first) / 2
  }

  /** On a sorted table the search decides membership; an empty table selects everything. */
  method PlanSelectionContains(values: array<nat>, count: nat, key: seq<nat>) returns (found: bool)
    requires HasRows(values[..], |key|, count) && Sorted(values[..], |key|, count)
    ensures found <==> count == 0 || exists i :: 0 <= i < count && RowOf(values[..], |key|, count, i) == key
  {
    if count == 0 {
      return true;
    }
    hide Less, Sorted;
    var first, last := 0, count;
    while first < last
      invariant 0 <= first <= last <= count
      invariant forall i :: 0 <= i < first ==> Less(RowOf(values[..], |key|, count, i), key)
      invariant forall i :: last <= i < count ==> Less(key, RowOf(values[..], |key|, count, i))
    {
      var middle := Middle(first, last);
      var axis := Compare(values, count, middle, key);
      if axis == |key| {
        return true;
      }
      RowInside(|key|, middle, count);
      RowStart(|key|, middle);
      if values[middle * |key| + axis] < key[axis] {
        RowsBelow(values[..], key, count, middle);
        first := middle + 1;
      } else {
        RowsAbove(values[..], key, count, middle);
        last := middle;
      }
    }
    NoRow(values[..], key, count, first);
    found := false;
  }
}
