/** The canonical plan, written out and read again, is the same plan (src/instrumentation_plan.cpp). */
module PlanFixed {
  import opened Sequences
  import opened PlanText
  import opened PlanOrder
  import opened PlanMerge
  import opened PlanRead
  import opened PlanCanonical

  // ------------------------------------------------------------ writing

  function WriteObservation(o: Observation): RawObservation {
    match o
    case Registers(registers) => RawRegisters(Map(registers, Name))
    case MemoryAddress(mref) => RawMemoryAddress(mref)
    case MemoryValue(mref) => RawMemoryValue(mref)
    case Opcode => RawOpcode
    case Tma => RawTma
    case Delay(ns) => RawDelay(ns)
  }

  function WritePoint(p: Point): RawPoint {
    RawPoint(p.fn, HexPc(p.pc), p.bytes, if p.before then "before" else "after",
             if p.executed then "executed_lanes" else "reached_lanes", Map(p.observations, WriteObservation))
  }

  function WriteInteger(n: nat): int { n }

  function WriteTriple(t: (nat, nat, nat)): (int, int, int) { (t.0, t.1, t.2) }

  function WriteText(s: string): string { s }

  function WriteChoice<T, U>(c: Choice<U>, write: U -> T): Choice<T> {
    if c.All? then All else Only(Map(c.items, write))
  }

  function WriteConfig(c: Config): RawConfig {
    RawConfig(c.id, c.requests, WriteChoice(c.launches, WriteInteger), WriteChoice(c.ctas, WriteTriple),
              WriteChoice(c.warps, WriteInteger), WriteChoice(c.lanes, WriteInteger), c.maxRecords, c.maxBytes,
              Map(c.points, WritePoint))
  }

  function WriteKernel(k: Kernel): RawKernel {
    RawKernel(k.entry, k.target, k.sha, Map(k.configs, WriteConfig))
  }

  // ------------------------------------------------------------ lists

  /** A list that reading would leave as it is. */
  ghost predicate Settled<U(!new)>(list: seq<U>, key: U -> Key, maximum: nat) {
    0 < |list| <= maximum && Sorted(list, key)
  }

  lemma ReadListSettled<U(!new)>(read: seq<Option<U>>, key: U -> Key, maximum: nat)
    requires KeyOk(key) && ReadList(read, key, maximum).Some?
    ensures var list := ReadList(read, key, maximum).value;
            Settled(list, key, maximum) && forall u :: u in list ==> Some(u) in read
  {
    var list := ReadList(read, key, maximum).value;
    KeyInjective(Values(read), key);
    InOrderSorted(Values(read), key);
    forall u | u in list ensures Some(u) in read {
      assert u in Elements(list);
    }
    assert read[0] in read && read[0].value in Values(read);
    ValuesBound(read);
  }

  lemma ValuesBound<U>(read: seq<Option<U>>)
    ensures |Values(read)| <= |read|
  {
    if read != [] {
      var front, last := read[..|read| - 1], read[|read| - 1];
      assert read == front + [last];
      ValuesBound(front);
      assert Values(read) == Values(front) + (if last.Some? then {last.value} else {});
    }
  }

  /** Reading what was written from a settled list. */
  lemma ListRoundTrip<T(!new), U(!new)>(list: seq<U>, write: U -> T, read: T -> Option<U>, key: U -> Key, maximum: nat)
    requires KeyOk(key) && Settled(list, key, maximum) && forall u :: u in list ==> read(write(u)) == Some(u)
    ensures ReadList(Map(Map(list, write), read), key, maximum) == Some(list)
  {
    var again := Map(Map(list, write), read);
    Again(list, write, read);
    SortedOnce(list, key);
    IsInOrder(list, key);
    KeyInjective(Values(again), key);
  }

  lemma Again<T(!new), U(!new)>(list: seq<U>, write: U -> T, read: T -> Option<U>)
    requires forall u :: u in list ==> read(write(u)) == Some(u)
    ensures var again := Map(Map(list, write), read); None !in again && Values(again) == Elements(list) && |again| == |list|
  {
    var again := Map(Map(list, write), read);
    assert forall i :: 0 <= i < |list| ==> again[i] == Some(list[i]);
    forall u | u in Elements(list) ensures u in Values(again) {
      var i :| 0 <= i < |list| && list[i] == u;
      assert again[i] == Some(u);
    }
  }

  lemma {:induction false} SortedOnce<U(!new)>(list: seq<U>, key: U -> Key)
    requires Sorted(list, key)
    ensures |Elements(list)| == |list|
  {
    if list != [] {
      SortedHead(list, key);
      SortedOnce(list[1..], key);
      assert list[0] in Elements(list);
      assert |Elements(list)| == |Elements(list) - {list[0]}| + 1;
    }
  }

  lemma ChoiceRoundTrip<T(!new), U(!new)>(c: Choice<T>, write: U -> T, read: T -> Option<U>, key: U -> Key)
    requires KeyOk(key) && ReadChoice(c, read, key).Some?
    requires forall t :: read(t).Some? ==> read(write(read(t).value)) == read(t)
    ensures ReadChoice(WriteChoice(ReadChoice(c, read, key).value, write), read, key) == ReadChoice(c, read, key)
  {
    if c.Only? {
      var list := ReadList(Map(c.items, read), key, ARRAY_MAX).value;
      ReadListSettled(Map(c.items, read), key, ARRAY_MAX);
      forall u | u in list ensures read(write(u)) == Some(u) {
        var i :| 0 <= i < |c.items| && Map(c.items, read)[i] == Some(u);
        assert read(c.items[i]) == Some(u);
      }
      ListRoundTrip(list, write, read, key, ARRAY_MAX);
    }
  }

  // ------------------------------------------------------------ observations

  ghost predicate ObservationCanonical(o: Observation) {
    ReadObservation(WriteObservation(o)) == Some(o)
  }

  lemma {:induction false} ObservationRoundTrip(raw: RawObservation)
    requires ReadObservation(raw).Some?
    ensures ObservationCanonical(ReadObservation(raw).value)
  {
    hide ReadRegister, ReadList, KeyOk, NameKey, RegisterOk, Settled;
    KeysOk();
    if raw.RawRegisters? {
      var read := Map(raw.names, ReadRegister);
      ReadListSettled(read, NameKey, REGISTERS_MAX);
      var list := ReadList(read, NameKey, REGISTERS_MAX).value;
      forall u | u in list ensures RegisterOk(u) {
        var i :| 0 <= i < |read| && read[i] == Some(u);
        ReadRegisterOk(raw.names[i]);
      }
      RegistersCanonical(list);
    }
  }

  lemma RegistersCanonical(list: seq<Register>)
    requires Settled(list, NameKey, REGISTERS_MAX) && forall r :: r in list ==> RegisterOk(r)
    ensures ObservationCanonical(Registers(list))
  {
    KeysOk();
    forall r | r in list ensures ReadRegister(Name(r)) == Some(r) {
      RegisterRoundTrip(r);
    }
    ListRoundTrip(list, Name, ReadRegister, NameKey, REGISTERS_MAX);
  }

  lemma RegistersOfCanonical(o: Observation)
    requires ObservationCanonical(o) && o.Registers?
    ensures o.registers != [] && forall r :: r in o.registers ==> RegisterOk(r)
  {
    hide ReadRegister, Name, ReadList, KeyOk, NameKey, RegisterOk;
    KeysOk();
    var names := Map(o.registers, Name);
    var read := Map(names, ReadRegister);
    ReadListSettled(read, NameKey, REGISTERS_MAX);
    forall r | r in o.registers ensures RegisterOk(r) {
      var i :| 0 <= i < |read| && read[i] == Some(r);
      ReadRegisterOk(names[i]);
    }
  }

  lemma UnionCanonical(obs: set<Observation>, o: Observation)
    requires !MergeFails(obs) && o in Union(obs) && forall x :: x in obs ==> ObservationCanonical(x)
    ensures ObservationCanonical(o)
  {
    if o.Registers? {
      var registers := RegistersIn(obs);
      NamesInjective(registers);
      InOrderSorted(registers, NameKey);
      forall x | x in obs && x.Registers? ensures x.registers != [] && forall r :: r in x.registers ==> RegisterOk(r) {
        RegistersOfCanonical(x);
      }
      hide ObservationCanonical;
      var x :| x in obs && x.Registers?;
      assert x.registers[0] in registers;
      forall r | r in o.registers ensures RegisterOk(r) {
        assert r in Elements(o.registers);
      }
      RegistersCanonical(o.registers);
    }
  }

  // ------------------------------------------------------------ points

  ghost predicate PointCanonical(p: Point) {
    ReadPoint(WritePoint(p)) == Some(p)
  }

  /** Everything of a point but its observations. */
  predicate PlaceOk(p: Point) {
    IsText(p.fn) && p.pc <= UINT64_MAX && BytesOk(p.bytes)
  }

  lemma MergeCanonical(obs: set<Observation>, list: seq<Observation>)
    requires Merge(obs) == Some(list) && forall o :: o in obs ==> ObservationCanonical(o)
    ensures forall o :: o in list ==> ObservationCanonical(o)
  {
    UnionInjective(obs);
    forall o | o in list ensures ObservationCanonical(o) {
      assert o in Elements(list);
      UnionCanonical(obs, o);
    }
  }

  lemma PointWith(p: Point, obs: set<Observation>)
    requires PlaceOk(p) && obs != {} && Merge(obs) == Some(p.observations)
    requires forall o :: o in obs ==> ObservationCanonical(o)
    ensures PointCanonical(p)
  {
    hide Merge, ReadObservation, ReadPc, IsText, BytesOk, Values;
    MergeCanonical(obs, p.observations);
    Again(p.observations, WriteObservation, ReadObservation);
    MergeIsFixed(obs);
    ObservationsFit(obs);
    PcRoundTrip(p.pc);
  }

  lemma ObservationsFit(obs: set<Observation>)
    requires obs != {} && Merge(obs).Some?
    ensures 0 < |Merge(obs).value| <= OBSERVATIONS_MAX
  {
    UnionInjective(obs);
    var o :| o in obs;
    if o.Registers? {
      NamesInjective(RegistersIn(obs));
      assert Registers(InOrder(RegistersIn(obs), NameKey)) in Union(obs);
    } else {
      assert o in Union(obs);
    }
    assert Union(obs) != {};
  }

  lemma {:induction false} PointRoundTrip(raw: RawPoint)
    requires ReadPoint(raw).Some?
    ensures PointCanonical(ReadPoint(raw).value) && PlaceOk(ReadPoint(raw).value)
  {
    var read, p := Map(raw.observations, ReadObservation), ReadPoint(raw).value;
    forall o | o in Values(read) ensures ObservationCanonical(o) {
      var i :| 0 <= i < |read| && read[i] == Some(o);
      ObservationRoundTrip(raw.observations[i]);
    }
    assert read[0] in read && read[0].value in Values(read);
    hide Merge, ReadObservation;
    PointWith(p, Values(read));
  }

  // ------------------------------------------------------------ configurations

  lemma MergedCanonical(points: set<Point>, p: Point)
    requires !PointsFail(points) && p in points && forall q :: q in points ==> PointCanonical(q) && PlaceOk(q)
    ensures PointCanonical(MergedPoint(points, p)) && PlaceOk(MergedPoint(points, p))
  {
    var obs := ObservationsOf(AtKey(points, p));
    forall o | o in obs ensures ObservationCanonical(o) {
      var q :| q in AtKey(points, p) && o in q.observations;
      PointObservations(q);
    }
    PointObservations(p);
    assert p.observations[0] in obs;
    hide PointCanonical, ObservationCanonical, MergeFails, BytesOk, IsText, AtKey, ObservationsOf;
    PointWith(MergedPoint(points, p), obs);
  }

  lemma PointObservations(p: Point)
    requires PointCanonical(p)
    ensures p.observations != [] && (forall o :: o in p.observations ==> ObservationCanonical(o))
    ensures Merge(Elements(p.observations)) == Some(p.observations)
  {
    var written := Map(p.observations, WriteObservation);
    var read := Map(written, ReadObservation);
    hide Merge;
    forall o | o in Values(read) ensures ObservationCanonical(o) {
      var i :| 0 <= i < |read| && read[i] == Some(o);
      ObservationRoundTrip(written[i]);
    }
    hide ReadObservation;
    MergeCanonical(Values(read), p.observations);
    MergeIsFixed(Values(read));
  }

  /** Points that are each canonical and at different places merge to themselves. */
  lemma {:induction false} SettledPoints(list: seq<Point>)
    requires Sorted(list, PointKey) && forall p :: p in list ==> PointCanonical(p)
    ensures PointsOf(Elements(list)) == Some(list)
  {
    var points := Elements(list);
    IsInOrder(list, PointKey);
    hide PointCanonical, Merge, MergeFails, PointKey, Sorted;
    forall p | p in points ensures !MergeFails(ObservationsOf(AtKey(points, p))) && Merge(ObservationsOf(AtKey(points, p))) == Some(p.observations) {
      AloneAtKey(points, p);
      PointObservations(p);
      MergeSome(Elements(p.observations));
    }
    hide ObservationsOf, AtKey;
    SettledSet(points);
    MergedInjective(points);
  }

  lemma AloneAtKey(points: set<Point>, p: Point)
    requires Injective(points, PointKey) && p in points
    ensures ObservationsOf(AtKey(points, p)) == Elements(p.observations)
  {
    hide PointKey;
    assert AtKey(points, p) == {p};
  }

  lemma MergeSome(obs: set<Observation>)
    ensures Merge(obs).Some? ==> !MergeFails(obs)
  {
  }

  lemma SettledSet(points: set<Point>)
    requires Injective(points, PointKey)
    requires forall p :: p in points ==>
               !MergeFails(ObservationsOf(AtKey(points, p))) && Merge(ObservationsOf(AtKey(points, p))) == Some(p.observations)
    ensures !PointsFail(points) && MergedPoints(points) == points
  {
    hide Merge, ObservationsOf, AtKey, MergeFails, PointKey;
    forall p | p in points ensures MergedPoint(points, p) == p {
    }
  }

  lemma PointsSettled(read: seq<Option<Point>>)
    requires read != [] && None !in read && PointsOf(Values(read)).Some?
    requires forall p :: p in Values(read) ==> PointCanonical(p) && PlaceOk(p)
    ensures var list := PointsOf(Values(read)).value;
            0 < |list| <= |read| && Sorted(list, PointKey) && forall p :: p in list ==> PointCanonical(p)
  {
    var points, list := Values(read), PointsOf(Values(read)).value;
    hide PointCanonical, PlaceOk;
    MergedInjective(points);
    InOrderSorted(MergedPoints(points), PointKey);
    forall p | p in list ensures PointCanonical(p) {
      assert p in Elements(list);
      var q :| q in points && p == MergedPoint(points, q);
      MergedCanonical(points, q);
    }
    assert read[0] in read && read[0].value in points;
    assert MergedPoint(points, read[0].value) in MergedPoints(points);
    ValuesBound(read);
    ImageBound(points);
  }

  lemma ImageBound(points: set<Point>)
    requires !PointsFail(points)
    ensures |MergedPoints(points)| <= |points|
  {
    hide PointsFail, MergedPoint;
    ImageSize(points, points, MergedPoints(points));
  }

  /** An image is no larger than what it is the image of. */
  lemma {:induction false} ImageSize(all: set<Point>, points: set<Point>, image: set<Point>)
    requires points <= all && !PointsFail(all)
    requires image == set p | p in points :: MergedPoint(all, p)
    ensures |image| <= |points|
  {
    hide PointsFail, MergedPoint;
    if points == {} {
      assert image == {};
    } else {
      var p :| p in points;
      var rest := set q | q in points - {p} :: MergedPoint(all, q);
      ImageSize(all, points - {p}, rest);
      assert image == rest + {MergedPoint(all, p)};
      assert |points| == |points - {p}| + 1;
    }
  }

  ghost predicate ConfigCanonical(c: Config) {
    ReadConfig(WriteConfig(c)) == Some(c)
  }

  lemma ReadPointsCanonical(raws: seq<RawPoint>)
    ensures forall p :: p in Values(Map(raws, ReadPoint)) ==> PointCanonical(p) && PlaceOk(p)
  {
    var read := Map(raws, ReadPoint);
    forall p | p in Values(read) ensures PointCanonical(p) && PlaceOk(p) {
      var i :| 0 <= i < |read| && read[i] == Some(p);
      PointRoundTrip(raws[i]);
    }
  }

  lemma RequestsRoundTrip(raws: seq<string>)
    requires KeyOk(Chars) && ReadList(Map(raws, ReadText), Chars, ARRAY_MAX).Some?
    ensures var list := ReadList(Map(raws, ReadText), Chars, ARRAY_MAX).value;
            ReadList(Map(list, ReadText), Chars, ARRAY_MAX) == Some(list)
  {
    var list := ReadList(Map(raws, ReadText), Chars, ARRAY_MAX).value;
    ReadListSettled(Map(raws, ReadText), Chars, ARRAY_MAX);
    forall s | s in list ensures ReadText(WriteText(s)) == Some(s) {
      var i :| 0 <= i < |raws| && Map(raws, ReadText)[i] == Some(s);
    }
    ListRoundTrip(list, WriteText, ReadText, Chars, ARRAY_MAX);
    assert Map(list, WriteText) == list;
  }

  lemma ChoicesRoundTrip(c: RawConfig)
    requires KeyOk(IntegerKey) && KeyOk(TripleKey)
    ensures ChoiceFixed(c.launches, ReadInteger(0, EXACT_MAX)) && ChoiceFixed(c.warps, ReadInteger(0, EXACT_MAX))
    ensures ChoiceFixed(c.lanes, ReadInteger(0, 31))
    ensures var ctas := ReadChoice(c.ctas, ReadTriple, TripleKey);
            ctas.Some? ==> ReadChoice(WriteChoice(ctas.value, WriteTriple), ReadTriple, TripleKey) == ctas
  {
    if ReadChoice(c.launches, ReadInteger(0, EXACT_MAX), IntegerKey).Some? {
      ChoiceRoundTrip(c.launches, WriteInteger, ReadInteger(0, EXACT_MAX), IntegerKey);
    }
    if ReadChoice(c.warps, ReadInteger(0, EXACT_MAX), IntegerKey).Some? {
      ChoiceRoundTrip(c.warps, WriteInteger, ReadInteger(0, EXACT_MAX), IntegerKey);
    }
    if ReadChoice(c.lanes, ReadInteger(0, 31), IntegerKey).Some? {
      ChoiceRoundTrip(c.lanes, WriteInteger, ReadInteger(0, 31), IntegerKey);
    }
    if ReadChoice(c.ctas, ReadTriple, TripleKey).Some? {
      ChoiceRoundTrip(c.ctas, WriteTriple, ReadTriple, TripleKey);
    }
  }

  ghost predicate ChoiceFixed(c: Choice<int>, read: int -> Option<nat>)
    requires KeyOk(IntegerKey)
  {
    var again := ReadChoice(c, read, IntegerKey);
    again.Some? ==> ReadChoice(WriteChoice(again.value, WriteInteger), read, IntegerKey) == again
  }

  lemma {:induction false} PointsRoundTrip(raws: seq<RawPoint>)
    requires var read := Map(raws, ReadPoint); read != [] && None !in read && PointsOf(Values(read)).Some?
    ensures var list := PointsOf(Values(Map(raws, ReadPoint))).value;
            var again := Map(Map(list, WritePoint), ReadPoint);
            && 0 < |list| <= |raws| && |again| == |list| && None !in again && PointsOf(Values(again)) == Some(list)
  {
    var read := Map(raws, ReadPoint);
    ReadPointsCanonical(raws);
    hide ReadPoint, PlaceOk, Sorted, PointsOf;
    PointsSettled(read);
    var list := PointsOf(Values(read)).value;
    SettledPoints(list);
    Again(list, WritePoint, ReadPoint);
  }

  lemma {:induction false} ConfigRoundTrip(raw: RawConfig)
    requires ReadConfig(raw).Some?
    ensures ConfigCanonical(ReadConfig(raw).value) && |ReadConfig(raw).value.points| <= |raw.points|
  {
    KeysOk();
    hide ReadList, ReadChoice, ReadPoint, PointsOf, Values, WriteChoice, KeyOk, ReadInteger;
    ChoicesRoundTrip(raw);
    RequestsRoundTrip(raw.requests);
    PointsRoundTrip(raw.points);
  }
}
