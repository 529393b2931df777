/** Merging the observations of one point (src/instrumentation_plan.cpp): what is merged depends only on the set of
    observations, and failing is for good. */
module PlanMerge {
  import opened Sequences
  import opened PlanText
  import opened PlanOrder

  const OBSERVATIONS_MAX: nat := 512
  const REGISTERS_MAX: nat := 512

  datatype Observation =
    | Registers(registers: seq<Register>)
    | MemoryAddress(mref: nat)
    | MemoryValue(mref: nat)
    | Opcode
    | Tma
    | Delay(ns: nat)

  // ------------------------------------------------------------ keys

  function Chars(s: string): (k: Key)
    ensures |k| == |s| && forall i :: 0 <= i < |s| ==> k[i] == s[i] as nat
  {
    seq(|s|, i requires 0 <= i < |s| => s[i] as nat)
  }

  lemma CharsDistinct(a: string, b: string)
    requires Chars(a) == Chars(b)
    ensures a == b
  {
    forall i | 0 <= i < |a| ensures a[i] == b[i] {
      assert Chars(a)[i] == Chars(b)[i];
    }
  }

  function NameKey(r: Register): Key { Chars(Name(r)) }

  lemma NamesInjective(s: set<Register>)
    ensures Injective(s, NameKey)
  {
    forall a, b | a in s && b in s && NameKey(a) == NameKey(b) ensures a == b {
      CharsDistinct(Name(a), Name(b));
      NamesDistinct(a, b);
    }
  }

  function Quoted(names: seq<Register>): string {
    if names == [] then ""
    else if |names| == 1 then "\"" + Name(names[0]) + "\""
    else "\"" + Name(names[0]) + "\"," + Quoted(names[1..])
  }

  const REGISTERS := "{\"kind\":\"reg_trace\",\"registers\":["
  const MREF_ADDRESS := "{\"kind\":\"mem_addr_trace\",\"mref\":"
  const MREF_VALUE := "{\"kind\":\"mem_value_trace\",\"mref\":"
  const DELAY := "{\"delay_ns\":"
  const DELAY_END := ",\"kind\":\"random_delay\"}"

  /** The compact JSON text of an observation, by which observations are sorted. */
  function Encode(o: Observation): string {
    match o
    case Registers(registers) => REGISTERS + Quoted(registers) + "]}"
    case MemoryAddress(mref) => MREF_ADDRESS + Show(mref, 10) + "}"
    case MemoryValue(mref) => MREF_VALUE + Show(mref, 10) + "}"
    case Opcode => "{\"kind\":\"opcode_only\"}"
    case Tma => "{\"kind\":\"tma_trace\"}"
    case Delay(ns) => DELAY + Show(ns, 10) + DELAY_END
  }

  function EncodeKey(o: Observation): Key { Chars(Encode(o)) }

  /** Where the texts of different kinds differ: places 2, 9 and 13. */
  function Shape(o: Observation): (char, char, char) {
    match o
    case Delay(_) => ('d', ' ', ' ')
    case Registers(_) => ('k', 'r', ' ')
    case MemoryAddress(_) => ('k', 'm', 'a')
    case MemoryValue(_) => ('k', 'm', 'v')
    case Opcode => ('k', 'o', ' ')
    case Tma => ('k', 't', ' ')
  }

  /** The first places of a text are those of its head. */
  lemma HeadFirst(head: string, middle: string, tail: string)
    ensures var all := head + middle + tail; |all| >= |head| && forall i :: 0 <= i < |head| ==> all[i] == head[i]
  {
  }

  lemma RegistersShape()
    ensures |REGISTERS| > 13 && REGISTERS[2] == 'k' && REGISTERS[9] == 'r'
  {
  }

  lemma AddressShape()
    ensures |MREF_ADDRESS| > 13 && MREF_ADDRESS[2] == 'k' && MREF_ADDRESS[9] == 'm' && MREF_ADDRESS[13] == 'a'
  {
  }

  lemma ValueShape()
    ensures |MREF_VALUE| > 13 && MREF_VALUE[2] == 'k' && MREF_VALUE[9] == 'm' && MREF_VALUE[13] == 'v'
  {
  }

  lemma DelayShape()
    ensures |DELAY| > 2 && DELAY[2] == 'd' && |DELAY_END| > 13
  {
  }

  lemma PlainShape(o: Observation)
    requires o.Opcode? || o.Tma?
    ensures |Encode(o)| > 13 && Encode(o)[2] == 'k' && Encode(o)[9] == Shape(o).1
  {
  }

  lemma EncodeShape(o: Observation)
    ensures |Encode(o)| > 13 && Encode(o)[2] == Shape(o).0
    ensures Shape(o).1 != ' ' ==> Encode(o)[9] == Shape(o).1
    ensures Shape(o).2 != ' ' ==> Encode(o)[13] == Shape(o).2
  {
    match o
    case Registers(registers) => RegistersHead(registers);
    case MemoryAddress(mref) => AddressHead(mref);
    case MemoryValue(mref) => ValueHead(mref);
    case Opcode => PlainShape(o);
    case Tma => PlainShape(o);
    case Delay(ns) => DelayHead(ns);
    hide Encode;
  }

  lemma RegistersHead(registers: seq<Register>)
    ensures var t := Encode(Registers(registers)); |t| > 13 && t[2] == 'k' && t[9] == 'r'
  {
    hide Quoted;
    RegistersShape();
    HeadFirst(REGISTERS, Quoted(registers), "]}");
  }

  lemma AddressHead(mref: nat)
    ensures var t := Encode(MemoryAddress(mref)); |t| > 13 && t[2] == 'k' && t[9] == 'm' && t[13] == 'a'
  {
    hide Show;
    AddressShape();
    HeadFirst(MREF_ADDRESS, Show(mref, 10), "}");
  }

  lemma ValueHead(mref: nat)
    ensures var t := Encode(MemoryValue(mref)); |t| > 13 && t[2] == 'k' && t[9] == 'm' && t[13] == 'v'
  {
    hide Show;
    ValueShape();
    HeadFirst(MREF_VALUE, Show(mref, 10), "}");
  }

  lemma DelayHead(ns: nat)
    ensures var t := Encode(Delay(ns)); |t| > 13 && t[2] == 'd'
  {
    hide Show;
    DelayShape();
    HeadFirst(DELAY, Show(ns, 10), DELAY_END);
  }

  lemma Between(head: string, a: string, b: string, tail: string)
    requires head + a + tail == head + b + tail
    ensures a == b
  {
    assert a == (head + a + tail)[|head|..|head| + |a|];
    assert |head + a + tail| == |head + b + tail|;
    assert b == (head + b + tail)[|head|..|head| + |b|];
  }

  lemma ShowDistinct(m: nat, n: nat)
    requires Show(m, 10) == Show(n, 10)
    ensures m == n
  {
    ValueOfShow(m, 10);
    ValueOfShow(n, 10);
  }

  lemma {:induction false} EncodeDistinct(a: Observation, b: Observation)
    requires Encode(a) == Encode(b) && !(a.Registers? && b.Registers?)
    ensures a == b
  {
    EncodeShape(a);
    EncodeShape(b);
    hide Show, Quoted;
    match a
    case MemoryAddress(m) =>
      Between(MREF_ADDRESS, Show(m, 10), Show(b.mref, 10), "}");
      ShowDistinct(m, b.mref);
    case MemoryValue(m) =>
      Between(MREF_VALUE, Show(m, 10), Show(b.mref, 10), "}");
      ShowDistinct(m, b.mref);
    case Delay(m) =>
      Between(DELAY, Show(m, 10), Show(b.ns, 10), DELAY_END);
      ShowDistinct(m, b.ns);
    case _ =>
  }

  // ------------------------------------------------------------ what a merge is

  ghost function RegistersIn(obs: set<Observation>): set<Register> {
    set o, r | o in obs && o.Registers? && r in o.registers :: r
  }

  ghost predicate HasRegisters(obs: set<Observation>) {
    exists o :: o in obs && o.Registers?
  }

  function Others(obs: set<Observation>): set<Observation> {
    set o | o in obs && !o.Registers?
  }

  /** All register observations become one; the others stay. */
  ghost function Union(obs: set<Observation>): set<Observation> {
    NamesInjective(RegistersIn(obs));
    Others(obs) + (if HasRegisters(obs) then {Registers(InOrder(RegistersIn(obs), NameKey))} else {})
  }

  ghost predicate DelaysConflict(obs: set<Observation>) {
    exists d, e :: d in obs && e in obs && d.Delay? && e.Delay? && d != e
  }

  ghost predicate MergeFails(obs: set<Observation>) {
    |RegistersIn(obs)| > REGISTERS_MAX || DelaysConflict(obs) || |Union(obs)| > OBSERVATIONS_MAX
  }

  lemma UnionInjective(obs: set<Observation>)
    ensures Injective(Union(obs), EncodeKey)
  {
    forall a, b | a in Union(obs) && b in Union(obs) && EncodeKey(a) == EncodeKey(b) ensures a == b {
      CharsDistinct(Encode(a), Encode(b));
      if !(a.Registers? && b.Registers?) {
        EncodeDistinct(a, b);
      }
    }
  }

  /** The merged observations of a point, sorted by their text. */
  ghost function Merge(obs: set<Observation>): Option<seq<Observation>> {
    if MergeFails(obs) then None
    else
      UnionInjective(obs);
      Some(InOrder(Union(obs), EncodeKey))
  }

  // ------------------------------------------------------------ its algebra

  lemma RegistersJoin(a: set<Observation>, b: set<Observation>)
    ensures RegistersIn(a + b) == RegistersIn(a) + RegistersIn(b)
    ensures HasRegisters(a + b) <==> HasRegisters(a) || HasRegisters(b)
    ensures Others(a + b) == Others(a) + Others(b)
  {
  }

  lemma UnionSeesOthers(obs: set<Observation>)
    ensures HasRegisters(Union(obs)) <==> HasRegisters(obs)
    ensures Others(Union(obs)) == Others(obs)
  {
    hide RegistersIn;
    NamesInjective(RegistersIn(obs));
    var r := Registers(InOrder(RegistersIn(obs), NameKey));
    assert HasRegisters(obs) ==> r in Union(obs);
  }

  lemma UnionSeesRegisters(obs: set<Observation>)
    ensures RegistersIn(Union(obs)) == RegistersIn(obs)
  {
    hide NameKey;
    NamesInjective(RegistersIn(obs));
    var rs := InOrder(RegistersIn(obs), NameKey);
    assert Elements(rs) == RegistersIn(obs);
    if HasRegisters(obs) {
      assert Registers(rs) in Union(obs);
      forall x | x in RegistersIn(obs) ensures x in RegistersIn(Union(obs)) {
        assert x in Elements(rs);
      }
    }
  }

  /** Merging loses nothing that a later merge would see. */
  lemma UnionSees(obs: set<Observation>)
    ensures RegistersIn(Union(obs)) == RegistersIn(obs)
    ensures HasRegisters(Union(obs)) <==> HasRegisters(obs)
    ensures Others(Union(obs)) == Others(obs)
  {
    UnionSeesOthers(obs);
    UnionSeesRegisters(obs);
  }

  lemma {:induction false} UnionJoin(a: set<Observation>, b: set<Observation>)
    ensures Union(Union(a) + b) == Union(a + b)
    ensures RegistersIn(Union(a) + b) == RegistersIn(a + b)
  {
    UnionSees(a);
    RegistersJoin(a, b);
    RegistersJoin(Union(a), b);
    hide RegistersIn, HasRegisters, Others;
  }

  lemma DelaysJoin(a: set<Observation>, b: set<Observation>)
    ensures DelaysConflict(Union(a) + b) <==> DelaysConflict(a + b)
  {
    assert forall d: Observation :: d.Delay? ==> (d in Union(a) <==> d in a);
  }

  lemma SubsetSize<T>(a: set<T>, b: set<T>)
    requires a <= b
    ensures |a| <= |b|
  {
    assert b == a + (b - a);
  }

  lemma UnionSize(obs: set<Observation>)
    ensures |Union(obs)| == |Others(obs)| + (if HasRegisters(obs) then 1 else 0)
  {
    NamesInjective(RegistersIn(obs));
    if HasRegisters(obs) {
      assert Registers(InOrder(RegistersIn(obs), NameKey)) !in Others(obs);
    } else {
      assert Union(obs) == Others(obs);
    }
  }

  /** Once a merge has failed, nothing more can mend it. */
  lemma {:induction false} FailureStays(a: set<Observation>, b: set<Observation>)
    requires MergeFails(a) && a <= b
    ensures MergeFails(b)
  {
    assert a + b == b;
    RegistersJoin(a, b);
    SubsetSize(RegistersIn(a), RegistersIn(b));
    SubsetSize(Others(a), Others(b));
    UnionSize(a);
    UnionSize(b);
    hide RegistersIn, Others, Union, HasRegisters;
  }

  /** Associative, with failure absorbing; commutative and idempotent as a function of a set. */
  lemma {:induction false} MergeAssociative(a: set<Observation>, b: set<Observation>)
    ensures Merge(a + b) == match Merge(a) case None => None case Some(list) => Merge(Elements(list) + b)
  {
    UnionInjective(a);
    UnionInjective(a + b);
    if MergeFails(a) {
      FailureStays(a, a + b);
    } else {
      UnionJoin(a, b);
      DelaysJoin(a, b);
      hide RegistersIn, DelaysConflict, Union;
    }
  }

  lemma {:induction false} MergeIsFixed(obs: set<Observation>)
    requires Merge(obs).Some?
    ensures Merge(Elements(Merge(obs).value)) == Merge(obs)
  {
    hide Merge;
    MergeAssociative(obs, {});
    assert obs + {} == obs;
    assert Elements(Merge(obs).value) + {} == Elements(Merge(obs).value);
  }

  // ------------------------------------------------------------ the loop

  /** Observations with one key are merged. */
  function KeyOf(o: Observation): (nat, nat) {
    match o
    case Registers(_) => (0, 0)
    case MemoryAddress(mref) => (1, mref)
    case MemoryValue(mref) => (2, mref)
    case Opcode => (3, 0)
    case Tma => (4, 0)
    case Delay(_) => (5, 0)
  }

  /** As read from a plan: registers within the limit, each once, by name. */
  ghost predicate ObservationOk(o: Observation) {
    NamesInjective(Elements(if o.Registers? then o.registers else []));
    o.Registers? ==> |o.registers| <= REGISTERS_MAX && o.registers == InOrder(Elements(o.registers), NameKey)
  }

  /** The list holds the union of `obs`, each element once. */
  ghost predicate Lists(list: seq<Observation>, obs: set<Observation>) {
    !MergeFails(obs) && Elements(list) == Union(obs) && |list| == |Union(obs)|
  }

  ghost predicate PositionsOk(positions: map<(nat, nat), nat>, list: seq<Observation>) {
    && (forall j :: 0 <= j < |list| ==> KeyOf(list[j]) in positions && positions[KeyOf(list[j])] == j)
    && (forall k :: k in positions ==> positions[k] < |list| && KeyOf(list[positions[k]]) == k)
  }

  lemma KeysDistinct(obs: set<Observation>)
    requires !DelaysConflict(obs)
    ensures forall a, b :: a in Union(obs) && b in Union(obs) && KeyOf(a) == KeyOf(b) ==> a == b
  {
  }

  lemma SingleRegisters(c: Observation)
    ensures RegistersIn({c}) == (if c.Registers? then Elements(c.registers) else {})
    ensures HasRegisters({c}) <==> c.Registers?
    ensures Others({c}) == if c.Registers? then {} else {c}
  {
    if c.Registers? {
      assert forall r :: r in c.registers <==> r in Elements(c.registers);
    }
  }

  lemma NewOther(obs: set<Observation>, c: Observation)
    requires !c.Registers? && c !in Union(obs)
    ensures Union(obs + {c}) == Union(obs) + {c} && RegistersIn(obs + {c}) == RegistersIn(obs)
  {
    SingleRegisters(c);
    RegistersJoin(obs, {c});
    hide RegistersIn, HasRegisters, Others;
    assert RegistersIn(obs + {c}) == RegistersIn(obs);
  }

  lemma NewRegisters(obs: set<Observation>, c: Observation)
    requires c.Registers? && ObservationOk(c) && !HasRegisters(obs)
    ensures Union(obs + {c}) == Union(obs) + {c} && RegistersIn(obs + {c}) == Elements(c.registers)
    ensures |Union(obs + {c})| == |Union(obs)| + 1
  {
    assert RegistersIn(obs) == {};
    assert c !in Others(obs);
    UnionSize(obs);
    UnionSize(obs + {c});
    SingleRegisters(c);
    RegistersJoin(obs, {c});
    hide RegistersIn, HasRegisters, Others;
    assert Others(obs + {c}) == Others(obs);
    NamesInjective(Elements(c.registers));
    assert Union(obs) == Others(obs);
  }

  lemma NewKey(obs: set<Observation>, c: Observation)
    requires !MergeFails(obs) && ObservationOk(c) && forall o :: o in Union(obs) ==> KeyOf(o) != KeyOf(c)
    ensures Union(obs + {c}) == Union(obs) + {c} && |Union(obs + {c})| == |Union(obs)| + 1
    ensures |RegistersIn(obs + {c})| <= REGISTERS_MAX && !DelaysConflict(obs + {c})
  {
    hide Union, RegistersIn, HasRegisters, DelaysConflict, ObservationOk;
    NewDelays(obs, c);
    if c.Registers? {
      NoRegisters(obs, c);
      NewRegisters(obs, c);
      RegistersCount(c);
    } else {
      assert c !in Union(obs);
      NewOther(obs, c);
      assert |Union(obs) + {c}| == |Union(obs)| + 1;
    }
  }

  lemma RegistersCount(c: Observation)
    requires c.Registers? && ObservationOk(c)
    ensures |Elements(c.registers)| <= REGISTERS_MAX
  {
    NamesInjective(Elements(c.registers));
  }

  lemma NewDelays(obs: set<Observation>, c: Observation)
    requires !DelaysConflict(obs) && forall o :: o in Union(obs) ==> KeyOf(o) != KeyOf(c)
    ensures !DelaysConflict(obs + {c})
  {
    assert forall d :: d in obs && d.Delay? ==> d in Union(obs);
    hide Union;
  }

  lemma NoRegisters(obs: set<Observation>, c: Observation)
    requires c.Registers? && forall o :: o in Union(obs) ==> KeyOf(o) != KeyOf(c)
    ensures !HasRegisters(obs)
  {
    NamesInjective(RegistersIn(obs));
    var r := Registers(InOrder(RegistersIn(obs), NameKey));
    assert HasRegisters(obs) ==> r in Union(obs);
    assert KeyOf(r) == KeyOf(c);
  }

  lemma OldRegisters(obs: set<Observation>, c: Observation, prior: Observation)
    requires c.Registers? && prior.Registers? && prior in Union(obs)
    ensures Elements(prior.registers) == RegistersIn(obs)
    ensures Union(obs + {c}) == Union(obs) - {prior} + Merged(RegistersIn(obs) + Elements(c.registers))
    ensures RegistersIn(obs + {c}) == RegistersIn(obs) + Elements(c.registers)
    ensures DelaysConflict(obs + {c}) <==> DelaysConflict(obs)
  {
    hide DelaysConflict, NameKey, RegistersIn, HasRegisters, Others, InOrder;
    NoMoreDelays(obs, c);
    SingleRegisters(c);
    RegistersJoin(obs, {c});
    TheRegisters(obs, prior);
    assert Others(obs) + {} == Others(obs);
  }

  /** The one register observation of a union, and the rest of it. */
  lemma TheRegisters(obs: set<Observation>, prior: Observation)
    requires prior.Registers? && prior in Union(obs)
    ensures HasRegisters(obs) && Elements(prior.registers) == RegistersIn(obs) && Union(obs) - {prior} == Others(obs)
  {
    hide RegistersIn, NameKey;
    NamesInjective(RegistersIn(obs));
  }

  lemma NoMoreDelays(obs: set<Observation>, c: Observation)
    requires !c.Delay?
    ensures DelaysConflict(obs + {c}) <==> DelaysConflict(obs)
  {
  }

  ghost function Merged(registers: set<Register>): set<Observation> {
    NamesInjective(registers);
    {Registers(InOrder(registers, NameKey))}
  }

  lemma OldOther(obs: set<Observation>, c: Observation, prior: Observation)
    requires !c.Registers? && prior in Union(obs) && KeyOf(prior) == KeyOf(c)
    ensures c == prior ==> Union(obs + {c}) == Union(obs) && (MergeFails(obs + {c}) <==> MergeFails(obs))
    ensures c != prior ==> MergeFails(obs + {c})
  {
    assert prior in obs;
    if c == prior {
      assert obs + {c} == obs;
    } else {
      assert DelaysConflict(obs + {c});
    }
  }

  lemma Replaced<T>(s: seq<T>, j: nat, x: T)
    requires j < |s| && (forall i, k :: 0 <= i < k < |s| ==> s[i] != s[k]) && x !in Elements(s) - {s[j]}
    ensures Elements(s[j := x]) == Elements(s) - {s[j]} + {x}
  {
    forall y | y in Elements(s) - {s[j]} + {x} ensures y in s[j := x] {
      if y == x {
        assert s[j := x][j] == x;
      } else {
        var i :| 0 <= i < |s| && s[i] == y;
        assert s[j := x][i] == y;
      }
    }
  }

  /** Two loops over the incoming observations and the registers of one of them, as the program has them. */
  method MergeObservations(dest: seq<Observation>, incoming: seq<Observation>) returns (r: Option<seq<Observation>>)
    requires dest == [] || Merge(Elements(dest)) == Some(dest)
    requires forall i :: 0 <= i < |incoming| ==> ObservationOk(incoming[i])
    ensures r == Merge(Elements(dest) + Elements(incoming))
  {
    hide Union, MergeFails, ObservationOk, PositionsOk, Lists, Elements;
    ghost var all := Elements(dest) + Elements(incoming);
    ghost var seen := Elements(dest);
    StartLists(dest);
    assert Elements(incoming[..0]) == {} by { NoElements(incoming[..0]); }
    var list := dest;
    var positions := FindPositions(dest);
    for i := 0 to |incoming|
      invariant seen == Elements(dest) + Elements(incoming[..i])
      invariant Lists(list, seen) && PositionsOk(positions, list)
    {
      var c := incoming[i];
      var added;
      added, list, positions := MergeOne(list, positions, c, seen);
      SeenMore(dest, incoming, i);
      seen := seen + {c};
      if !added {
        FailureStays(seen, all);
        return None;
      }
    }
    assert incoming[..|incoming|] == incoming;
    ListsMerge(list, seen);
    var sorted := Arrange(Elements(list), EncodeKey);
    r := Some(sorted);
  }

  lemma ListsMerge(list: seq<Observation>, obs: set<Observation>)
    requires Lists(list, obs)
    ensures Injective(Elements(list), EncodeKey) && Merge(obs) == Some(InOrder(Elements(list), EncodeKey))
  {
    UnionInjective(obs);
    hide Union, MergeFails;
  }

  lemma SeenMore(dest: seq<Observation>, incoming: seq<Observation>, i: nat)
    requires i < |incoming|
    ensures Elements(dest) + Elements(incoming[..i + 1]) == Elements(dest) + Elements(incoming[..i]) + {incoming[i]}
    ensures Elements(dest) + Elements(incoming[..i + 1]) <= Elements(dest) + Elements(incoming)
  {
    assert incoming[..i + 1] == incoming[..i] + [incoming[i]];
  }

  lemma StartLists(dest: seq<Observation>)
    requires dest == [] || Merge(Elements(dest)) == Some(dest)
    ensures Lists(dest, Elements(dest))
  {
    if dest == [] {
      assert RegistersIn(Elements(dest)) == {} && Union(Elements(dest)) == {};
    } else {
      UnionInjective(Elements(dest));
    }
  }

  lemma ListsOnce(list: seq<Observation>, obs: set<Observation>)
    requires Lists(list, obs)
    ensures forall i, j :: 0 <= i < j < |list| ==> list[i] != list[j] && KeyOf(list[i]) != KeyOf(list[j])
  {
    KeysDistinct(obs);
    NoRepeats(list);
    hide Union, MergeFails, DelaysConflict;
  }

  lemma {:induction false} NoRepeats<T>(s: seq<T>)
    requires |Elements(s)| == |s|
    ensures forall i, j :: 0 <= i < j < |s| ==> s[i] != s[j]
  {
    if s != [] {
      var front, last := s[..|s| - 1], s[|s| - 1];
      assert s == front + [last];
      assert Elements(s) == Elements(front) + {last};
      ElementsBound(front);
      NoRepeats(front);
    }
  }

  lemma {:induction false} ElementsBound<T>(s: seq<T>)
    ensures |Elements(s)| <= |s|
  {
    if s != [] {
      var front, last := s[..|s| - 1], s[|s| - 1];
      assert s == front + [last];
      assert Elements(s) == Elements(front) + {last};
      ElementsBound(front);
    }
  }

  method FindPositions(dest: seq<Observation>) returns (positions: map<(nat, nat), nat>)
    requires Lists(dest, Elements(dest))
    ensures PositionsOk(positions, dest)
  {
    hide PositionsOk, KeyOf;
    ListsOnce(dest, Elements(dest));
    positions := map[];
    NoPositions();
    for i := 0 to |dest|
      invariant PositionsOk(positions, dest[..i])
    {
      assert dest[..i + 1] == dest[..i] + [dest[i]];
      PositionsMore(positions, dest[..i], dest[i]);
      if KeyOf(dest[i]) !in positions {
        positions := positions[KeyOf(dest[i]) := i];
      }
    }
    assert dest[..|dest|] == dest;
  }

  lemma NoPositions()
    ensures PositionsOk(map[], [])
  {
  }

  lemma PositionsMore(positions: map<(nat, nat), nat>, list: seq<Observation>, c: Observation)
    requires PositionsOk(positions, list) && forall j :: 0 <= j < |list| ==> KeyOf(list[j]) != KeyOf(c)
    ensures KeyOf(c) !in positions && PositionsOk(positions[KeyOf(c) := |list|], list + [c])
  {
    hide KeyOf;
  }

  /** One candidate; false where the program fails. */
  method MergeOne(list: seq<Observation>, positions: map<(nat, nat), nat>, c: Observation, ghost obs: set<Observation>)
    returns (ok: bool, l: seq<Observation>, p: map<(nat, nat), nat>)
    requires Lists(list, obs) && PositionsOk(positions, list) && ObservationOk(c)
    ensures ok ==> Lists(l, obs + {c}) && PositionsOk(p, l)
    ensures !ok ==> MergeFails(obs + {c})
  {
    l, p := list, positions;
    hide ObservationOk, MergeFails, Union;
    if KeyOf(c) !in positions {
      NewPlace(list, positions, c, obs);
      if |list| >= OBSERVATIONS_MAX {
        return false, l, p;
      }
      return true, list + [c], positions[KeyOf(c) := |list|];
    }
    var j := positions[KeyOf(c)];
    if list[j].Registers? {
      ok, l := MergeRegisters(list, j, c, obs);
      return;
    }
    assert list[j] in Elements(list);
    OldOther(obs, c, list[j]);
    ok := !(list[j].Delay? && list[j].ns != c.ns);
  }

  lemma NewPlace(list: seq<Observation>, positions: map<(nat, nat), nat>, c: Observation, obs: set<Observation>)
    requires Lists(list, obs) && PositionsOk(positions, list) && ObservationOk(c) && KeyOf(c) !in positions
    ensures |list| >= OBSERVATIONS_MAX ==> MergeFails(obs + {c})
    ensures |list| < OBSERVATIONS_MAX ==> Lists(list + [c], obs + {c})
    ensures PositionsOk(positions[KeyOf(c) := |list|], list + [c])
  {
    hide Union, RegistersIn, DelaysConflict, ObservationOk, PositionsOk;
    KeysElsewhere(list, positions, c);
    assert forall o :: o in Union(obs) ==> o in Elements(list);
    NewKey(obs, c);
    NewPosition(list, positions, c);
    assert Elements(list + [c]) == Elements(list) + {c};
  }

  lemma KeysElsewhere(list: seq<Observation>, positions: map<(nat, nat), nat>, c: Observation)
    requires PositionsOk(positions, list) && KeyOf(c) !in positions
    ensures forall o :: o in Elements(list) ==> KeyOf(o) != KeyOf(c)
  {
    hide KeyOf;
  }

  lemma NewPosition(list: seq<Observation>, positions: map<(nat, nat), nat>, c: Observation)
    requires PositionsOk(positions, list) && KeyOf(c) !in positions
    ensures PositionsOk(positions[KeyOf(c) := |list|], list + [c])
  {
    hide KeyOf;
  }

  method MergeRegisters(list: seq<Observation>, j: nat, c: Observation, ghost obs: set<Observation>)
    returns (ok: bool, l: seq<Observation>)
    requires Lists(list, obs) && j < |list| && list[j].Registers? && c.Registers?
    ensures ok ==> Lists(l, obs + {c}) && |l| == |list| && forall i :: 0 <= i < |l| ==> KeyOf(l[i]) == KeyOf(list[i])
    ensures !ok ==> MergeFails(obs + {c})
  {
    hide Union, RegistersIn, DelaysConflict;
    l := list;
    var registers := Elements(list[j].registers) + Elements(c.registers);
    assert list[j] in Elements(list);
    OldRegisters(obs, c, list[j]);
    if |registers| > REGISTERS_MAX {
      return false, l;
    }
    NamesInjective(registers);
    var sorted := Arrange(registers, NameKey);
    l := list[j := Registers(sorted)];
    ListsOnce(list, obs);
    RegistersReplaced(list, j, sorted, obs);
    SameSize(obs, c);
    return true, l;
  }

  lemma SameSize(obs: set<Observation>, c: Observation)
    requires c.Registers? && HasRegisters(obs)
    ensures |Union(obs + {c})| == |Union(obs)|
  {
    UnionSize(obs);
    UnionSize(obs + {c});
    SingleRegisters(c);
    RegistersJoin(obs, {c});
    assert Others(obs) + {} == Others(obs);
    hide Union, RegistersIn, Others;
  }

  lemma RegistersReplaced(list: seq<Observation>, j: nat, sorted: seq<Register>, obs: set<Observation>)
    requires Lists(list, obs) && j < |list| && list[j].Registers?
    requires forall i, k :: 0 <= i < k < |list| ==> list[i] != list[k] && KeyOf(list[i]) != KeyOf(list[k])
    ensures Elements(list[j := Registers(sorted)]) == Elements(list) - {list[j]} + {Registers(sorted)}
    ensures HasRegisters(obs)
  {
    forall o | o in Elements(list) - {list[j]} ensures !o.Registers? {
      var i :| 0 <= i < |list| && list[i] == o;
      assert KeyOf(list[i]) != KeyOf(list[j]);
    }
    Replaced(list, j, Registers(sorted));
    assert list[j] in Union(obs);
  }
}
