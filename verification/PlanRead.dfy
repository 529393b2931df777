/** Reading a plan (src/instrumentation_plan.cpp): from parsed JSON values to the canonical plan.

    Objects have the fields the program demands; what is left to check is their values.  None is any failure. */
module PlanRead {
  import opened Sequences
  import opened PlanText
  import opened PlanOrder
  import opened PlanMerge

  const EXACT_MAX: nat := 0x1f_ffff_ffff_ffff
  const ARRAY_MAX: nat := 65536
  const POINTS_MAX: nat := 65536
  const CONFIGS_MAX: nat := 4096
  const KERNELS_MAX: nat := 256

  // ------------------------------------------------------------ what is read

  datatype RawObservation =
    | RawRegisters(names: seq<string>)
    | RawMemoryAddress(mref: int)
    | RawMemoryValue(mref: int)
    | RawDelay(ns: int)
    | RawOpcode
    | RawTma
    | RawUnknown

  datatype RawPoint = RawPoint(fn: string, pc: string, bytes: string, phase: string, policy: string,
                               observations: seq<RawObservation>)

  /** "all", or a list. */
  datatype Choice<T> = All | Only(items: seq<T>)

  datatype RawConfig = RawConfig(id: string, requests: seq<string>, launches: Choice<int>, ctas: Choice<(int, int, int)>,
                                 warps: Choice<int>, lanes: Choice<int>, maxRecords: int, maxBytes: int, points: seq<RawPoint>)

  datatype RawKernel = RawKernel(entry: string, target: string, sha: string, configs: seq<RawConfig>)

  // ------------------------------------------------------------ the canonical plan

  datatype Point = Point(fn: string, pc: nat, bytes: string, before: bool, executed: bool, observations: seq<Observation>)

  datatype Config = Config(id: string, requests: seq<string>, launches: Choice<nat>, ctas: Choice<(nat, nat, nat)>,
                           warps: Choice<nat>, lanes: Choice<nat>, maxRecords: nat, maxBytes: nat, points: seq<Point>)

  datatype Kernel = Kernel(entry: string, target: string, sha: string, configs: seq<Config>)

  // ------------------------------------------------------------ lists without repetition

  ghost predicate KeyOk<T(!new)>(key: T -> Key) {
    forall x, y :: key(x) == key(y) ==> x == y
  }

  lemma KeyInjective<T(!new)>(s: set<T>, key: T -> Key)
    requires KeyOk(key)
    ensures Injective(s, key)
  {
  }

  /** The values of a list of readings. */
  function Values<U>(read: seq<Option<U>>): set<U> {
    set o | o in read && o.Some? :: o.value
  }

  /** A nonempty bounded list: every item readable, no value twice; sorted. */
  ghost function ReadList<U(!new)>(read: seq<Option<U>>, key: U -> Key, maximum: nat): Option<seq<U>>
    requires KeyOk(key)
  {
    if read == [] || |read| > maximum || None in read || |Values(read)| < |read| then None
    else
      KeyInjective(Values(read), key);
      Some(InOrder(Values(read), key))
  }

  function ReadInteger(low: nat, high: nat): int -> Option<nat> {
    (n: int) => if low <= n <= high then Some(n) else None
  }

  function ReadText(s: string): Option<string> {
    if IsText(s) then Some(s) else None
  }

  function ReadTriple(t: (int, int, int)): Option<(nat, nat, nat)> {
    if 0 <= t.0 <= EXACT_MAX && 0 <= t.1 <= EXACT_MAX && 0 <= t.2 <= EXACT_MAX then Some((t.0, t.1, t.2)) else None
  }

  function IntegerKey(n: nat): Key { [n] }

  function TripleKey(t: (nat, nat, nat)): Key { [t.0, t.1, t.2] }

  lemma KeysOk()
    ensures KeyOk(IntegerKey) && KeyOk(TripleKey) && KeyOk(Chars) && KeyOk(NameKey)
  {
    forall a, b | IntegerKey(a) == IntegerKey(b) ensures a == b {
      assert IntegerKey(a)[0] == a && IntegerKey(b)[0] == b;
    }
    forall a, b | TripleKey(a) == TripleKey(b) ensures a == b {
      assert TripleKey(a)[0] == a.0 && TripleKey(a)[1] == a.1 && TripleKey(a)[2] == a.2;
      assert TripleKey(b)[0] == b.0 && TripleKey(b)[1] == b.1 && TripleKey(b)[2] == b.2;
    }
    forall a, b | Chars(a) == Chars(b) ensures a == b {
      CharsDistinct(a, b);
    }
    forall a, b | NameKey(a) == NameKey(b) ensures a == b {
      CharsDistinct(Name(a), Name(b));
      NamesDistinct(a, b);
    }
  }

  ghost function ReadChoice<T, U(!new)>(c: Choice<T>, read: T -> Option<U>, key: U -> Key): Option<Choice<U>>
    requires KeyOk(key)
  {
    if c.All? then Some(All)
    else
      match ReadList(Map(c.items, read), key, ARRAY_MAX)
      case None => None
      case Some(list) => Some(Only(list))
  }

  // ------------------------------------------------------------ observations and points

  ghost function ReadObservation(o: RawObservation): Option<Observation> {
    KeysOk();
    match o
    case RawRegisters(names) =>
      (match ReadList(Map(names, ReadRegister), NameKey, REGISTERS_MAX)
       case None => None
       case Some(list) => Some(Registers(list)))
    case RawMemoryAddress(mref) => if 0 <= mref <= EXACT_MAX then Some(MemoryAddress(mref)) else None
    case RawMemoryValue(mref) => if 0 <= mref <= EXACT_MAX then Some(MemoryValue(mref)) else None
    case RawDelay(ns) => if 1 <= ns <= UINT32_MAX then Some(Delay(ns)) else None
    case RawOpcode => Some(Opcode)
    case RawTma => Some(Tma)
    case RawUnknown => None
  }

  predicate BytesOk(s: string) {
    IsText(s) && 16 <= |s| <= 64 && |s| % 2 == 0 && AllDigits(s, 16)
  }

  ghost function ReadPoint(p: RawPoint): Option<Point> {
    var read := Map(p.observations, ReadObservation);
    if !IsText(p.fn) || ReadPc(p.pc).None? || !BytesOk(p.bytes) || p.phase !in {"before", "after"}
       || p.policy !in {"executed_lanes", "reached_lanes"}
       || read == [] || |read| > OBSERVATIONS_MAX || None in read || Merge(Values(read)).None? then None
    else
      Some(Point(p.fn, ReadPc(p.pc).value, p.bytes, p.phase == "before", p.policy == "executed_lanes", Merge(Values(read)).value))
  }

  // ------------------------------------------------------------ the points of a configuration

  /** Function, then PC, then phase: a terminator keeps a shorter function name before a longer one. */
  function PointKey(p: Point): Key {
    NameEnd(p.fn) + [p.pc, if p.before then 0 else 1]
  }

  function NameEnd(s: string): Key {
    seq(|s|, i requires 0 <= i < |s| => s[i] as nat + 1) + [0]
  }

  ghost function AtKey(points: set<Point>, p: Point): set<Point> {
    set q | q in points && PointKey(q) == PointKey(p)
  }

  ghost function ObservationsOf(points: set<Point>): set<Observation> {
    set q, o | q in points && o in q.observations :: o
  }

  /** Points at one place must agree on their bytes and predicate policy, and their observations must merge. */
  ghost predicate PointsFail(points: set<Point>) {
    || (exists p, q :: p in points && q in points && PointKey(p) == PointKey(q) && (p.bytes != q.bytes || p.executed != q.executed))
    || (exists p :: p in points && MergeFails(ObservationsOf(AtKey(points, p))))
  }

  ghost function MergedPoint(points: set<Point>, p: Point): Point
    requires p in points && !PointsFail(points)
  {
    p.(observations := Merge(ObservationsOf(AtKey(points, p))).value)
  }

  ghost function MergedPoints(points: set<Point>): set<Point>
    requires !PointsFail(points)
  {
    set p | p in points :: MergedPoint(points, p)
  }

  lemma {:induction false} NameEndDistinct(a: string, b: string, x: Key, y: Key)
    requires NameEnd(a) + x == NameEnd(b) + y
    ensures a == b && x == y
  {
    var l, r := NameEnd(a) + x, NameEnd(b) + y;
    assert l[0] == r[0];
    if a == "" {
      assert b == "";
      assert l[1..] == x && r[1..] == y;
    } else {
      assert a[0] == b[0];
      assert NameEnd(a)[1..] == NameEnd(a[1..]) && NameEnd(b)[1..] == NameEnd(b[1..]);
      assert l[1..] == NameEnd(a[1..]) + x && r[1..] == NameEnd(b[1..]) + y;
      NameEndDistinct(a[1..], b[1..], x, y);
      assert a == [a[0]] + a[1..] && b == [b[0]] + b[1..];
    }
  }

  lemma {:induction false} SamePlace(p: Point, q: Point)
    ensures PointKey(p) == PointKey(q) <==> p.fn == q.fn && p.pc == q.pc && p.before == q.before
  {
    if PointKey(p) == PointKey(q) {
      var x, y := [p.pc, if p.before then 0 else 1], [q.pc, if q.before then 0 else 1];
      NameEndDistinct(p.fn, q.fn, x, y);
      assert x[0] == y[0] && x[1] == y[1];
    }
  }

  lemma MergedPlace(points: set<Point>, p: Point, q: Point)
    requires !PointsFail(points) && p in points && q in points
    ensures PointKey(MergedPoint(points, p)) == PointKey(p)
    ensures PointKey(p) == PointKey(q) ==> MergedPoint(points, p) == MergedPoint(points, q)
  {
    hide Merge, MergeFails, ObservationsOf;
    if PointKey(p) == PointKey(q) {
      SamePlace(p, q);
      assert AtKey(points, p) == AtKey(points, q);
    }
  }

  lemma {:induction false} MergedInjective(points: set<Point>)
    requires !PointsFail(points)
    ensures Injective(MergedPoints(points), PointKey)
  {
    hide PointKey, MergedPoint, PointsFail;
    forall x, y | x in MergedPoints(points) && y in MergedPoints(points) && PointKey(x) == PointKey(y) ensures x == y {
      var p :| p in points && x == MergedPoint(points, p);
      var q :| q in points && y == MergedPoint(points, q);
      MergedPlace(points, p, q);
      MergedPlace(points, q, p);
    }
  }

  /** One point for each place, sorted. */
  ghost function PointsOf(points: set<Point>): Option<seq<Point>> {
    if PointsFail(points) then None
    else
      MergedInjective(points);
      Some(InOrder(MergedPoints(points), PointKey))
  }

  // ------------------------------------------------------------ configurations and kernels

  ghost function ReadConfig(c: RawConfig): Option<Config> {
    KeysOk();
    var requests := ReadList(Map(c.requests, ReadText), Chars, ARRAY_MAX);
    var launches := ReadChoice(c.launches, ReadInteger(0, EXACT_MAX), IntegerKey);
    var ctas := ReadChoice(c.ctas, ReadTriple, TripleKey);
    var warps := ReadChoice(c.warps, ReadInteger(0, EXACT_MAX), IntegerKey);
    var lanes := ReadChoice(c.lanes, ReadInteger(0, 31), IntegerKey);
    var read := Map(c.points, ReadPoint);
    if !IsText(c.id) || requests.None? || launches.None? || ctas.None? || warps.None? || lanes.None?
       || !(1 <= c.maxRecords <= EXACT_MAX) || !(1 <= c.maxBytes <= EXACT_MAX)
       || read == [] || |read| > POINTS_MAX || None in read || PointsOf(Values(read)).None? then None
    else
      Some(Config(c.id, requests.value, launches.value, ctas.value, warps.value, lanes.value, c.maxRecords, c.maxBytes,
                  PointsOf(Values(read)).value))
  }

  predicate Decimal(s: string) {
    s != "" && forall i :: 0 <= i < |s| ==> '0' <= s[i] <= '9'
  }

  /** sm_, digits, and perhaps an a or an f. */
  predicate TargetOk(s: string) {
    && IsText(s) && |s| >= 4 && s[..3] == "sm_"
    && Decimal(if s[|s| - 1] in {'a', 'f'} then s[3..|s| - 1] else s[3..])
  }

  predicate ShaOk(s: string) {
    IsText(s) && |s| == 64 && AllDigits(s, 16)
  }

  /** A kernel before normalisation, which does not look at the order of its configurations. */
  datatype Loaded = Loaded(entry: string, target: string, sha: string, configs: set<Config>)

  ghost function ReadKernel(k: RawKernel): Option<Loaded> {
    var read := Map(k.configs, ReadConfig);
    if !IsText(k.entry) || !TargetOk(k.target) || !ShaOk(k.sha) || read == [] || |read| > CONFIGS_MAX || None in read then None
    else Some(Loaded(k.entry, k.target, k.sha, Values(read)))
  }
}
