/** An encoding of trace lines that meets DumpOk: different lines have different texts, and none holds a newline. */
module TraceLines {
  import opened Sequences
  import W = TraceWriterSpec

  // ------------------------------------------------------------ numbers

  /** A number as so many strokes, and a comma. */
  function Strokes(n: nat): string {
    if n == 0 then "," else "|" + Strokes(n - 1)
  }

  function Text(code: seq<nat>): string {
    if code == [] then "" else Strokes(code[0]) + Text(code[1..])
  }

  lemma {:induction false} StrokesApart(n: nat, m: nat, x: string, y: string)
    requires Strokes(n) + x == Strokes(m) + y
    ensures n == m && x == y
  {
    var l, r := Strokes(n) + x, Strokes(m) + y;
    assert l[0] == r[0];
    if n == 0 {
      assert l[1..] == x && r[1..] == y;
    } else {
      assert l[1..] == Strokes(n - 1) + x && r[1..] == Strokes(m - 1) + y;
      StrokesApart(n - 1, m - 1, x, y);
    }
  }

  lemma {:induction false} TextsApart(a: seq<nat>, b: seq<nat>)
    requires Text(a) == Text(b)
    ensures a == b
  {
    if a == [] || b == [] {
      TextIsSome(a);
      TextIsSome(b);
    } else {
      StrokesApart(a[0], b[0], Text(a[1..]), Text(b[1..]));
      TextsApart(a[1..], b[1..]);
      assert a == [a[0]] + a[1..] && b == [b[0]] + b[1..];
    }
  }

  lemma TextIsSome(a: seq<nat>)
    ensures Text(a) == "" <==> a == []
  {
    if a != [] {
      assert Strokes(a[0]) != "";
    }
  }

  lemma {:induction false} StrokesPlain(n: nat)
    ensures '\n' !in Strokes(n)
  {
    if n > 0 {
      StrokesPlain(n - 1);
    }
  }

  lemma {:induction false} TextPlain(code: seq<nat>)
    ensures '\n' !in Text(code)
  {
    if code != [] {
      StrokesPlain(code[0]);
      TextPlain(code[1..]);
    }
  }

  // ------------------------------------------------------------ the parts of a line

  function Bit(b: bool): nat { if b then 1 else 0 }

  /** The length first, then the characters: what follows can be told apart. */
  function StringCode(s: string): seq<nat> {
    [|s|] + seq(|s|, i requires 0 <= i < |s| => s[i] as nat)
  }

  lemma StringsApart(s: string, t: string, x: seq<nat>, y: seq<nat>)
    requires StringCode(s) + x == StringCode(t) + y
    ensures s == t && x == y
  {
    var l, r := StringCode(s) + x, StringCode(t) + y;
    assert l[0] == |s| && r[0] == |t|;
    forall i | 0 <= i < |s| ensures s[i] == t[i] {
      assert l[i + 1] == s[i] as nat && r[i + 1] == t[i] as nat;
    }
    assert l[|s| + 1..] == x && r[|s| + 1..] == y;
  }

  function Numbers(r: W.Report): seq<nat> {
    [Bit(r.selected), r.expectedEntries, r.device.attempted, r.device.attemptedBytes, r.device.emitted, r.device.emittedBytes,
     r.device.dropped, r.device.entries, r.received, r.written]
  }

  function ReportCode(r: W.Report): seq<nat> {
    Numbers(r) + StringCode(r.error)
  }

  lemma NumbersApart(a: W.Report, b: W.Report)
    requires Numbers(a) == Numbers(b)
    ensures a.(error := "") == b.(error := "")
  {
    var n, m := Numbers(a), Numbers(b);
    assert n[0] == m[0] && n[1] == m[1] && n[2] == m[2] && n[3] == m[3] && n[4] == m[4] && n[5] == m[5] && n[6] == m[6]
        && n[7] == m[7] && n[8] == m[8] && n[9] == m[9];
  }

  lemma ReportsApart(a: W.Report, b: W.Report, x: seq<nat>, y: seq<nat>)
    requires ReportCode(a) + x == ReportCode(b) + y
    ensures a == b && x == y
  {
    var l, r := ReportCode(a) + x, ReportCode(b) + y;
    assert l[..10] == Numbers(a) && r[..10] == Numbers(b);
    NumbersApart(a, b);
    assert l[10..] == StringCode(a.error) + x && r[10..] == StringCode(b.error) + y;
    StringsApart(a.error, b.error, x, y);
  }

  ghost function ConfigsCode(m: map<nat, W.Report>): seq<nat> {
    if m == map[] then [0]
    else
      var k :| k in m;
      [1, k] + ReportCode(m[k]) + ConfigsCode(m - {k})
  }

  lemma ConfigsHead(m: map<nat, W.Report>) returns (k: nat)
    requires m != map[]
    ensures k in m && ConfigsCode(m) == [1, k] + ReportCode(m[k]) + ConfigsCode(m - {k})
  {
    hide ReportCode;
    k :| k in m && ConfigsCode(m) == [1, k] + ReportCode(m[k]) + ConfigsCode(m - {k});
  }

  lemma NoConfigs()
    ensures ConfigsCode(map[]) == [0]
  {
  }

  lemma FirstOff(head: seq<nat>, a: seq<nat>, b: seq<nat>, x: seq<nat>)
    ensures (head + a + b + x)[..|head|] == head && (head + a + b + x)[|head|..] == a + (b + x)
  {
  }

  lemma SameRest(m: map<nat, W.Report>, n: map<nat, W.Report>, k: nat)
    requires k in m && k in n && m[k] == n[k] && m - {k} == n - {k}
    ensures m == n
  {
    assert m == (m - {k})[k := m[k]] && n == (n - {k})[k := n[k]];
  }

  lemma {:induction false} ConfigsApart(m: map<nat, W.Report>, n: map<nat, W.Report>, x: seq<nat>, y: seq<nat>)
    requires ConfigsCode(m) + x == ConfigsCode(n) + y
    ensures m == n && x == y
    decreases |m|
  {
    hide ConfigsCode, ReportCode;
    var l, r := ConfigsCode(m) + x, ConfigsCode(n) + y;
    NoConfigs();
    if m == map[] || n == map[] {
      NoneOrSome(m);
      NoneOrSome(n);
      assert l[0] == r[0];
      assert l[1..] == x && r[1..] == y;
    } else {
      var k := ConfigsHead(m);
      var j := ConfigsHead(n);
      FirstOff([1, k], ReportCode(m[k]), ConfigsCode(m - {k}), x);
      FirstOff([1, j], ReportCode(n[j]), ConfigsCode(n - {j}), y);
      assert l[..2][1] == k && r[..2][1] == j;
      ReportsApart(m[k], n[k], ConfigsCode(m - {k}) + x, ConfigsCode(n - {k}) + y);
      ConfigsApart(m - {k}, n - {k}, x, y);
      SameRest(m, n, k);
    }
  }

  lemma NoneOrSome(m: map<nat, W.Report>)
    ensures ConfigsCode(m) != [] && ConfigsCode(m)[0] == if m == map[] then 0 else 1
  {
    hide ReportCode;
  }

  ghost function ErrorsCode(s: set<string>): seq<nat> {
    if s == {} then [0]
    else
      var e :| e in s;
      [1] + StringCode(e) + ErrorsCode(s - {e})
  }

  lemma ErrorsHead(s: set<string>) returns (e: string)
    requires s != {}
    ensures e in s && ErrorsCode(s) == [1] + StringCode(e) + ErrorsCode(s - {e})
  {
    hide StringCode;
    e :| e in s && ErrorsCode(s) == [1] + StringCode(e) + ErrorsCode(s - {e});
  }

  lemma EmptyOrNot(s: set<string>)
    ensures ErrorsCode(s) != [] && ErrorsCode(s)[0] == if s == {} then 0 else 1
    ensures ErrorsCode({}) == [0]
  {
    hide StringCode;
  }

  lemma SameOthers(s: set<string>, t: set<string>, e: string)
    requires e in s && e in t && s - {e} == t - {e}
    ensures s == t
  {
    assert s == (s - {e}) + {e} && t == (t - {e}) + {e};
  }

  lemma {:induction false} ErrorsApart(s: set<string>, t: set<string>, x: seq<nat>, y: seq<nat>)
    requires ErrorsCode(s) + x == ErrorsCode(t) + y
    ensures s == t && x == y
    decreases |s|
  {
    hide ErrorsCode, StringCode;
    var l, r := ErrorsCode(s) + x, ErrorsCode(t) + y;
    if s == {} || t == {} {
      EmptyOrNot(s);
      EmptyOrNot(t);
      assert l[0] == r[0];
      assert l[1..] == x && r[1..] == y;
    } else {
      var d := ErrorsHead(s);
      var e := ErrorsHead(t);
      FirstOff([1], StringCode(d), ErrorsCode(s - {d}), x);
      FirstOff([1], StringCode(e), ErrorsCode(t - {e}), y);
      StringsApart(d, e, ErrorsCode(s - {d}) + x, ErrorsCode(t - {e}) + y);
      ErrorsApart(s - {d}, t - {d}, x, y);
      SameOthers(s, t, d);
    }
  }

  // ------------------------------------------------------------ lines

  ghost function LineCode(line: W.Line): seq<nat> {
    match line
    case Observation(launch, config, sequence, rest) => [0, launch, config, sequence] + StringCode(rest)
    case PlanCompletion(launch, configs, complete) => [1, launch, Bit(complete)] + ConfigsCode(configs)
    case Other(rest) => [2] + StringCode(rest)
    case Footer(c) =>
      [3, c.launchId, Bit(c.kernelCompleted), Bit(c.channelDrained), c.written, c.dropped, Bit(c.complete)] + ErrorsCode(c.errors)
  }

  lemma LinesApart(k: W.Line, l: W.Line)
    requires LineCode(k) == LineCode(l)
    ensures k == l
  {
    hide StringCode, ConfigsCode, ErrorsCode;
    var a, b := LineCode(k), LineCode(l);
    assert a[0] == b[0];
    match k
    case Observation(launch, config, sequence, rest) =>
      assert a[1] == b[1] && a[2] == b[2] && a[3] == b[3];
      assert a[4..] == StringCode(rest) + [] && b[4..] == StringCode(l.rest) + [];
      StringsApart(rest, l.rest, [], []);
    case PlanCompletion(launch, configs, complete) =>
      assert a[1] == b[1] && a[2] == b[2];
      assert a[3..] == ConfigsCode(configs) + [] && b[3..] == ConfigsCode(l.configs) + [];
      ConfigsApart(configs, l.configs, [], []);
    case Other(rest) =>
      assert a[1..] == StringCode(rest) + [] && b[1..] == StringCode(l.rest) + [];
      StringsApart(rest, l.rest, [], []);
    case Footer(c) =>
      assert a[1] == b[1] && a[2] == b[2] && a[3] == b[3] && a[4] == b[4] && a[5] == b[5] && a[6] == b[6];
      assert a[7..] == ErrorsCode(c.errors) + [] && b[7..] == ErrorsCode(l.completion.errors) + [];
      ErrorsApart(c.errors, l.completion.errors, [], []);
  }

  ghost function DumpOf(line: W.Line): string {
    Text(LineCode(line))
  }

  /** What the writer's theorems ask of the text of a line can be had. */
  lemma {:induction false} DumpExists()
    ensures W.DumpOk(DumpOf)
  {
    hide Text, LineCode;
    forall l ensures '\n' !in DumpOf(l) {
      TextPlain(LineCode(l));
    }
    forall k, l | DumpOf(k) == DumpOf(l) ensures k == l {
      TextsApart(LineCode(k), LineCode(l));
      LinesApart(k, l);
    }
  }
}
