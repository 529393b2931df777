/** Sorting by key: a finite set has one sorted list, whatever order its elements came in. */
module PlanOrder {
  import opened Sequences

  /** A key is compared place by place, and a first part comes before the whole: strings, numbers and tuples alike. */
  type Key = seq<nat>

  predicate Before(a: Key, b: Key) {
    b != [] && (a == [] || a[0] < b[0] || (a[0] == b[0] && Before(a[1..], b[1..])))
  }

  lemma {:induction false} BeforeTransitive(a: Key, b: Key, c: Key)
    requires Before(a, b) && Before(b, c)
    ensures Before(a, c)
  {
    if a != [] && a[0] == b[0] == c[0] {
      BeforeTransitive(a[1..], b[1..], c[1..]);
    }
  }

  lemma {:induction false} BeforeTotal(a: Key, b: Key)
    ensures Before(a, b) || Before(b, a) || a == b
  {
    if a != [] && b != [] && a[0] == b[0] {
      BeforeTotal(a[1..], b[1..]);
      assert a == [a[0]] + a[1..] && b == [b[0]] + b[1..];
    }
  }

  lemma {:induction false} BeforeIrreflexive(a: Key)
    ensures !Before(a, a)
  {
    if a != [] {
      BeforeIrreflexive(a[1..]);
    }
  }

  /** Strictly increasing keys: sorted, and nothing twice. */
  ghost predicate Sorted<T>(s: seq<T>, key: T -> Key) {
    forall i, j :: 0 <= i < j < |s| ==> Before(key(s[i]), key(s[j]))
  }

  ghost predicate Injective<T(!new)>(s: set<T>, key: T -> Key) {
    forall x, y :: x in s && y in s && key(x) == key(y) ==> x == y
  }

  function Elements<T>(s: seq<T>): set<T> {
    set x | x in s
  }

  lemma SortedHead<T(!new)>(s: seq<T>, key: T -> Key)
    requires Sorted(s, key) && s != []
    ensures s[0] !in s[1..] && Elements(s[1..]) == Elements(s) - {s[0]} && Sorted(s[1..], key)
  {
    BeforeIrreflexive(key(s[0]));
    assert s == [s[0]] + s[1..];
  }

  /** Two sorted lists of the same things are the same list. */
  lemma {:induction false} SortedUnique<T(!new)>(a: seq<T>, b: seq<T>, key: T -> Key)
    requires Sorted(a, key) && Sorted(b, key) && Elements(a) == Elements(b)
    ensures a == b
    decreases |a|
  {
    NoElements(a);
    NoElements(b);
    if a != [] {
      assert a[0] in Elements(a) && b[0] in Elements(b);
      SameHead(a, b, key);
      SortedHead(a, key);
      SortedHead(b, key);
      SortedUnique(a[1..], b[1..], key);
      assert a == [a[0]] + a[1..] && b == [b[0]] + b[1..];
    }
  }

  lemma NoElements<T(!new)>(s: seq<T>)
    ensures Elements(s) == {} <==> s == []
  {
    if s != [] {
      assert s[0] in Elements(s);
    }
  }

  lemma SameHead<T(!new)>(a: seq<T>, b: seq<T>, key: T -> Key)
    requires Sorted(a, key) && Sorted(b, key) && a != [] && b != [] && a[0] in b && b[0] in a
    ensures a[0] == b[0]
  {
    var i :| 0 <= i < |b| && b[i] == a[0];
    var j :| 0 <= j < |a| && a[j] == b[0];
    if i > 0 && j > 0 {
      BeforeTransitive(key(a[0]), key(b[0]), key(a[0]));
      BeforeIrreflexive(key(a[0]));
    }
  }

  /** Some element comes first. */
  lemma {:induction false} LeastExists<T(!new)>(s: set<T>, key: T -> Key)
    requires s != {} && Injective(s, key)
    ensures exists x :: IsLeast(s, key, x)
  {
    var a :| a in s;
    var rest := s - {a};
    if rest == {} {
      assert s == {a};
      assert IsLeast(s, key, a);
    } else {
      LeastExists(rest, key);
      var b :| IsLeast(rest, key, b);
      BeforeTotal(key(a), key(b));
      if Before(key(a), key(b)) {
        forall y | y in s && y != a ensures Before(key(a), key(y)) {
          if y != b {
            BeforeTransitive(key(a), key(b), key(y));
          }
        }
        assert IsLeast(s, key, a);
      } else {
        assert IsLeast(s, key, b);
      }
    }
  }

  ghost predicate IsLeast<T(!new)>(s: set<T>, key: T -> Key, x: T) {
    x in s && forall y :: y in s && y != x ==> Before(key(x), key(y))
  }

  ghost function Least<T(!new)>(s: set<T>, key: T -> Key): (x: T)
    requires s != {} && Injective(s, key)
    ensures IsLeast(s, key, x)
  {
    LeastExists(s, key);
    var x :| IsLeast(s, key, x);
    x
  }

  /** The sorted list of a set; keys tell its elements apart. */
  ghost function InOrder<T(!new)>(s: set<T>, key: T -> Key): (r: seq<T>)
    requires Injective(s, key)
    ensures Elements(r) == s && |r| == |s|
    decreases |s|
  {
    if s == {} then []
    else
      var x, rest := Least(s, key), InOrder(s - {Least(s, key)}, key);
      ElementsCons(x, rest);
      [x] + rest
  }

  lemma ElementsCons<T(!new)>(x: T, s: seq<T>)
    ensures Elements([x] + s) == {x} + Elements(s)
  {
  }

  lemma {:induction false} InOrderSorted<T(!new)>(s: set<T>, key: T -> Key)
    requires Injective(s, key)
    ensures Sorted(InOrder(s, key), key)
    decreases |s|
  {
    if s != {} {
      var x := Least(s, key);
      InOrderSorted(s - {x}, key);
      SortedCons(x, InOrder(s - {x}, key), key);
    }
  }

  lemma SortedCons<T(!new)>(x: T, rest: seq<T>, key: T -> Key)
    requires Sorted(rest, key) && forall y :: y in Elements(rest) ==> Before(key(x), key(y))
    ensures Sorted([x] + rest, key)
  {
    hide Before;
    var r := [x] + rest;
    forall i, j | 0 <= i < j < |r| ensures Before(key(r[i]), key(r[j])) {
      if i == 0 {
        assert rest[j - 1] in Elements(rest);
      } else {
        assert r[i] == rest[i - 1] && r[j] == rest[j - 1];
      }
    }
  }

  /** Any sorted list of the elements is the list. */
  lemma IsInOrder<T(!new)>(r: seq<T>, key: T -> Key)
    requires Sorted(r, key)
    ensures Injective(Elements(r), key) && InOrder(Elements(r), key) == r
  {
    forall x, y | x in Elements(r) && y in Elements(r) && key(x) == key(y) ensures x == y {
      var i :| 0 <= i < |r| && r[i] == x;
      var j :| 0 <= j < |r| && r[j] == y;
      BeforeIrreflexive(key(x));
    }
    InOrderSorted(Elements(r), key);
    SortedUnique(InOrder(Elements(r), key), r, key);
  }

  lemma LeastUnique<T(!new)>(s: set<T>, key: T -> Key, x: T)
    requires s != {} && Injective(s, key) && IsLeast(s, key, x)
    ensures x == Least(s, key)
  {
    var y := Least(s, key);
    if y != x {
      BeforeTransitive(key(x), key(y), key(x));
      BeforeIrreflexive(key(x));
    }
  }

  lemma TakeLeast<T(!new)>(s: set<T>, key: T -> Key, x: T)
    requires s != {} && Injective(s, key) && IsLeast(s, key, x)
    ensures Injective(s - {x}, key) && InOrder(s, key) == [x] + InOrder(s - {x}, key)
  {
    LeastUnique(s, key, x);
    hide Before, IsLeast;
  }

  lemma NothingInOrder<T(!new)>(key: T -> Key)
    ensures InOrder({}, key) == []
  {
  }

  lemma Regroup<T>(r: seq<T>, x: T, rest: seq<T>)
    ensures r + ([x] + rest) == r + [x] + rest
  {
  }

  method PickLeast<T(==, !new)>(s: set<T>, key: T -> Key) returns (x: T)
    requires s != {} && Injective(s, key)
    ensures IsLeast(s, key, x)
  {
    hide Before, Injective;
    LeastExists(s, key);
    x :| x in s && forall y :: y in s && y != x ==> Before(key(x), key(y));
  }

  /** What std::sort by key, and walking a std::map, leave behind. */
  method Arrange<T(==, !new)>(s: set<T>, key: T -> Key) returns (r: seq<T>)
    requires Injective(s, key)
    ensures r == InOrder(s, key)
  {
    hide Before, InOrder, Injective;
    r := [];
    var todo := s;
    while todo != {}
      invariant todo <= s && Injective(todo, key) && r + InOrder(todo, key) == InOrder(s, key)
      decreases |todo|
    {
      var x := PickLeast(todo, key);
      TakeLeast(todo, key, x);
      Regroup(r, x, InOrder(todo - {x}, key));
      r := r + [x];
      todo := todo - {x};
    }
    NothingInOrder(key);
  }

  // ------------------------------------------------------------ permutations

  /** `b` is `a` in another order, up to `same` element by element. */
  ghost predicate Shuffled<T(!new)>(a: seq<T>, b: seq<T>, same: (T, T) -> bool)
    decreases |b|
  {
    if b == [] then a == []
    else exists i :: 0 <= i < |a| && same(a[i], b[0]) && Shuffled(a[..i] + a[i + 1..], b[1..], same)
  }

  function Map<T, U>(s: seq<T>, f: T -> U): (r: seq<U>)
    ensures |r| == |s| && forall i :: 0 <= i < |s| ==> r[i] == f(s[i])
  {
    seq(|s|, i requires 0 <= i < |s| => f(s[i]))
  }

  /** What does not see the difference between shuffled elements sees the same elements. */
  lemma {:induction false} ShuffledMaps<T(!new), U(!new)>(a: seq<T>, b: seq<T>, same: (T, T) -> bool, f: T -> U)
    requires Shuffled(a, b, same) && forall x, y :: same(x, y) ==> f(x) == f(y)
    ensures multiset(Map(a, f)) == multiset(Map(b, f))
    decreases |b|
  {
    hide Map, Shuffled;
    if b == [] {
      ShuffledNil(a, b, same);
    } else {
      var i := ShuffledHead(a, b, same);
      ShuffledMaps(a[..i] + a[i + 1..], b[1..], same, f);
      MapRemove(a, i, f);
      assert Map(b[1..], f) == Map(b, f)[1..];
      SameOnceTakenOut(Map(a, f), i, Map(b, f));
    }
  }

  lemma SameOnceTakenOut<T>(s: seq<T>, i: nat, t: seq<T>)
    requires i < |s| && t != [] && s[i] == t[0] && multiset(s[..i] + s[i + 1..]) == multiset(t[1..])
    ensures multiset(s) == multiset(t)
  {
    TakenOut(s, i);
    TakenOut(t, 0);
    assert t[..0] + t[1..] == t[1..];
  }

  lemma ShuffledNil<T(!new)>(a: seq<T>, b: seq<T>, same: (T, T) -> bool)
    requires Shuffled(a, b, same) && b == []
    ensures a == []
  {
  }

  lemma ShuffledHead<T(!new)>(a: seq<T>, b: seq<T>, same: (T, T) -> bool) returns (i: nat)
    requires Shuffled(a, b, same) && b != []
    ensures i < |a| && same(a[i], b[0]) && Shuffled(a[..i] + a[i + 1..], b[1..], same)
  {
    i :| 0 <= i < |a| && same(a[i], b[0]) && Shuffled(a[..i] + a[i + 1..], b[1..], same);
  }

  lemma MapRemove<T(!new), U(!new)>(s: seq<T>, i: nat, f: T -> U)
    requires i < |s|
    ensures Map(s[..i] + s[i + 1..], f) == Map(s, f)[..i] + Map(s, f)[i + 1..]
  {
  }

  lemma TakenOut<T>(s: seq<T>, i: nat)
    requires i < |s|
    ensures multiset(s) == multiset(s[..i] + s[i + 1..]) + multiset{s[i]}
  {
    assert s == s[..i] + [s[i]] + s[i + 1..];
  }

  lemma SameElements<T(!new)>(a: seq<T>, b: seq<T>)
    requires multiset(a) == multiset(b)
    ensures Elements(a) == Elements(b) && |a| == |b|
  {
    forall x ensures x in a <==> x in b {
      assert x in multiset(a) <==> x in multiset(b);
    }
    assert |a| == |multiset(a)| && |b| == |multiset(b)|;
  }
}
