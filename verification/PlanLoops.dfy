/** The points of a configuration, merged one after the other into a map by place (src/instrumentation_plan.cpp). */
module PlanLoops {
  import opened Sequences
  import opened PlanOrder
  import opened PlanMerge
  import opened PlanRead

  // ------------------------------------------------------------ points of a configuration

  /** As a point is read: its observations are merged and each is as read. */
  ghost predicate PointRead(p: Point) {
    && Merge(Elements(p.observations)) == Some(p.observations)
    && forall i :: 0 <= i < |p.observations| ==> ObservationOk(p.observations[i])
  }

  ghost function Places(points: set<Point>): set<Key> {
    set p | p in points :: PointKey(p)
  }

  /** The map holds one merged point for every place seen. */
  ghost predicate Merges(m: map<Key, Point>, points: set<Point>) {
    && !PointsFail(points) && m.Keys == Places(points)
    && forall p :: p in points ==> m[PointKey(p)] == MergedPoint(points, p)
  }

  /** Everything observed at the place of `c`, before it came. */
  ghost function Observed(points: set<Point>, c: Point): set<Observation> {
    ObservationsOf(AtKey(points, c))
  }

  lemma ObservedMore(points: set<Point>, c: Point, p: Point)
    ensures ObservationsOf(AtKey(points + {c}, p)) ==
            if PointKey(p) == PointKey(c) then Observed(points, c) + Elements(c.observations) else ObservationsOf(AtKey(points, p))
  {
    if PointKey(p) == PointKey(c) {
      assert AtKey(points + {c}, p) == AtKey(points, c) + {c};
    } else {
      assert AtKey(points + {c}, p) == AtKey(points, p);
    }
  }

  lemma {:induction false} PointsFailStays(points: set<Point>, more: set<Point>)
    requires PointsFail(points) && points <= more
    ensures PointsFail(more)
  {
    if p :| p in points && MergeFails(ObservationsOf(AtKey(points, p))) {
      assert AtKey(points, p) <= AtKey(more, p);
      FailureStays(ObservationsOf(AtKey(points, p)), ObservationsOf(AtKey(more, p)));
    }
  }

  lemma MergeDefined(obs: set<Observation>)
    ensures Merge(obs).Some? <==> !MergeFails(obs)
  {
  }

  function With(p: Point, obs: seq<Observation>): Point {
    p.(observations := obs)
  }

  lemma StillMerges(points: set<Point>, c: Point)
    requires !PointsFail(points) && !MergeFails(Observed(points, c) + Elements(c.observations))
    requires forall p :: p in points && PointKey(p) == PointKey(c) ==> p.bytes == c.bytes && p.executed == c.executed
    ensures !PointsFail(points + {c}) && Merge(Observed(points, c) + Elements(c.observations)).Some?
    ensures forall p :: p in points && PointKey(p) != PointKey(c) ==> MergedPoint(points + {c}, p) == MergedPoint(points, p)
    ensures forall p :: p in points + {c} && PointKey(p) == PointKey(c) ==>
              MergedPoint(points + {c}, p) == With(p, Merge(Observed(points, c) + Elements(c.observations)).value)
  {
    MergeDefined(Observed(points, c) + Elements(c.observations));
    StillFine(points, c);
    hide Merge, MergeFails, PointKey, Observed, PointsFail, MergedPoint, With;
    forall p | p in points + {c}
      ensures MergedPoint(points + {c}, p) ==
              if PointKey(p) == PointKey(c) then With(p, Merge(Observed(points, c) + Elements(c.observations)).value)
              else MergedPoint(points, p)
    {
      StillMerged(points, c, p);
    }
  }

  lemma StillFine(points: set<Point>, c: Point)
    requires !PointsFail(points) && !MergeFails(Observed(points, c) + Elements(c.observations))
    requires forall p :: p in points && PointKey(p) == PointKey(c) ==> p.bytes == c.bytes && p.executed == c.executed
    ensures !PointsFail(points + {c})
  {
    hide Merge, MergeFails, PointKey, Observed, AtKey, ObservationsOf;
    forall p | p in points + {c} ensures !MergeFails(ObservationsOf(AtKey(points + {c}, p))) {
      ObservedMore(points, c, p);
    }
  }

  lemma StillMerged(points: set<Point>, c: Point, p: Point)
    requires !PointsFail(points) && !PointsFail(points + {c}) && p in points + {c}
    requires Merge(Observed(points, c) + Elements(c.observations)).Some?
    ensures PointKey(p) == PointKey(c) ==>
              MergedPoint(points + {c}, p) == With(p, Merge(Observed(points, c) + Elements(c.observations)).value)
    ensures PointKey(p) != PointKey(c) ==> p in points && MergedPoint(points + {c}, p) == MergedPoint(points, p)
  {
    ObservedMore(points, c, p);
    hide Merge, MergeFails, PointKey, Observed, AtKey, ObservationsOf, PointsFail;
  }

  /** One candidate, merged into what is there for its place. */
  method MergePoint(m: map<Key, Point>, c: Point, ghost points: set<Point>) returns (ok: bool, n: map<Key, Point>)
    requires Merges(m, points) && PointRead(c)
    ensures ok ==> Merges(n, points + {c})
    ensures !ok ==> PointsFail(points + {c})
  {
    var k := PointKey(c);
    n := m;
    hide Merge, MergeFails, PointKey, ObservationOk, PointsFail, Elements;
    if k !in m {
      NewPlace(m, points, c);
      return true, m[k := c];
    }
    var it := m[k];
    if it.bytes != c.bytes || it.executed != c.executed {
      Disagrees(m, points, c);
      return false, m;
    }
    ThereAlready(m, points, c);
    var observations := MergeObservations(it.observations, c.observations);
    if observations.None? {
      Unmergeable(points, c);
      return false, m;
    }
    OldPlace(m, points, c, observations.value);
    return true, m[k := it.(observations := observations.value)];
  }

  lemma NewPlace(m: map<Key, Point>, points: set<Point>, c: Point)
    requires Merges(m, points) && PointRead(c) && PointKey(c) !in m
    ensures Merges(m[PointKey(c) := c], points + {c})
  {
    hide Merge, MergeFails, PointKey, ObservationOk, PointsFail, MergedPoint;
    NobodyThere(points, c);
    MergeDefined(Elements(c.observations));
    StillMerges(points, c);
    assert Places(points + {c}) == Places(points) + {PointKey(c)};
  }

  lemma NobodyThere(points: set<Point>, c: Point)
    requires PointKey(c) !in Places(points)
    ensures Observed(points, c) + Elements(c.observations) == Elements(c.observations)
    ensures forall p :: p in points ==> PointKey(p) != PointKey(c)
  {
    hide PointKey;
    forall p | p in points ensures PointKey(p) != PointKey(c) {
      assert PointKey(p) in Places(points);
    }
    assert AtKey(points, c) == {};
  }

  lemma Disagrees(m: map<Key, Point>, points: set<Point>, c: Point)
    requires Merges(m, points) && PointKey(c) in m
    requires m[PointKey(c)].bytes != c.bytes || m[PointKey(c)].executed != c.executed
    ensures PointsFail(points + {c})
  {
    hide Merge, MergeFails, PointKey, AtKey, ObservationsOf;
    var p :| p in points && PointKey(p) == PointKey(c);
    assert m[PointKey(p)] == MergedPoint(points, p);
    assert p in points + {c} && c in points + {c};
  }

  lemma ThereAlready(m: map<Key, Point>, points: set<Point>, c: Point)
    requires Merges(m, points) && PointRead(c) && PointKey(c) in m
    ensures var obs := m[PointKey(c)].observations;
            && Merge(Elements(obs)) == Some(obs)
            && Merge(Elements(obs) + Elements(c.observations)) == Merge(Observed(points, c) + Elements(c.observations))
  {
    hide Merge, MergeFails, PointKey, ObservationOk;
    var p :| p in points && PointKey(p) == PointKey(c);
    assert m[PointKey(p)] == MergedPoint(points, p);
    assert AtKey(points, p) == AtKey(points, c);
    MergeDefined(Observed(points, c));
    MergeAssociative(Observed(points, c), Elements(c.observations));
    MergeIsFixed(Observed(points, c));
  }

  lemma Unmergeable(points: set<Point>, c: Point)
    requires Merge(Observed(points, c) + Elements(c.observations)).None?
    ensures PointsFail(points + {c})
  {
    MergeDefined(Observed(points, c) + Elements(c.observations));
    ObservedMore(points, c, c);
    hide Merge, MergeFails, AtKey, ObservationsOf, Observed;
    assert c in points + {c};
  }

  lemma OldPlace(m: map<Key, Point>, points: set<Point>, c: Point, merged: seq<Observation>)
    requires Merges(m, points) && PointKey(c) in m
    requires m[PointKey(c)].bytes == c.bytes && m[PointKey(c)].executed == c.executed
    requires Merge(Observed(points, c) + Elements(c.observations)) == Some(merged)
    ensures Merges(m[PointKey(c) := With(m[PointKey(c)], merged)], points + {c})
  {
    MergeDefined(Observed(points, c) + Elements(c.observations));
    hide Merge, MergeFails, PointKey, AtKey, ObservationsOf, Observed, PointsFail, MergedPoint, With;
    forall p | p in points && PointKey(p) == PointKey(c)
      ensures p.bytes == c.bytes && p.executed == c.executed && With(p, merged) == With(c, merged)
      ensures With(m[PointKey(c)], merged) == With(c, merged)
    {
      AgreesWith(m, points, c, p, merged);
    }
    StillMerges(points, c);
    var q :| q in points && PointKey(q) == PointKey(c);
    assert Places(points + {c}) == Places(points);
  }

  lemma AgreesWith(m: map<Key, Point>, points: set<Point>, c: Point, p: Point, merged: seq<Observation>)
    requires Merges(m, points) && p in points && PointKey(p) == PointKey(c)
    requires m[PointKey(c)].bytes == c.bytes && m[PointKey(c)].executed == c.executed
    ensures p.bytes == c.bytes && p.executed == c.executed && With(p, merged) == With(c, merged)
    ensures With(m[PointKey(c)], merged) == With(c, merged)
  {
    SamePlace(p, c);
    assert m[PointKey(p)] == MergedPoint(points, p);
    hide PointsFail, PointKey, Merge;
  }

  lemma MergesGives(m: map<Key, Point>, points: set<Point>)
    requires Merges(m, points)
    ensures Injective(m.Values, PointKey) && PointsOf(points) == Some(InOrder(m.Values, PointKey))
  {
    MergedInjective(points);
    hide PointsFail, MergedPoint, PointKey;
    forall p | p in MergedPoints(points) ensures p in m.Values {
      var q :| q in points && p == MergedPoint(points, q);
      assert PointKey(q) in m;
    }
    forall p | p in m.Values ensures p in MergedPoints(points) {
      var k :| k in m && m[k] == p;
      var q :| q in points && PointKey(q) == k;
    }
    assert m.Values == MergedPoints(points);
  }

  lemma NothingMerged()
    ensures Merges(map[], {})
  {
  }
}
