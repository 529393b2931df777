/** The delay configuration and its mutator (python/cutracer/reduce/config_mutator.py).

    A configuration maps kernels to instrumentation points.  The mutator keeps a flat list of point
    objects beside it, and every change has to reach both copies. */
module DelayConfig {
  import opened Sequences

  datatype PointKey = PointKey(kernelKey: string, pcOffset: string)

  datatype PointData = PointData(kernelName: string, sass: string, delay: nat)

  /** The part of a configuration that is never written: the points under both of their dictionary
      keys, and the iteration order of the dictionaries. */
  datatype Fixed = Fixed(order: seq<PointKey>, data: map<PointKey, PointData>)

  /** `on` holds the keys of the points whose "on" entry is true. */
  datatype Config = Config(fixed: Fixed, on: set<PointKey>) {
    ghost predicate Valid() {
      && Distinct(fixed.order)
      && (forall i :: 0 <= i < |fixed.order| ==> fixed.order[i] in fixed.data)
      && (forall k :: k in fixed.data ==> k in fixed.order)
      && on <= fixed.data.Keys
    }
  }

  ghost function Elements(s: seq<PointKey>): set<PointKey> { set k | k in s }

  lemma AllWritten(start: Config, end: Config, enabled: bool)
    requires start.Valid() && end.Valid() && start.fixed == end.fixed
    requires forall j :: 0 <= j < |start.fixed.order| ==> (start.fixed.order[j] in end.on <==> enabled)
    ensures end.on == if enabled then start.fixed.data.Keys else {}
  {
    forall k | k in start.fixed.data ensures k in end.on <==> enabled {
      assert k in start.fixed.order;
    }
  }

  lemma MatchesWritten(start: Config, end: Config, keys: set<PointKey>)
    requires start.Valid() && end.Valid() && start.fixed == end.fixed
    requires start.on <= end.on <= start.on + keys
    requires forall j :: 0 <= j < |start.fixed.order| && start.fixed.order[j] in keys ==> start.fixed.order[j] in end.on
    ensures end.on == start.on + keys * start.fixed.data.Keys
  {
    forall k | k in start.fixed.data && k in keys ensures k in end.on {
      assert k in start.fixed.order;
    }
  }

  class DelayPoint {
    const key: PointKey
    const data: PointData
    var enabled: bool

    constructor (key: PointKey, data: PointData, enabled: bool)
      ensures this.key == key && this.data == data && this.enabled == enabled
    {
      this.key, this.data, this.enabled := key, data, enabled;
    }
  }

  function KeysOf(points: seq<DelayPoint>): (r: seq<PointKey>)
    ensures |r| == |points|
    ensures forall i :: 0 <= i < |points| ==> r[i] == points[i].key
  {
    seq(|points|, i requires 0 <= i < |points| => points[i].key)
  }

  ghost function KeySet(points: seq<DelayPoint>): set<PointKey> { Elements(KeysOf(points)) }

  class DelayConfigMutator {
    var config: Config
    var delayPoints: seq<DelayPoint>

    /** The point list mirrors the configuration, entry by entry. */
    ghost predicate Valid()
      reads this, delayPoints
    {
      && config.Valid()
      && |delayPoints| == |config.fixed.order|
      && forall i :: 0 <= i < |delayPoints| ==> Mirrors(delayPoints[i], config.fixed.order[i], config)
    }

    static ghost predicate Mirrors(p: DelayPoint, k: PointKey, c: Config)
      reads p
    {
      && p.key == k && k in c.fixed.data
      && p.data == c.fixed.data[k] && p.enabled == (k in c.on)
    }

    constructor (config: Config)
      requires config.Valid()
      ensures Valid() && fresh(delayPoints) && this.config == config
    {
      this.config := config;
      this.delayPoints := [];
      new;
      ParseDelayPoints();
    }

    method ParseDelayPoints()
      requires config.Valid()
      modifies this`delayPoints
      ensures Valid() && fresh(delayPoints)
    {
      delayPoints := [];
      for i := 0 to |config.fixed.order|
        invariant |delayPoints| == i && fresh(delayPoints)
        invariant forall j :: 0 <= j < i ==> Mirrors(delayPoints[j], config.fixed.order[j], config)
      {
        var k := config.fixed.order[i];
        var p := new DelayPoint(k, config.fixed.data[k], k in config.on);
        delayPoints := delayPoints + [p];
      }
    }

    /** The enabled points in list order: no enabled point is missing and none is repeated. */
    method EnabledPoints() returns (r: seq<DelayPoint>)
      requires Valid()
      ensures forall p :: p in r <==> p in delayPoints && p.enabled
      ensures Sublist(r, delayPoints)
      ensures Distinct(KeysOf(r))
      ensures KeySet(r) == config.on
    {
      hide Valid, KeySet, Embeds;
      r := [];
      ghost var f: seq<nat> := [];
      EmbedsNone(delayPoints);
      for i := 0 to |delayPoints|
        invariant forall p :: p in r <==> p in delayPoints[..i] && p.enabled
        invariant Embeds(r, delayPoints, f)
        invariant forall j :: 0 <= j < |f| ==> f[j] < i
      {
        if delayPoints[i].enabled {
          EmbedsMore(r, delayPoints, f, i);
          r := r + [delayPoints[i]];
          f := f + [i];
        }
        assert delayPoints[..i + 1] == delayPoints[..i] + [delayPoints[i]];
      }
      assert delayPoints[..|delayPoints|] == delayPoints;
      EnabledKeysAre(r);
      KeysEmbed(r, f);
    }

    lemma KeysEmbed(r: seq<DelayPoint>, f: seq<nat>)
      requires Valid() && Embeds(r, delayPoints, f)
      ensures Distinct(KeysOf(r))
    {
      forall i | 0 <= i < |f| ensures KeysOf(r)[i] == config.fixed.order[f[i]] {
        assert Mirrors(delayPoints[f[i]], config.fixed.order[f[i]], config);
      }
      assert Embeds(KeysOf(r), config.fixed.order, f);
      SublistElements(KeysOf(r), config.fixed.order);
    }

    lemma EnabledKeysAre(r: seq<DelayPoint>)
      requires Valid()
      requires forall p :: p in r <==> p in delayPoints && p.enabled
      ensures KeySet(r) == config.on
    {
      forall k | k in KeySet(r) ensures k in config.on {
        var i :| 0 <= i < |r| && KeysOf(r)[i] == k;
        assert r[i] in r;
        var j :| 0 <= j < |delayPoints| && delayPoints[j] == r[i];
        assert Mirrors(delayPoints[j], config.fixed.order[j], config);
      }
      forall k | k in config.on ensures k in KeySet(r) {
        assert k in config.fixed.order;
        var j :| 0 <= j < |config.fixed.order| && config.fixed.order[j] == k;
        assert Mirrors(delayPoints[j], config.fixed.order[j], config);
        assert delayPoints[j] in r;
        var i :| 0 <= i < |r| && r[i] == delayPoints[j];
        assert KeysOf(r)[i] == k;
      }
    }

    lemma PointAt(i: nat)
      requires Valid() && i < |delayPoints|
      ensures |config.fixed.order| == |delayPoints| && delayPoints[i].key == config.fixed.order[i]
    {
      assert Mirrors(delayPoints[i], config.fixed.order[i], config);
    }

    lemma IsValid()
      requires Valid()
      ensures config.Valid() && |config.fixed.order| == |delayPoints|
    {
    }

    /** Changes the object and the configuration together; nothing else moves. */
    method SetPointEnabled(point: DelayPoint, enabled: bool)
      requires Valid() && point in delayPoints
      modifies this`config, point`enabled
      ensures Valid()
      ensures config == old(config).(on := if enabled then old(config.on) + {point.key} else old(config.on) - {point.key})
      ensures point.enabled == enabled
    {
      ghost var at :| 0 <= at < |delayPoints| && delayPoints[at] == point;
      assert Mirrors(point, config.fixed.order[at], config);
      point.enabled := enabled;
      config := config.(on := if enabled then config.on + {point.key} else config.on - {point.key});
      forall i | 0 <= i < |delayPoints| ensures Mirrors(delayPoints[i], config.fixed.order[i], config) {
        assert old(Mirrors(delayPoints[i], config.fixed.order[i], config));
      }
    }

    method SetAllEnabled(enabled: bool)
      requires Valid()
      modifies this`config, delayPoints
      ensures Valid()
      ensures config == old(config).(on := if enabled then old(config.fixed.data.Keys) else {})
    {
      hide Valid, config.Valid;
      ghost var start := config;
      IsValid();
      for i := 0 to |delayPoints|
        invariant Valid() && config.fixed == start.fixed
        invariant forall j :: 0 <= j < i ==> (start.fixed.order[j] in config.on <==> enabled)
      {
        PointAt(i);
        SetPointEnabled(delayPoints[i], enabled);
      }
      IsValid();
      AllWritten(start, config, enabled);
    }

    /** Switches on every point whose key is in `keys`. */
    method EnableMatching(keys: set<PointKey>)
      requires Valid()
      modifies this`config, delayPoints
      ensures Valid()
      ensures config == old(config).(on := old(config.on) + keys * old(config.fixed.data.Keys))
    {
      hide Valid, config.Valid;
      ghost var start := config;
      IsValid();
      for i := 0 to |delayPoints|
        invariant Valid() && config.fixed == start.fixed
        invariant start.on <= config.on <= start.on + keys
        invariant forall j :: 0 <= j < i && start.fixed.order[j] in keys ==> start.fixed.order[j] in config.on
      {
        PointAt(i);
        if delayPoints[i].key in keys {
          SetPointEnabled(delayPoints[i], true);
        }
      }
      IsValid();
      MatchesWritten(start, config, keys);
    }

    /** A deep copy: same configuration, fresh point objects. */
    method Clone() returns (m: DelayConfigMutator)
      requires Valid()
      ensures fresh(m) && m.Valid() && fresh(m.delayPoints) && m.config == config
    {
      m := new DelayConfigMutator(config);
    }
  }
}
