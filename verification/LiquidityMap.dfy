/** Level clustering and volume profile (app/liquidity/liquidity_map_v2.py). */
module LiquidityMap {
  import opened Common

  const TEN_PLACES: real := 10000000000.0

  // ---- greedy running-mean clustering ----

  /** A cluster cell: running mean and touch count. */
  datatype Cluster = Cluster(center: real, count: nat)

  predicate Near(c: Cluster, v: real, tol: real) {
    Abs(c.center - v) <= tol
  }

  /** Index of the first cluster within tolerance, or the length if there is none. */
  function FirstNear(cs: seq<Cluster>, v: real, tol: real): (i: nat)
    ensures i <= |cs|
    ensures forall j :: 0 <= j < i ==> !Near(cs[j], v, tol)
    ensures i < |cs| ==> Near(cs[i], v, tol)
  {
    if cs == [] || Near(cs[0], v, tol) then 0 else 1 + FirstNear(cs[1..], v, tol)
  }

  function Grow(c: Cluster, v: real): Cluster {
    var n := c.count + 1;
    Cluster((c.center * (n - 1) as real + v) / n as real, n)
  }

  ghost function Harmonic(n: nat): real {
    if n == 0 then 0.0 else Harmonic(n - 1) + 1.0 / n as real
  }

  /** How far a member of an n-member cluster can have drifted from the final centre. */
  ghost function DriftBound(tol: real, n: nat): real {
    tol * (Harmonic(n) - 1.0)
  }

  /** The cluster is the exact mean of its members, and none of them drifted too far. */
  ghost predicate Explained(c: Cluster, members: seq<real>, tol: real) {
    && c.count == |members| >= 1
    && c.center * c.count as real == Sum(members)
    && forall i :: 0 <= i < |members| ==> Abs(members[i] - c.center) <= DriftBound(tol, c.count)
  }

  ghost function Pooled(groups: seq<seq<real>>): multiset<real> {
    if groups == [] then multiset{} else Pooled(groups[..|groups| - 1]) + multiset(groups[|groups| - 1])
  }

  ghost function Touches(cs: seq<Cluster>): nat {
    if cs == [] then 0 else Touches(cs[..|cs| - 1]) + cs[|cs| - 1].count
  }

  /** The clusters are a partition of the values, each explained by its own part. */
  ghost predicate Partition(cs: seq<Cluster>, groups: seq<seq<real>>, values: seq<real>, tol: real) {
    && |cs| == |groups|
    && (forall i :: 0 <= i < |cs| ==> Explained(cs[i], groups[i], tol))
    && Pooled(groups) == multiset(values)
    && Touches(cs) == |values|
  }

  lemma SumAppend(xs: seq<real>, v: real)
    ensures Sum(xs + [v]) == Sum(xs) + v
  {
    assert (xs + [v])[..|xs|] == xs;
  }

  lemma ScaleBack(x: real, y: real, k: real)
    requires x * k <= y * k && k > 0.0
    ensures x <= y
  {
  }

  lemma InverseStep(m: real)
    requires m >= 3.0
    ensures 1.0 - 1.0 / m <= 1.0 - 1.0 / (m - 1.0) + 1.0 / m
  {
    var a, b := 1.0 / m, 1.0 / (m - 1.0);
    assert a * m == 1.0 && b * (m - 1.0) == 1.0;
    ScaleBack(a, 0.5, m);
    assert 2.0 * a * (m - 1.0) == 2.0 - 2.0 * a;
    ScaleBack(b, 2.0 * a, m - 1.0);
  }

  /** A newcomer at distance at most tol lands within tol * (n - 1) / n of the new mean,
      which the harmonic bound covers. */
  lemma {:induction false} NewcomerBound(n: nat)
    requires n >= 2
    ensures (n - 1) as real / n as real <= Harmonic(n) - 1.0
  {
    if n == 2 {
      assert Harmonic(1) == 1.0;
    } else {
      NewcomerBound(n - 1);
      var m := n as real;
      assert (m - 2.0) / (m - 1.0) == 1.0 - 1.0 / (m - 1.0);
      assert (m - 1.0) / m == 1.0 - 1.0 / m;
      InverseStep(m);
    }
  }

  lemma MeanMoves(c: Cluster, v: real)
    requires c.count >= 1
    ensures var n := (c.count + 1) as real;
            && Grow(c, v).center * n == c.center * (n - 1.0) + v
            && Grow(c, v).center - c.center == (v - c.center) * (1.0 / n)
            && v - Grow(c, v).center == (v - c.center) * ((n - 1.0) / n)
  {
    var n := (c.count + 1) as real;
    var inv := 1.0 / n;
    assert n * inv == 1.0;
    assert Grow(c, v).center == (c.center * (n - 1.0) + v) * inv;
    assert (n - 1.0) / n == (n - 1.0) * inv == 1.0 - inv;
  }

  lemma AbsScaled(d: real, tol: real, k: real)
    requires Abs(d) <= tol && k >= 0.0
    ensures Abs(d * k) <= tol * k
  {
  }

  lemma BoundMonotone(tol: real, a: real, b: real)
    requires tol >= 0.0 && a <= b
    ensures tol * a <= tol * b
  {
  }

  lemma GrowShift(c: Cluster, v: real, tol: real)
    requires c.count >= 1 && Near(c, v, tol)
    ensures Abs(Grow(c, v).center - c.center) <= tol * (1.0 / (c.count + 1) as real)
  {
    MeanMoves(c, v);
    AbsScaled(v - c.center, tol, 1.0 / (c.count + 1) as real);
  }

  lemma GrowNewcomer(c: Cluster, v: real, tol: real)
    requires c.count >= 1 && Near(c, v, tol)
    ensures Abs(v - Grow(c, v).center) <= DriftBound(tol, c.count + 1)
  {
    var n := c.count + 1;
    var share := (n - 1) as real / n as real;
    MeanMoves(c, v);
    NewcomerBound(n);
    AbsScaled(v - c.center, tol, share);
    BoundMonotone(tol, share, Harmonic(n) - 1.0);
  }

  lemma GrowMean(c: Cluster, v: real)
    requires c.count >= 1
    ensures Grow(c, v).center * Grow(c, v).count as real == c.center * c.count as real + v
  {
    MeanMoves(c, v);
  }

  lemma Triangle(a: real, b: real)
    ensures Abs(a - b) <= Abs(a) + Abs(b)
  {
  }

  lemma HarmonicDrift(tol: real, n: nat)
    requires n >= 1
    ensures DriftBound(tol, n) == DriftBound(tol, n - 1) + tol * (1.0 / n as real)
  {
    var h, k := Harmonic(n - 1), 1.0 / n as real;
    assert tol * (h + k - 1.0) == tol * (h - 1.0) + tol * k;
  }

  lemma MemberDrifts(c: Cluster, x: real, v: real, tol: real)
    requires c.count >= 1 && Near(c, v, tol) && Abs(x - c.center) <= DriftBound(tol, c.count)
    ensures Abs(x - Grow(c, v).center) <= DriftBound(tol, c.count + 1)
  {
    GrowShift(c, v, tol);
    HarmonicDrift(tol, c.count + 1);
    Triangle(x - c.center, Grow(c, v).center - c.center);
  }

  lemma GrowExplained(c: Cluster, members: seq<real>, v: real, tol: real)
    requires Explained(c, members, tol) && Near(c, v, tol)
    ensures Explained(Grow(c, v), members + [v], tol)
  {
    var n, c', all := c.count + 1, Grow(c, v), members + [v];
    SumAppend(members, v);
    GrowMean(c, v);
    forall i | 0 <= i < |all|
      ensures Abs(all[i] - c'.center) <= DriftBound(tol, n)
    {
      if i < |members| {
        MemberDrifts(c, members[i], v, tol);
      } else {
        GrowNewcomer(c, v, tol);
      }
    }
  }

  lemma {:induction false} PooledUpdate(groups: seq<seq<real>>, i: nat, v: real)
    requires i < |groups|
    ensures Pooled(groups[i := groups[i] + [v]]) == Pooled(groups) + multiset{v}
  {
    var init, last := groups[..|groups| - 1], groups[|groups| - 1];
    var updated := groups[i := groups[i] + [v]];
    if i == |groups| - 1 {
      assert updated[..|groups| - 1] == init;
      assert multiset(last + [v]) == multiset(last) + multiset{v};
    } else {
      PooledUpdate(init, i, v);
      assert updated[..|groups| - 1] == init[i := init[i] + [v]];
    }
  }

  lemma {:induction false} TouchesUpdate(cs: seq<Cluster>, i: nat, c: Cluster)
    requires i < |cs| && c.count == cs[i].count + 1
    ensures Touches(cs[i := c]) == Touches(cs) + 1
  {
    var init := cs[..|cs| - 1];
    if i == |cs| - 1 {
      assert cs[i := c][..|cs| - 1] == init;
    } else {
      TouchesUpdate(init, i, c);
      assert cs[i := c][..|cs| - 1] == init[i := c];
    }
  }

  lemma SingletonExplained(v: real, tol: real)
    ensures Explained(Cluster(v, 1), [v], tol)
  {
    assert Harmonic(1) == 1.0;
    assert [v][..0] == [];
  }

  ghost function Place(cs: seq<Cluster>, groups: seq<seq<real>>, v: real, tol: real): (seq<Cluster>, seq<seq<real>>) {
    var i := FirstNear(cs, v, tol);
    if i < |cs| && i < |groups| then (cs[i := Grow(cs[i], v)], groups[i := groups[i] + [v]])
    else (cs + [Cluster(v, 1)], groups + [[v]])
  }

  /** The clustering as a fold, value by value: the first near cluster takes it, or a new
      one opens. The second component names which values went where. */
  ghost function Clustered(values: seq<real>, tol: real): (seq<Cluster>, seq<seq<real>>) {
    if values == [] then ([], [])
    else
      var (cs, groups) := Clustered(values[..|values| - 1], tol);
      Place(cs, groups, values[|values| - 1], tol)
  }

  lemma PlaceKeepsPartition(cs: seq<Cluster>, groups: seq<seq<real>>, values: seq<real>, tol: real, v: real)
    requires Partition(cs, groups, values, tol)
    ensures var (cs', groups') := Place(cs, groups, v, tol);
            Partition(cs', groups', values + [v], tol)
  {
    var i := FirstNear(cs, v, tol);
    if i < |cs| {
      GrowExplained(cs[i], groups[i], v, tol);
      PooledUpdate(groups, i, v);
      TouchesUpdate(cs, i, Grow(cs[i], v));
    } else {
      SingletonExplained(v, tol);
      assert (groups + [[v]])[..|groups|] == groups;
      assert multiset([v]) == multiset{v};
      assert (cs + [Cluster(v, 1)])[..|cs|] == cs;
    }
    assert multiset(values + [v]) == multiset(values) + multiset{v};
  }

  /** For any values and tolerance: every value is in exactly one cluster, a cluster's centre
      times its count is the sum of its members, counts add up to the number of values, and
      although centres drift, every member of an n-member cluster stays within
      tol * (H(n) - 1) of the final centre. */
  lemma {:induction false} ClusteringIsPartition(values: seq<real>, tol: real)
    ensures var (cs, groups) := Clustered(values, tol);
            Partition(cs, groups, values, tol)
  {
    if values != [] {
      var init, v := values[..|values| - 1], values[|values| - 1];
      ClusteringIsPartition(init, tol);
      var (cs, groups) := Clustered(init, tol);
      PlaceKeepsPartition(cs, groups, init, tol, v);
      assert values == init + [v];
    }
  }

  /** v, and then each value one tolerance above the centre of those before it. */
  ghost function Staircase(v: real, tol: real, n: nat): (values: seq<real>)
    requires n >= 1
    ensures |values| == n && values[0] == v
  {
    if n == 1 then [v] else Staircase(v, tol, n - 1) + [v + DriftBound(tol, n - 1) + tol]
  }

  lemma {:induction false} HarmonicGrows(n: nat)
    requires n >= 1
    ensures Harmonic(n) >= 1.0
  {
    if n == 1 {
      assert Harmonic(0) == 0.0;
    } else {
      HarmonicGrows(n - 1);
    }
  }

  /** One step up the stairs moves the centre by tol / n. */
  lemma StepUp(c: Cluster, v: real, tol: real)
    requires c.count >= 1 && tol >= 0.0 && c.center == v + DriftBound(tol, c.count)
    ensures Grow(c, c.center + tol) == Cluster(v + DriftBound(tol, c.count + 1), c.count + 1)
  {
    MeanMoves(c, c.center + tol);
    HarmonicDrift(tol, c.count + 1);
  }

  lemma {:induction false} StaircaseIsOneCluster(v: real, tol: real, n: nat)
    requires tol >= 0.0 && n >= 1
    ensures Clustered(Staircase(v, tol, n), tol).0 == [Cluster(v + DriftBound(tol, n), n)]
    ensures |Clustered(Staircase(v, tol, n), tol).1| == 1
  {
    var values := Staircase(v, tol, n);
    if n == 1 {
      assert values[..0] == [] && Clustered(values[..0], tol) == ([], []);
      assert Harmonic(1) == 1.0;
    } else {
      StaircaseIsOneCluster(v, tol, n - 1);
      assert values[..n - 1] == Staircase(v, tol, n - 1);
      StepUp(Cluster(v + DriftBound(tol, n - 1), n - 1), v, tol);
    }
  }

  /** The bound is attained at every size: on the staircase all n values end in one cluster, and
      the first is exactly tol * (H(n) - 1) from its centre. */
  lemma DriftBoundIsTight(v: real, tol: real, n: nat)
    requires tol >= 0.0 && n >= 1
    ensures var values := Staircase(v, tol, n);
            var cs := Clustered(values, tol).0;
            |cs| == 1 && cs[0].count == n && Abs(values[0] - cs[0].center) == DriftBound(tol, n)
  {
    StaircaseIsOneCluster(v, tol, n);
    HarmonicGrows(n);
    BoundMonotone(tol, 0.0, Harmonic(n) - 1.0);
  }

  // ---- the reported levels ----

  function Level(c: Cluster): Cluster { Cluster(Round(c.center, TEN_PLACES), c.count) }

  function Touched(cs: seq<Cluster>): seq<Cluster> {
    if cs == [] then []
    else
      var rest, last := Touched(cs[..|cs| - 1]), cs[|cs| - 1];
      if last.count >= 2 then rest + [Level(last)] else rest
  }

  /** Insert after every entry with at least as many touches, as a stable sort does. */
  function InsertByTouches(sorted: seq<Cluster>, c: Cluster): seq<Cluster> {
    if sorted == [] || sorted[0].count < c.count then [c] + sorted
    else [sorted[0]] + InsertByTouches(sorted[1..], c)
  }

  /** `sorted(out, key=touches, reverse=True)`. */
  function SortByTouches(cs: seq<Cluster>): seq<Cluster> {
    if cs == [] then [] else InsertByTouches(SortByTouches(cs[..|cs| - 1]), cs[|cs| - 1])
  }

  ghost predicate MostTouchedFirst(cs: seq<Cluster>) {
    forall i, j :: 0 <= i < j < |cs| ==> cs[i].count >= cs[j].count
  }

  lemma {:induction false} InsertByTouchesKeeps(sorted: seq<Cluster>, c: Cluster)
    ensures multiset(InsertByTouches(sorted, c)) == multiset(sorted) + multiset{c}
  {
    if sorted == [] || sorted[0].count < c.count {
    } else {
      InsertByTouchesKeeps(sorted[1..], c);
      assert sorted == [sorted[0]] + sorted[1..];
    }
  }

  lemma {:induction false} InsertByTouchesSorts(sorted: seq<Cluster>, c: Cluster)
    requires MostTouchedFirst(sorted)
    ensures MostTouchedFirst(InsertByTouches(sorted, c))
    ensures var r := InsertByTouches(sorted, c);
            r[0].count <= c.count || (sorted != [] && r[0] == sorted[0])
  {
    if sorted == [] || sorted[0].count < c.count {
    } else {
      InsertByTouchesSorts(sorted[1..], c);
    }
  }

  lemma {:induction false} SortByTouchesKeeps(cs: seq<Cluster>)
    ensures multiset(SortByTouches(cs)) == multiset(cs)
  {
    if cs != [] {
      var init, last := cs[..|cs| - 1], cs[|cs| - 1];
      SortByTouchesKeeps(init);
      InsertByTouchesKeeps(SortByTouches(init), last);
      assert cs == init + [last];
    }
  }

  lemma {:induction false} SortByTouchesOrders(cs: seq<Cluster>)
    ensures MostTouchedFirst(SortByTouches(cs))
  {
    if cs != [] {
      SortByTouchesOrders(cs[..|cs| - 1]);
      InsertByTouchesSorts(SortByTouches(cs[..|cs| - 1]), cs[|cs| - 1]);
    }
  }

  /** The clusters with this many touches, in order. */
  ghost function WithTouches(cs: seq<Cluster>, n: nat): seq<Cluster> {
    if cs == [] then [] else (if cs[0].count == n then [cs[0]] else []) + WithTouches(cs[1..], n)
  }

  lemma {:induction false} WithTouchesAppend(cs: seq<Cluster>, c: Cluster, n: nat)
    ensures WithTouches(cs + [c], n) == WithTouches(cs, n) + if c.count == n then [c] else []
  {
    if cs == [] {
      assert [] + [c] == [c] && [c][1..] == [];
    } else {
      assert (cs + [c])[1..] == cs[1..] + [c];
      WithTouchesAppend(cs[1..], c, n);
    }
  }

  lemma {:induction false} NoneWithTouches(cs: seq<Cluster>, n: nat)
    requires forall i :: 0 <= i < |cs| ==> cs[i].count < n
    ensures WithTouches(cs, n) == []
  {
    if cs != [] {
      NoneWithTouches(cs[1..], n);
    }
  }

  /** Inserting behind every entry with at least as many touches puts the newcomer last among its
      equals. */
  lemma {:induction false} InsertIsStable(sorted: seq<Cluster>, c: Cluster, n: nat)
    requires MostTouchedFirst(sorted)
    ensures WithTouches(InsertByTouches(sorted, c), n) == WithTouches(sorted, n) + if c.count == n then [c] else []
  {
    if sorted == [] || sorted[0].count < c.count {
      assert ([c] + sorted)[1..] == sorted;
      if c.count == n {
        NoneWithTouches(sorted, n);
      }
    } else {
      InsertIsStable(sorted[1..], c, n);
      assert ([sorted[0]] + InsertByTouches(sorted[1..], c))[1..] == InsertByTouches(sorted[1..], c);
    }
  }

  /** The sort keeps the order of equally touched clusters. */
  lemma {:induction false} SortIsStable(cs: seq<Cluster>, n: nat)
    ensures WithTouches(SortByTouches(cs), n) == WithTouches(cs, n)
  {
    if cs != [] {
      var init, last := cs[..|cs| - 1], cs[|cs| - 1];
      SortIsStable(init, n);
      SortByTouchesOrders(init);
      InsertIsStable(SortByTouches(init), last, n);
      WithTouchesAppend(init, last, n);
      assert cs == init + [last];
    }
  }

  lemma SortByTouchesSorts(cs: seq<Cluster>)
    ensures MostTouchedFirst(SortByTouches(cs))
    ensures multiset(SortByTouches(cs)) == multiset(cs)
  {
    SortByTouchesOrders(cs);
    SortByTouchesKeeps(cs);
  }

  /** A level reports a cluster: its centre to ten places, its count as it is. */
  ghost predicate IsLevelOf(l: Cluster, c: Cluster) {
    l.count == c.count && IsRounded(l.center, c.center, 10000000000.0)
  }

  lemma LevelReports(c: Cluster)
    ensures IsLevelOf(Level(c), c)
  {
    RoundIs(c.center, 10000000000.0);
  }

  /** Positions of the clusters touched at least twice. */
  ghost function TwiceAt(cs: seq<Cluster>): set<int> {
    set i | 0 <= i < |cs| && cs[i].count >= 2
  }

  lemma TwiceSnoc(init: seq<Cluster>, last: Cluster)
    ensures |TwiceAt(init + [last])| == |TwiceAt(init)| + if last.count >= 2 then 1 else 0
  {
    if last.count >= 2 {
      assert TwiceAt(init + [last]) == TwiceAt(init) + {|init|};
    } else {
      assert TwiceAt(init + [last]) == TwiceAt(init);
    }
  }

  lemma {:induction false} TouchedCount(cs: seq<Cluster>)
    ensures |Touched(cs)| == |TwiceAt(cs)|
  {
    if cs == [] {
      assert TwiceAt(cs) == {};
    } else {
      var init, last := cs[..|cs| - 1], cs[|cs| - 1];
      TouchedCount(init);
      TwiceSnoc(init, last);
      assert cs == init + [last];
    }
  }

  lemma {:induction false} TouchedMembers(cs: seq<Cluster>, l: Cluster)
    ensures l in Touched(cs) <==> exists c :: c in cs && c.count >= 2 && l == Level(c)
  {
    if cs != [] {
      var init, last := cs[..|cs| - 1], cs[|cs| - 1];
      TouchedMembers(init, l);
      assert cs == init + [last];
    }
  }

  /** Exactly the clusters touched at least twice are reported, each once, with their centre
      rounded. */
  lemma TouchedTwice(cs: seq<Cluster>)
    ensures forall l :: l in Touched(cs) ==> exists c :: c in cs && c.count >= 2 && IsLevelOf(l, c)
    ensures forall c :: c in cs && c.count >= 2 ==> exists l :: l in Touched(cs) && IsLevelOf(l, c)
    ensures |Touched(cs)| == |TwiceAt(cs)|
  {
    TouchedCount(cs);
    forall l | l in Touched(cs)
      ensures exists c :: c in cs && c.count >= 2 && IsLevelOf(l, c)
    {
      TouchedMembers(cs, l);
      var c :| c in cs && c.count >= 2 && l == Level(c);
      LevelReports(c);
    }
    forall c | c in cs && c.count >= 2
      ensures exists l :: l in Touched(cs) && IsLevelOf(l, c)
    {
      TouchedMembers(cs, Level(c));
      LevelReports(c);
    }
  }

  /** The whole clustering: greedy loops over mutable cells, touch filter, sort. */
  method ClusterLevels(values: seq<real>, tol: real) returns (levels: seq<Cluster>)
    ensures levels == SortByTouches(Touched(Clustered(values, tol).0))
    ensures MostTouchedFirst(levels) && multiset(levels) == multiset(Touched(Clustered(values, tol).0))
  {
    var cs: seq<Cluster> := [];
    ghost var groups: seq<seq<real>> := [];
    for k := 0 to |values|
      invariant (cs, groups) == Clustered(values[..k], tol) && |cs| == |groups|
    {
      var v := values[k];
      var i := 0;
      while i < |cs| && !Near(cs[i], v, tol)
        invariant 0 <= i <= |cs| && forall j :: 0 <= j < i ==> !Near(cs[j], v, tol)
      {
        i := i + 1;
      }
      assert i == FirstNear(cs, v, tol);
      assert values[..k + 1][..k] == values[..k];
      if i < |cs| {
        cs, groups := cs[i := Grow(cs[i], v)], groups[i := groups[i] + [v]];
      } else {
        cs, groups := cs + [Cluster(v, 1)], groups + [[v]];
      }
    }
    assert values[..|values|] == values;
    SortByTouchesSorts(Touched(cs));
    levels := SortByTouches(Touched(cs));
  }

  // ---- volume profile ----

  const BINS: nat := 24

  function MinOf(xs: seq<real>): real requires xs != [] {
    if |xs| == 1 then xs[0] else Min(MinOf(xs[..|xs| - 1]), xs[|xs| - 1])
  }

  function MaxOf(xs: seq<real>): real requires xs != [] {
    if |xs| == 1 then xs[0] else Max(MaxOf(xs[..|xs| - 1]), xs[|xs| - 1])
  }

  function BinOf(c: real, lo: real, width: real): (b: nat)
    requires width > 0.0
    ensures b < BINS
  {
    var t := TowardZero((c - lo) / width);
    var floored := if t < 0 then 0 else t;
    if floored > BINS - 1 then BINS - 1 else floored
  }

  /** The closes of bin b: from lo + b * width up to, not including, lo + (b + 1) * width, except that
      the first bin also takes what lies below and the last what lies at or above the end. */
  ghost predicate InBin(c: real, lo: real, width: real, b: nat) {
    b < 24 && (b == 0 || lo + b as real * width <= c) && (b == 23 || c < lo + (b + 1) as real * width)
  }

  lemma QuotientOrder(n: int, x: real, width: real)
    requires width > 0.0
    ensures n as real <= x / width <==> n as real * width <= x
  {
    var q := x / width;
    assert q * width == x;
    if n as real <= q {
      assert (q - n as real) * width >= 0.0;
    } else {
      assert (n as real - q) * width > 0.0;
    }
  }

  lemma FloorBetween(x: real, n: int)
    ensures n <= x.Floor <==> n as real <= x
  {
  }

  lemma BinByQuotient(q: real, b: nat)
    ensures var t := TowardZero(q);
            var floored := if t < 0 then 0 else t;
            (if floored > 23 then 23 else floored) == b
            <==> b < 24 && (b == 0 || b <= q.Floor) && (b == 23 || !(b + 1 <= q.Floor))
  {
  }

  /** The clamped truncation puts every close into the one bin whose interval it lies in. */
  lemma BinIff(c: real, lo: real, width: real, b: nat)
    requires width > 0.0
    ensures BinOf(c, lo, width) == b <==> InBin(c, lo, width, b)
  {
    var q := (c - lo) / width;
    QuotientOrder(0, c - lo, width);
    QuotientOrder(b, c - lo, width);
    QuotientOrder(b + 1, c - lo, width);
    FloorBetween(q, b);
    FloorBetween(q, b + 1);
    assert b as real <= q <==> lo + b as real * width <= c;
    assert (b + 1) as real <= q <==> lo + (b + 1) as real * width <= c;
    assert 0.0 <= q <==> lo <= c;
    BinByQuotient(q, b);
  }

  /** Volume traded in bin b over the first n paired candles. */
  ghost function VolumeIn(closes: seq<real>, volumes: seq<real>, n: nat, lo: real, width: real, b: nat): real
    requires n <= |closes| && n <= |volumes|
  {
    if n == 0 then 0.0
    else
      VolumeIn(closes, volumes, n - 1, lo, width, b)
      + (if InBin(closes[n - 1], lo, width, b) then volumes[n - 1] else 0.0)
  }

  /** b is the first bin with the largest volume. */
  ghost predicate IsPeak(closes: seq<real>, volumes: seq<real>, n: nat, lo: real, width: real, b: nat)
    requires n <= |closes| && n <= |volumes|
  {
    && b < 24
    && (forall o :: 0 <= o < 24 ==>
          VolumeIn(closes, volumes, n, lo, width, o) <= VolumeIn(closes, volumes, n, lo, width, b))
    && (forall o :: 0 <= o < b ==>
          VolumeIn(closes, volumes, n, lo, width, o) < VolumeIn(closes, volumes, n, lo, width, b))
  }

  function Paired(closes: seq<real>, volumes: seq<real>): (n: nat)
    ensures n <= |closes| && n <= |volumes| && (n == |closes| || n == |volumes|)
  {
    if |closes| < |volumes| then |closes| else |volumes|
  }

  function BinWidth(lo: real, hi: real): (w: real)
    ensures lo < hi ==> w > 0.0
  {
    (hi - lo) / BINS as real
  }

  function MidBin(lo: real, width: real, b: nat): real {
    Round(lo + (b as real + 0.5) * width, TEN_PLACES)
  }

  ghost predicate IsMiddleOfPeak(
    closes: seq<real>, volumes: seq<real>, lo: real, width: real, b: nat, price: real)
  {
    && IsPeak(closes, volumes, Paired(closes, volumes), lo, width, b)
    && IsRounded(price, lo + (b as real + 0.5) * width, 10000000000.0)
  }

  /** The price in the middle of the first busiest of 24 equal bins between lo and hi, rounded to ten
      places. */
  ghost predicate IsPointOfControl(closes: seq<real>, volumes: seq<real>, lo: real, hi: real, price: real) {
    exists b: nat, width: real ::
      IsMiddleOfPeak(closes, volumes, lo, width, b, price) && width * 24.0 == hi - lo
  }

  /** The histogram loop. */
  method FillBuckets(closes: seq<real>, volumes: seq<real>, lo: real, width: real) returns (buckets: array<real>)
    requires width > 0.0
    ensures buckets.Length == 24
    ensures forall b :: 0 <= b < 24 ==>
              buckets[b] == VolumeIn(closes, volumes, Paired(closes, volumes), lo, width, b)
  {
    buckets := new real[BINS](_ => 0.0);
    for k := 0 to Paired(closes, volumes)
      invariant forall b {:trigger buckets[b]} :: 0 <= b < BINS ==>
                  buckets[b] == VolumeIn(closes, volumes, k, lo, width, b)
    {
      var idx := BinOf(closes[k], lo, width);
      forall b: nat | b < 24
        ensures idx == b <==> InBin(closes[k], lo, width, b)
      {
        BinIff(closes[k], lo, width, b);
      }
      buckets[idx] := buckets[idx] + volumes[k];
    }
  }

  /** `max(range(bins), key=buckets)`: the first of the largest. */
  method PeakBin(buckets: array<real>) returns (peak: nat)
    requires buckets.Length > 0
    ensures peak < buckets.Length
    ensures forall o :: 0 <= o < buckets.Length ==> buckets[o] <= buckets[peak]
    ensures forall o :: 0 <= o < peak ==> buckets[o] < buckets[peak]
  {
    peak := 0;
    for i := 1 to buckets.Length
      invariant peak < i
      invariant forall o :: 0 <= o < i ==> buckets[o] <= buckets[peak]
      invariant forall o :: 0 <= o < peak ==> buckets[o] < buckets[peak]
    {
      if buckets[i] > buckets[peak] {
        peak := i;
      }
    }
  }

  /** The point of control, none, or Python's `min` or `max` raising on an empty list. */
  datatype Profile = NoProfile | At(price: real) | EmptyList

  ghost predicate IsLeast(x: real, xs: seq<real>) { x in xs && forall i :: 0 <= i < |xs| ==> x <= xs[i] }

  ghost predicate IsGreatest(x: real, xs: seq<real>) { x in xs && forall i :: 0 <= i < |xs| ==> xs[i] <= x }

  lemma {:induction false} MinOfIsLeast(xs: seq<real>)
    requires xs != []
    ensures IsLeast(MinOf(xs), xs)
  {
    if |xs| > 1 {
      MinOfIsLeast(xs[..|xs| - 1]);
      assert xs == xs[..|xs| - 1] + [xs[|xs| - 1]];
    }
  }

  lemma {:induction false} MaxOfIsGreatest(xs: seq<real>)
    requires xs != []
    ensures IsGreatest(MaxOf(xs), xs)
  {
    if |xs| > 1 {
      MaxOfIsGreatest(xs[..|xs| - 1]);
      assert xs == xs[..|xs| - 1] + [xs[|xs| - 1]];
    }
  }

  lemma LeastIsUnique(x: real, y: real, xs: seq<real>)
    ensures IsLeast(x, xs) && IsLeast(y, xs) ==> x == y
    ensures IsGreatest(x, xs) && IsGreatest(y, xs) ==> x == y
  {
  }

  lemma MiddleRounded(lo: real, width: real, b: nat)
    ensures IsRounded(MidBin(lo, width, b), lo + (b as real + 0.5) * width, 10000000000.0)
  {
    RoundIs(lo + (b as real + 0.5) * width, 10000000000.0);
  }

  lemma MiddleIsMiddle(closes: seq<real>, volumes: seq<real>, lo: real, width: real, b: nat)
    requires IsPeak(closes, volumes, Paired(closes, volumes), lo, width, b)
    ensures IsMiddleOfPeak(closes, volumes, lo, width, b, MidBin(lo, width, b))
  {
    MiddleRounded(lo, width, b);
  }

  lemma PeakIsControl(closes: seq<real>, volumes: seq<real>, lo: real, hi: real, b: nat)
    requires IsPeak(closes, volumes, Paired(closes, volumes), lo, BinWidth(lo, hi), b)
    ensures IsPointOfControl(closes, volumes, lo, hi, MidBin(lo, BinWidth(lo, hi), b))
  {
    MiddleIsMiddle(closes, volumes, lo, BinWidth(lo, hi), b);
    assert BinWidth(lo, hi) * 24.0 == hi - lo;
  }

  /** Point of control between the lowest low and the highest high, or none without volume or
      range. */
  method VolumeProfile(highs: seq<real>, lows: seq<real>, closes: seq<real>, volumes: seq<real>)
    returns (poc: Profile)
    ensures poc.EmptyList? <==> closes != [] && volumes != [] && (highs == [] || lows == [])
    ensures forall lo, hi :: IsLeast(lo, lows) && IsGreatest(hi, highs) ==>
              && (poc.At? <==> closes != [] && volumes != [] && lo < hi)
              && (poc.At? ==> IsPointOfControl(closes, volumes, lo, hi, poc.price))
    ensures poc.At? ==> lows != [] && highs != []
  {
    if volumes == [] || closes == [] {
      return NoProfile;
    }
    if highs == [] || lows == [] {
      return EmptyList;
    }
    var lo, hi := MinOf(lows), MaxOf(highs);
    MinOfIsLeast(lows);
    MaxOfIsGreatest(highs);
    forall x, y
      ensures (IsLeast(x, lows) ==> x == lo) && (IsGreatest(y, highs) ==> y == hi)
    {
      LeastIsUnique(x, lo, lows);
      LeastIsUnique(y, hi, highs);
    }
    if hi <= lo {
      return NoProfile;
    }
    var width := BinWidth(lo, hi);
    var buckets := FillBuckets(closes, volumes, lo, width);
    var peak := PeakBin(buckets);
    assert IsPeak(closes, volumes, Paired(closes, volumes), lo, width, peak);
    PeakIsControl(closes, volumes, lo, hi, peak);
    poc := At(MidBin(lo, width, peak));
  }

  ghost function VolumeOver(closes: seq<real>, volumes: seq<real>, n: nat, lo: real, width: real, bins: nat): real
    requires n <= |closes| && n <= |volumes| && width > 0.0
  {
    if bins == 0 then 0.0
    else VolumeOver(closes, volumes, n, lo, width, bins - 1) + VolumeIn(closes, volumes, n, lo, width, bins - 1)
  }

  lemma {:induction false} VolumeOverStep(
    closes: seq<real>, volumes: seq<real>, n: nat, lo: real, width: real, bins: nat)
    requires 0 < n <= |closes| && n <= |volumes| && width > 0.0
    ensures VolumeOver(closes, volumes, n, lo, width, bins)
            == VolumeOver(closes, volumes, n - 1, lo, width, bins)
               + (if BinOf(closes[n - 1], lo, width) < bins then volumes[n - 1] else 0.0)
  {
    if bins > 0 {
      BinIff(closes[n - 1], lo, width, bins - 1);
      VolumeOverStep(closes, volumes, n, lo, width, bins - 1);
    }
  }

  lemma {:induction false} EmptyBins(closes: seq<real>, volumes: seq<real>, lo: real, width: real, bins: nat)
    requires width > 0.0
    ensures VolumeOver(closes, volumes, 0, lo, width, bins) == 0.0
  {
    if bins > 0 {
      EmptyBins(closes, volumes, lo, width, bins - 1);
    }
  }

  /** The histogram loses no volume: clamping sends every candle to one of the bins. */
  lemma {:induction false} HistogramConservesVolume(
    closes: seq<real>, volumes: seq<real>, n: nat, lo: real, width: real)
    requires n <= |closes| && n <= |volumes| && width > 0.0
    ensures VolumeOver(closes, volumes, n, lo, width, BINS) == Sum(volumes[..n])
    decreases n
  {
    if n == 0 {
      EmptyBins(closes, volumes, lo, width, BINS);
    } else {
      HistogramConservesVolume(closes, volumes, n - 1, lo, width);
      VolumeOverStep(closes, volumes, n, lo, width, BINS);
      assert volumes[..n][..n - 1] == volumes[..n - 1];
    }
  }

  /** The reported price lies inside the traded range, half a bin away from either end. */
  lemma PeakInsideRange(lo: real, hi: real, b: nat)
    requires lo < hi && b < BINS
    ensures var width := BinWidth(lo, hi);
            lo + 0.5 * width <= lo + (b as real + 0.5) * width <= hi - 0.5 * width
  {
    var width := BinWidth(lo, hi);
    assert width * BINS as real == hi - lo;
    BoundMonotone(width, 0.5, b as real + 0.5);
    BoundMonotone(width, b as real + 0.5, BINS as real - 0.5);
  }
}
