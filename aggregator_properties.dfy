/** What avg's reports mean: zone membership, counts, rounding, and how far the
    result is determined when map order and sort ties are left open. */
module AggregatorProperties {
  import opened SpotTypes
  import opened Aggregator

  // ---------------------------------------------------------------------------
  // Zones and counts

  /** A zone has observations exactly when it occurs in the history. */
  lemma {:induction false} ZoneCountPositive(h: seq<Obs>, z: string)
    ensures ZoneCount(h, z) > 0 <==> z in Zones(h)
    decreases |h|
  {
    if h != [] {
      var init := h[..|h| - 1];
      var o := h[|h| - 1];
      assert h == init + [o];
      TallyStep(init, o);
      ZoneCountPositive(init, z);
    }
  }

  /** A price that failed to parse still counts as an observation of its zone
      and adds nothing to the zone's sum. */
  lemma SyntaxErrorCountsAsZero(h: seq<Obs>, z: string)
    ensures ZoneCount(h + [Obs(z, SyntaxError)], z) == ZoneCount(h, z) + 1
    ensures ZoneSum(h + [Obs(z, SyntaxError)], z) == ZoneSum(h, z)
    ensures z in Zones(h + [Obs(z, SyntaxError)])
  {
    TallyStep(h, Obs(z, SyntaxError));
  }

  /** The sum of the zone counts of the records' zones. */
  function CountOver(h: seq<Obs>, r: seq<Price>): nat
  {
    if r == [] then 0 else ZoneCount(h, r[0].zone) + CountOver(h, r[1..])
  }

  /** How many records have zone x. */
  function Occurrences(r: seq<Price>, x: string): nat
  {
    if r == [] then 0 else (if r[0].zone == x then 1 else 0) + Occurrences(r[1..], x)
  }

  lemma ZoneSetCons(r: seq<Price>)
    requires r != []
    ensures ZoneSet(r) == {r[0].zone} + ZoneSet(r[1..])
  {
    assert r == [r[0]] + r[1..];
    forall x ensures x in r <==> x == r[0] || x in r[1..] { }
  }

  /** Dropping the first record keeps the zones distinct and loses its zone. */
  lemma DistinctTail(r: seq<Price>)
    requires DistinctZones(r) && r != []
    ensures DistinctZones(r[1..]) && r[0].zone !in ZoneSet(r[1..])
  {
    forall i, j | 0 <= i < j < |r| - 1 ensures r[1..][i].zone != r[1..][j].zone {
      assert r[1..][i] == r[i + 1] && r[1..][j] == r[j + 1];
    }
    forall p | p in r[1..] ensures p.zone != r[0].zone {
      var k :| 0 <= k < |r[1..]| && r[1..][k] == p;
      assert p == r[k + 1];
    }
  }

  lemma {:induction false} OccursOnce(r: seq<Price>, x: string)
    requires DistinctZones(r) && x in ZoneSet(r)
    ensures Occurrences(r, x) == 1
    decreases |r|
  {
    ZoneSetCons(r);
    DistinctTail(r);
    if r[0].zone == x {
      OccursNever(r[1..], x);
    } else {
      OccursOnce(r[1..], x);
    }
  }

  lemma {:induction false} OccursNever(r: seq<Price>, x: string)
    requires x !in ZoneSet(r)
    ensures Occurrences(r, x) == 0
    decreases |r|
  {
    if r != [] {
      ZoneSetCons(r);
      OccursNever(r[1..], x);
    }
  }

  lemma {:induction false} CountOverStep(h: seq<Obs>, o: Obs, r: seq<Price>)
    ensures CountOver(h + [o], r) == CountOver(h, r) + Occurrences(r, o.zone)
    decreases |r|
  {
    if r != [] {
      TallyStep(h, o);
      CountOverStep(h, o, r[1..]);
    }
  }

  /** Over records with distinct zones covering the history, the zone counts add
      up to the number of observations. */
  lemma {:induction false} CountOverCovers(h: seq<Obs>, r: seq<Price>)
    requires DistinctZones(r)
    requires Zones(h) <= ZoneSet(r)
    ensures CountOver(h, r) == |h|
    decreases |h|
  {
    if h == [] {
      CountOverEmpty(r);
    } else {
      var init := h[..|h| - 1];
      var o := h[|h| - 1];
      assert h == init + [o];
      TallyStep(init, o);
      CountOverCovers(init, r);
      CountOverStep(init, o, r);
      assert o.zone in Zones(h);
      OccursOnce(r, o.zone);
    }
  }

  lemma {:induction false} CountOverEmpty(r: seq<Price>)
    ensures CountOver([], r) == 0
    decreases |r|
  {
    if r != [] {
      CountOverEmpty(r[1..]);
    }
  }

  /** The sum of the count fields of a report. */
  function TotalCount(r: seq<Price>): int
  {
    if r == [] then 0 else r[0].count + TotalCount(r[1..])
  }

  /** When every record is its zone's average, its count field is its zone's
      count. */
  lemma {:induction false} TotalCountIsCountOver(h: seq<Obs>, r: seq<Price>)
    requires RecordsAreZoneAverages(h, r)
    ensures TotalCount(r) == CountOver(h, r)
    decreases |r|
  {
    if r != [] {
      assert RecordsAreZoneAverages(h, r[1..]) by {
        forall k | 0 <= k < |r[1..]|
          ensures ZoneCount(h, r[1..][k].zone) > 0 && r[1..][k] == ZoneAverage(h, r[1..][k].zone)
        {
          assert r[1..][k] == r[k + 1];
        }
      }
      TotalCountIsCountOver(h, r[1..]);
    }
  }

  /** The counts of a report add up to the number of observations: no
      observation is lost or counted twice. */
  lemma CountsSumToLength(h: seq<Obs>, r: seq<Price>)
    requires Report(h, r)
    ensures TotalCount(r) == |h|
  {
    TotalCountIsCountOver(h, r);
    CountOverCovers(h, r);
  }

  /** An empty history gives an empty report. */
  lemma EmptyHistoryEmptyReport(r: seq<Price>)
    requires Report([], r)
    ensures r == []
  {
    ReportHasOneRecordPerZone([], r);
    assert Zones([]) == {};
  }

  lemma {:induction false} DistinctZoneSetSize(r: seq<Price>)
    requires DistinctZones(r)
    ensures |ZoneSet(r)| == |r|
    decreases |r|
  {
    if r != [] {
      var init := r[..|r| - 1];
      var p := r[|r| - 1];
      assert r == init + [p];
      DistinctZoneSetSize(init);
      ZoneSetSnoc(init, p);
      assert p.zone !in ZoneSet(init) by {
        forall x | x in init ensures x.zone != p.zone {
          var k :| 0 <= k < |init| && init[k] == x;
          assert r[k] == x;
        }
      }
    }
  }

  /** A report has exactly as many records as the history has distinct zones. */
  lemma ReportHasOneRecordPerZone(h: seq<Obs>, r: seq<Price>)
    requires Report(h, r)
    ensures |r| == |Zones(h)|
  {
    DistinctZoneSetSize(r);
  }

  // ---------------------------------------------------------------------------
  // Rounding

  /** Rounding moves a value by at most half a millionth. */
  lemma Round6Close(x: real)
    ensures -1.0 / (2.0 * Scale) <= Round6(x) - x <= 1.0 / (2.0 * Scale)
  {
    var y := x * Scale;
    var n := RoundHalfAway(y);
    assert -0.5 <= n as real - y <= 0.5;
    assert Round6(x) - x == (n as real - y) / Scale;
  }

  /** Rounding never reverses the order of two costs. */
  lemma Round6Monotone(x: real, y: real)
    requires x <= y
    ensures Round6(x) <= Round6(y)
  {
    RoundHalfAwayMonotone(x * Scale, y * Scale);
  }

  lemma RoundHalfAwayMonotone(x: real, y: real)
    requires x <= y
    ensures RoundHalfAway(x) <= RoundHalfAway(y)
  {
    if x >= 0.0 {
      FloorMonotone(x + 0.5, y + 0.5);
    } else if y < 0.0 {
      FloorMonotone(-y + 0.5, -x + 0.5);
    }
  }

  lemma FloorMonotone(x: real, y: real)
    requires x <= y
    ensures x.Floor <= y.Floor
  {
  }

  /** A cost already on the millionth grid is left as it is, so rounding is
      idempotent. */
  lemma Round6OnGrid(n: int)
    ensures Round6(n as real / Scale) == n as real / Scale
  {
    assert n as real / Scale * Scale == n as real;
    assert RoundHalfAway(n as real) == n;
  }

  lemma Round6Idempotent(x: real)
    ensures Round6(Round6(x)) == Round6(x)
  {
    Round6OnGrid(RoundHalfAway(x * Scale));
  }

  /** Each reported cost is within half a millionth of the zone's mean price
      times 1.29, and its count is the zone's number of observations. */
  lemma ReportedCostIsScaledMean(h: seq<Obs>, r: seq<Price>, k: int)
    requires Report(h, r) && 0 <= k < |r|
    ensures ZoneCount(h, r[k].zone) > 0 && r[k].count == ZoneCount(h, r[k].zone)
    ensures -1.0 / (2.0 * Scale) <= r[k].cost - ScaledMean(h, r[k].zone) <= 1.0 / (2.0 * Scale)
  {
    Round6Close(ScaledMean(h, r[k].zone));
  }

  // ---------------------------------------------------------------------------
  // Determinism up to ties

  function Costs(r: seq<Price>): seq<real>
  {
    seq(|r|, k requires 0 <= k < |r| => r[k].cost)
  }

  /** Removing the first element of s and a matching element of t keeps the two
      multisets equal. */
  lemma RemoveMatching<T>(s: seq<T>, t: seq<T>, j: int)
    requires multiset(s) == multiset(t) && |s| > 0 && 0 <= j < |t| && t[j] == s[0]
    ensures multiset(s[1..]) == multiset(t[..j] + t[j + 1..])
  {
    var x := s[0];
    assert t == t[..j] + [x] + t[j + 1..];
    assert s == [x] + s[1..];
    calc {
      multiset(s[1..]);
      multiset(s) - multiset{x};
      multiset(t) - multiset{x};
      multiset(t[..j]) + multiset(t[j + 1..]);
      multiset(t[..j] + t[j + 1..]);
    }
  }

  lemma CostsConcat(a: seq<Price>, b: seq<Price>)
    ensures Costs(a + b) == Costs(a) + Costs(b)
  {
  }

  lemma {:induction false} CostsPermutation(s: seq<Price>, t: seq<Price>)
    requires multiset(s) == multiset(t)
    ensures multiset(Costs(s)) == multiset(Costs(t))
    decreases |s|
  {
    if s == [] {
      assert |t| == |multiset(t)| == 0;
    } else {
      var x := s[0];
      assert x in multiset(s);
      var j :| 0 <= j < |t| && t[j] == x;
      RemoveMatching(s, t, j);
      CostsPermutation(s[1..], t[..j] + t[j + 1..]);
      assert t == t[..j] + ([x] + t[j + 1..]);
      CostsConcat(t[..j], [x] + t[j + 1..]);
      CostsConcat([x], t[j + 1..]);
      CostsConcat(t[..j], t[j + 1..]);
      assert s == [x] + s[1..];
      CostsConcat([x], s[1..]);
    }
  }

  /** Two sorted reports whose cost columns hold the same costs have identical
      cost columns. */
  lemma {:induction false} SortedCostsUnique(a: seq<Price>, b: seq<Price>)
    requires SortedByCost(a) && SortedByCost(b) && multiset(Costs(a)) == multiset(Costs(b))
    ensures Costs(a) == Costs(b)
    decreases |a|
  {
    assert |a| == |multiset(Costs(a))| == |multiset(Costs(b))| == |b|;
    if a != [] {
      SameLeastCost(a, b);
      SameTails(Costs(a), Costs(b));
      assert Costs(a)[1..] == Costs(a[1..]) && Costs(b)[1..] == Costs(b[1..]);
      SortedTail(a);
      SortedTail(b);
      SortedCostsUnique(a[1..], b[1..]);
      assert Costs(a) == [a[0].cost] + Costs(a[1..]);
      assert Costs(b) == [b[0].cost] + Costs(b[1..]);
    }
  }

  lemma SortedTail(a: seq<Price>)
    requires SortedByCost(a) && a != []
    ensures SortedByCost(a[1..])
  {
    forall i, j | 0 <= i < j < |a| - 1 ensures !Less(a[1..], j, i) {
      assert !Less(a, j + 1, i + 1);
    }
  }

  lemma SameTails(a: seq<real>, b: seq<real>)
    requires multiset(a) == multiset(b) && a != [] && b != [] && a[0] == b[0]
    ensures multiset(a[1..]) == multiset(b[1..])
  {
    RemoveMatching(a, b, 0);
    assert b[..0] + b[1..] == b[1..];
  }

  /** Two sorted reports with the same costs start with the same cost, their
      least one. */
  lemma SameLeastCost(a: seq<Price>, b: seq<Price>)
    requires SortedByCost(a) && SortedByCost(b) && multiset(Costs(a)) == multiset(Costs(b))
    requires a != []
    ensures b != [] && a[0].cost == b[0].cost
  {
    assert Costs(a)[0] in multiset(Costs(b));
    var j :| 0 <= j < |b| && Costs(b)[j] == a[0].cost;
    assert !Less(b, j, 0);
    assert Costs(b)[0] in multiset(Costs(a));
    var i :| 0 <= i < |a| && Costs(a)[i] == b[0].cost;
    assert !Less(a, i, 0);
  }

  /** Two reports for the same history hold the same records, and their cost
      columns are identical: they can differ only in the order of zones of equal
      cost. */
  lemma ReportDeterminedUpToTies(h: seq<Obs>, r1: seq<Price>, r2: seq<Price>)
    requires Report(h, r1) && Report(h, r2)
    ensures multiset(r1) == multiset(r2)
    ensures |r1| == |r2| && forall k :: 0 <= k < |r1| ==> r1[k].cost == r2[k].cost
  {
    SameRecords(h, r1, r2);
    CostsPermutation(r1, r2);
    SortedCostsUnique(r1, r2);
    forall k | 0 <= k < |r1| ensures r1[k].cost == r2[k].cost {
      assert Costs(r1)[k] == Costs(r2)[k];
    }
  }

  lemma SameRecords(h: seq<Obs>, r1: seq<Price>, r2: seq<Price>)
    requires Report(h, r1) && Report(h, r2)
    ensures multiset(r1) == multiset(r2)
  {
    forall x ensures x in r1 ==> x in r2 {
      if x in r1 {
        SameRecord(h, r1, r2, x);
      }
    }
    forall x ensures x in r2 ==> x in r1 {
      if x in r2 {
        SameRecord(h, r2, r1, x);
      }
    }
    DistinctOccursOnce(r1);
    DistinctOccursOnce(r2);
    forall x ensures multiset(r1)[x] == multiset(r2)[x] {
      assert x in r1 <==> x in multiset(r1);
      assert x in r2 <==> x in multiset(r2);
    }
  }

  lemma SameRecord(h: seq<Obs>, r1: seq<Price>, r2: seq<Price>, x: Price)
    requires Report(h, r1) && Report(h, r2) && x in r1
    ensures x in r2
  {
    var i :| 0 <= i < |r1| && r1[i] == x;
    assert x.zone in ZoneSet(r2);
    var y :| y in r2 && y.zone == x.zone;
    var j :| 0 <= j < |r2| && r2[j] == y;
  }

  // ---------------------------------------------------------------------------
  // A worked example

  /** Two observations of zoneA at 1.0 and 2.0 and one of zoneB at 3.0 give
      zoneA at 1.935 followed by zoneB at 3.87. */
  lemma TwoZoneExample(r: seq<Price>)
    requires Report(ExampleHistory(), r)
    ensures r == [Price("zoneA", 1.935, 2), Price("zoneB", 3.87, 1)]
  {
    var h := ExampleHistory();
    var a := Price("zoneA", 1.935, 2);
    var b := Price("zoneB", 3.87, 1);
    ExampleAverages();
    forall k | 0 <= k < |r| ensures r[k] == a || r[k] == b {
      assert r[k].zone in ZoneSet(r);
    }
    ReportHasOneRecordPerZone(ExampleHistory(), r);
    assert |r| == |{"zoneA", "zoneB"}| == 2;
    assert !Less(r, 1, 0);
  }

  function ExampleHistory(): seq<Obs>
  {
    [Obs("zoneA", Parsed(1.0)), Obs("zoneA", Parsed(2.0)), Obs("zoneB", Parsed(3.0))]
  }

  lemma ExampleAverages()
    ensures Zones(ExampleHistory()) == {"zoneA", "zoneB"}
    ensures ZoneCount(ExampleHistory(), "zoneA") > 0 && ZoneAverage(ExampleHistory(), "zoneA") == Price("zoneA", 1.935, 2)
    ensures ZoneCount(ExampleHistory(), "zoneB") > 0 && ZoneAverage(ExampleHistory(), "zoneB") == Price("zoneB", 3.87, 1)
  {
    var h := ExampleHistory();
    ExampleTallies();
    assert ScaledMean(h, "zoneA") == 1935000 as real / Scale;
    assert ScaledMean(h, "zoneB") == 3870000 as real / Scale;
    Round6OnGrid(1935000);
    Round6OnGrid(3870000);
  }

  lemma ExampleTallies()
    ensures Zones(ExampleHistory()) == {"zoneA", "zoneB"}
    ensures ZoneCount(ExampleHistory(), "zoneA") == 2 && ZoneSum(ExampleHistory(), "zoneA") == 3.0
    ensures ZoneCount(ExampleHistory(), "zoneB") == 1 && ZoneSum(ExampleHistory(), "zoneB") == 3.0
  {
    var h := ExampleHistory();
    var h1 := [h[0]];
    var h2 := h1 + [h[1]];
    assert h == h2 + [h[2]];
    TallyStep([], h[0]);
    assert [] + [h[0]] == h1;
    TallyStep(h1, h[1]);
    TallyStep(h2, h[2]);
  }
}
