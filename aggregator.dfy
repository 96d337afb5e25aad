/** avg and priceSort: group the observations by zone, turn each zone's sum and
    count into a marked-up, rounded mean, and sort the records by cost. */
module Aggregator {
  import opened SpotTypes

  /** The fixed markup applied to every mean. */
  const Markup: real := 1.29

  /** Costs are rounded to a multiple of 1 / Scale. */
  const Scale: real := 1000000.0

  // ---------------------------------------------------------------------------
  // Reference definitions over the observation sequence

  /** The number of observations of zone z. */
  function ZoneCount(h: seq<Obs>, z: string): nat
    decreases |h|
  {
    if h == [] then 0
    else ZoneCount(h[..|h| - 1], z) + (if h[|h| - 1].zone == z then 1 else 0)
  }

  /** The sum of the prices of zone z's observations. */
  function ZoneSum(h: seq<Obs>, z: string): real
    decreases |h|
  {
    if h == [] then 0.0
    else ZoneSum(h[..|h| - 1], z) + (if h[|h| - 1].zone == z then PriceOf(h[|h| - 1].price) else 0.0)
  }

  /** The distinct zones of the observations. */
  function Zones(h: seq<Obs>): set<string>
  {
    set o | o in h :: o.zone
  }

  /** A zone's mean price times the markup, before rounding. */
  function ScaledMean(h: seq<Obs>, z: string): real
    requires ZoneCount(h, z) > 0
  {
    ZoneSum(h, z) / ZoneCount(h, z) as real * Markup
  }

  /** math.Round: to the nearest integer, halves away from zero. */
  function RoundHalfAway(x: real): int
  {
    if x >= 0.0 then (x + 0.5).Floor else -((-x + 0.5).Floor)
  }

  /** math.Round(x * 1e6) / 1e6 in exact arithmetic. */
  function Round6(x: real): real
  {
    RoundHalfAway(x * Scale) as real / Scale
  }

  /** The record avg reports for zone z. */
  function ZoneAverage(h: seq<Obs>, z: string): Price
    requires ZoneCount(h, z) > 0
  {
    Price(z, Round6(ScaledMean(h, z)), ZoneCount(h, z))
  }

  // ---------------------------------------------------------------------------
  // What a report is

  function ZoneSet(r: seq<Price>): set<string>
  {
    set p | p in r :: p.zone
  }

  /** Each entry of the map holds its own zone, the zone's price sum and its
      observation count, which is positive. */
  predicate Tallies(h: seq<Obs>, spot: map<string, Price>)
  {
    forall z :: z in spot ==>
      spot[z] == Price(z, ZoneSum(h, z), ZoneCount(h, z)) && spot[z].count > 0
  }

  predicate DistinctZones(r: seq<Price>)
  {
    forall i, j :: 0 <= i < j < |r| ==> r[i].zone != r[j].zone
  }

  predicate RecordsAreZoneAverages(h: seq<Obs>, r: seq<Price>)
  {
    forall k :: 0 <= k < |r| ==> ZoneCount(h, r[k].zone) > 0 && r[k] == ZoneAverage(h, r[k].zone)
  }

  /** priceSort.Less: record i is strictly cheaper than record j. */
  predicate Less(p: seq<Price>, i: int, j: int)
    requires 0 <= i < |p| && 0 <= j < |p|
  {
    p[i].cost < p[j].cost
  }

  /** No later record is Less than an earlier one. */
  predicate SortedByCost(r: seq<Price>)
  {
    forall i, j :: 0 <= i < j < |r| ==> !Less(r, j, i)
  }

  /** Everything avg promises about its result r for the observations h. */
  predicate Report(h: seq<Obs>, r: seq<Price>)
  {
    ZoneSet(r) == Zones(h) && DistinctZones(r) && RecordsAreZoneAverages(h, r) && SortedByCost(r)
  }

  // ---------------------------------------------------------------------------
  // priceSort and the in-place sort

  /** priceSort.Len, on the array that stands for the priceSort slice. */
  function Len(a: array<Price>): int
  {
    a.Length
  }

  /** priceSort.Swap. */
  method Swap(a: array<Price>, i: int, j: int)
    requires 0 <= i < a.Length && 0 <= j < a.Length
    modifies a
    ensures a[..] == old(a[..])[i := old(a[j])][j := old(a[i])]
    ensures multiset(a[..]) == old(multiset(a[..]))
  {
    a[i], a[j] := a[j], a[i];
  }

  /** sort.Sort(priceSort(a)): ascending by cost, a permutation of the input.
      The order of equal costs is not specified. */
  method SortByCost(a: array<Price>)
    modifies a
    ensures SortedByCost(a[..])
    ensures multiset(a[..]) == old(multiset(a[..]))
  {
    var n := Len(a);
    for i := 0 to n
      invariant multiset(a[..]) == old(multiset(a[..]))
      invariant forall k, m :: 0 <= k < m < i ==> a[k].cost <= a[m].cost
      invariant forall k, m :: 0 <= k < i <= m < n ==> a[k].cost <= a[m].cost
    {
      var min := i;
      for j := i + 1 to n
        invariant i <= min < n
        invariant forall m :: i <= m < j ==> a[min].cost <= a[m].cost
      {
        if Less(a[..], j, min) {
          min := j;
        }
      }
      Swap(a, i, min);
    }
  }

  // ---------------------------------------------------------------------------
  // avg

  /** The first loop of avg: the map from each zone seen to its running sum and
      count. Every observation, the first of its zone included, adds its price and
      one to its zone's entry. */
  method GroupByZone(history: seq<Obs>) returns (spot: map<string, Price>)
    ensures spot.Keys == Zones(history)
    ensures Tallies(history, spot)
  {
    spot := map[];
    for i := 0 to |history|
      invariant spot.Keys == Zones(history[..i])
      invariant forall z :: z in spot ==>
        spot[z] == Price(z, ZoneSum(history[..i], z), ZoneCount(history[..i], z)) && spot[z].count > 0
    {
      var s := PriceOf(history[i].price);
      var z := history[i].zone;
      assert history[..i + 1] == history[..i] + [history[i]];
      TallyStep(history[..i], history[i]);
      if z !in spot {
        AbsentZone(history[..i], z);
        var p := Price("", 0.0, 0);
        p := p.(cost := p.cost + s);
        p := p.(count := p.count + 1);
        p := p.(zone := z);
        spot := spot[z := p];
        continue;
      }
      spot := spot[z := spot[z].(cost := spot[z].cost + s, count := spot[z].count + 1)];
    }
    assert history[..|history|] == history;
  }

  /** The second loop of avg: visits the map's entries in an unspecified order and
      appends each zone's record with its cost replaced by the rounded, marked-up
      mean. */
  method ZoneMeans(history: seq<Obs>, spot: map<string, Price>) returns (avg: seq<Price>)
    requires Tallies(history, spot)
    ensures ZoneSet(avg) == spot.Keys
    ensures DistinctZones(avg)
    ensures RecordsAreZoneAverages(history, avg)
  {
    avg := [];
    var pending := spot.Keys;
    while pending != {}
      invariant pending <= spot.Keys
      invariant ZoneSet(avg) == spot.Keys - pending
      invariant DistinctZones(avg)
      invariant RecordsAreZoneAverages(history, avg)
      decreases |pending|
    {
      var z :| z in pending;
      ghost var before := avg;
      ghost var p := spot[z];
      var i := |avg|;
      avg := avg + [spot[z]];
      avg := avg[i := avg[i].(cost := avg[i].cost / avg[i].count as real * Markup)];
      avg := avg[i := avg[i].(cost := Round6(avg[i].cost))];
      assert avg == before + [p.(cost := Round6(p.cost / p.count as real * Markup))];
      MeanOfTally(history, p, z);
      AppendRecord(history, before, z);
      pending := pending - {z};
    }
  }

  /** avg: one record per distinct zone of the history, holding the zone's
      observation count and its rounded, marked-up mean price, ascending by cost. */
  method Avg(history: seq<Obs>) returns (r: seq<Price>)
    ensures ZoneSet(r) == Zones(history)
    ensures DistinctZones(r)
    ensures RecordsAreZoneAverages(history, r)
    ensures SortedByCost(r)
    ensures history == [] ==> r == []
  {
    var spot := GroupByZone(history);
    var avg := ZoneMeans(history, spot);
    var a := new Price[|avg|](k requires 0 <= k < |avg| => avg[k]);
    assert a[..] == avg;
    SortByCost(a);
    r := a[..];
    PermutationKeepsRecords(history, avg, r);
    assert |r| > 0 ==> r[0] in r;
  }

  // ---------------------------------------------------------------------------
  // Lemmas

  /** Appending one observation adds its zone and changes only that zone's tally. */
  lemma TallyStep(h: seq<Obs>, o: Obs)
    ensures Zones(h + [o]) == Zones(h) + {o.zone}
    ensures forall z :: ZoneCount(h + [o], z) == ZoneCount(h, z) + (if o.zone == z then 1 else 0)
    ensures forall z :: ZoneSum(h + [o], z) == ZoneSum(h, z) + (if o.zone == z then PriceOf(o.price) else 0.0)
  {
    assert (h + [o])[..|h|] == h;
    forall x ensures x in h + [o] <==> x in h || x == o { }
  }

  /** Appending the record of a zone not yet listed keeps a list of zone records
      with distinct zones. */
  lemma AppendRecord(h: seq<Obs>, s: seq<Price>, z: string)
    requires DistinctZones(s) && RecordsAreZoneAverages(h, s)
    requires z !in ZoneSet(s) && ZoneCount(h, z) > 0
    ensures DistinctZones(s + [ZoneAverage(h, z)])
    ensures RecordsAreZoneAverages(h, s + [ZoneAverage(h, z)])
    ensures ZoneSet(s + [ZoneAverage(h, z)]) == ZoneSet(s) + {z}
  {
    var t := s + [ZoneAverage(h, z)];
    ZoneSetSnoc(s, ZoneAverage(h, z));
    forall i | 0 <= i < |s| ensures t[i] == s[i] && s[i].zone != z {
      assert s[i] in s;
    }
  }

  /** The two cost rewrites of avg's second loop turn a zone's tally into its
      reported record. */
  lemma MeanOfTally(h: seq<Obs>, p: Price, z: string)
    requires p == Price(z, ZoneSum(h, z), ZoneCount(h, z)) && p.count > 0
    ensures ZoneCount(h, z) > 0
    ensures p.(cost := Round6(p.cost / p.count as real * Markup)) == ZoneAverage(h, z)
  {
  }

  lemma ZoneSetSnoc(s: seq<Price>, p: Price)
    ensures ZoneSet(s + [p]) == ZoneSet(s) + {p.zone}
  {
    forall x ensures x in s + [p] <==> x in s || x == p { }
    assert p in s + [p];
  }

  lemma {:induction false} AbsentZone(h: seq<Obs>, z: string)
    requires z !in Zones(h)
    ensures ZoneCount(h, z) == 0 && ZoneSum(h, z) == 0.0
    decreases |h|
  {
    if h != [] {
      assert Zones(h[..|h| - 1]) <= Zones(h) by {
        forall o | o in h[..|h| - 1] ensures o in h { }
      }
      AbsentZone(h[..|h| - 1], z);
    }
  }

  /** In a sequence with distinct zones no record occurs twice. */
  lemma {:induction false} DistinctOccursOnce(s: seq<Price>)
    requires DistinctZones(s)
    ensures forall x :: multiset(s)[x] <= 1
    decreases |s|
  {
    if s != [] {
      DistinctOccursOnce(s[1..]);
      assert s == [s[0]] + s[1..];
      assert s[0] !in s[1..];
    }
  }

  lemma DuplicateOccursTwice(t: seq<Price>, i: int, j: int)
    requires 0 <= i < j < |t| && t[i] == t[j]
    ensures multiset(t)[t[i]] >= 2
  {
    assert t == t[..j] + t[j..];
    assert t[i] in t[..j];
    assert t[j] in t[j..];
  }

  /** Rearranging a report's records keeps its zone set, their distinctness and
      the records themselves. */
  lemma PermutationKeepsRecords(h: seq<Obs>, s: seq<Price>, t: seq<Price>)
    requires multiset(s) == multiset(t)
    requires DistinctZones(s) && RecordsAreZoneAverages(h, s)
    ensures ZoneSet(t) == ZoneSet(s) && DistinctZones(t) && RecordsAreZoneAverages(h, t)
  {
    forall x ensures x in s <==> x in t {
      assert x in s <==> x in multiset(s);
      assert x in t <==> x in multiset(t);
    }
    forall k | 0 <= k < |t|
      ensures ZoneCount(h, t[k].zone) > 0 && t[k] == ZoneAverage(h, t[k].zone)
    {
      assert t[k] in s;
      var m :| 0 <= m < |s| && s[m] == t[k];
    }
    DistinctOccursOnce(s);
    forall i, j | 0 <= i < j < |t| ensures t[i].zone != t[j].zone {
      if t[i].zone == t[j].zone {
        assert t[i] == t[j];
        DuplicateOccursTwice(t, i, j);
        assert false;
      }
    }
  }
}
