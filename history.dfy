/** The flow of main once the session exists: build the query for one product
    and instance type, drain every page into a fresh accumulator, then average,
    then (not modelled) print. */
module History {
  import opened SpotTypes
  import opened Paginator
  import opened Aggregator

  /** A report exists only when pagination completed; it is then avg's report on
      exactly the concatenated pages. A fetch error or an absent token yields no
      report at all. The first call carries no continuation token. */
  method Run(e: Provider, product: string, instance: string) returns (report: Option<seq<Price>>)
    requires |e.requests| <= |e.responses|
    requires Terminates(e.responses[|e.requests|..])
    modifies e
    ensures report.Some? <==> GetSpotSpec(old(e.responses[|e.requests|..]), []).Completed?
    ensures report.Some? ==> Report(GetSpotSpec(old(e.responses[|e.requests|..]), []).history, report.value)
    ensures e.requests == old(e.requests) + RequestsSpec(None, old(e.responses[|e.requests|..]))
    ensures e.filters == old(e.filters) + seq(|e.requests| - old(|e.requests|), _ => (product, instance))
  {
    var q := new Query(product, instance);
    var historyPrice: seq<Obs> := [];
    var f := GetSpot(e, q, historyPrice);
    if f.Completed? {
      var r := Avg(f.history);
      report := Some(r);
    } else {
      report := None;
    }
  }
}
