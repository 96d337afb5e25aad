/** getSpot: drains the provider's paginated spot-price history by following
    continuation tokens, appending every page's observations to one accumulator. */
module Paginator {
  import opened SpotTypes

  /** The code and message of an awserr.Error. */
  datatype ProviderError = ProviderError(code: string, message: string)

  /** One DescribeSpotPriceHistory answer: the page's observations in provider
      order and its NextToken field, which may be absent (a nil pointer). */
  datatype Page = Page(obs: seq<Obs>, nextToken: Option<string>)

  datatype Response = Ok(page: Page) | Fail(err: ProviderError)

  /** How an invocation of getSpot ends. On a fetch error the process exits
      through awsError; on an absent NextToken the dereference panics. Neither
      failure carries observations: nothing reaches the aggregator. */
  datatype Fetch = Completed(history: seq<Obs>) | Aborted(err: ProviderError) | Panicked

  /** The query. Only the continuation token changes during pagination; the start
      time is not part of this model. */
  class Query {
    const productDescription: string
    const instanceType: string
    var nextToken: Option<string>

    constructor (product: string, instance: string)
      ensures productDescription == product && instanceType == instance
      ensures nextToken == None
    {
      productDescription := product;
      instanceType := instance;
      nextToken := None;
    }
  }

  /** The fetch capability: answers call number k with responses[k] and records
      the continuation token and the two filter values each call carried. */
  class Provider {
    const responses: seq<Response>
    var requests: seq<Option<string>>
    var filters: seq<(string, string)>

    constructor (responses: seq<Response>)
      ensures this.responses == responses && requests == [] && filters == []
    {
      this.responses := responses;
      requests := [];
      filters := [];
    }

    method DescribeSpotPriceHistory(q: Query) returns (r: Response)
      requires |requests| < |responses|
      modifies this
      ensures requests == old(requests) + [q.nextToken]
      ensures filters == old(filters) + [(q.productDescription, q.instanceType)]
      ensures r == responses[old(|requests|)]
    {
      r := responses[|requests|];
      requests := requests + [q.nextToken];
      filters := filters + [(q.productDescription, q.instanceType)];
    }
  }

  /** A response after which getSpot makes no further call: an error, an absent
      token, or the empty token. */
  predicate Stops(r: Response)
  {
    r.Fail? || r.page.nextToken == None || r.page.nextToken == Some("")
  }

  /** The provider eventually answers with a stopping response. */
  predicate Terminates(rs: seq<Response>)
  {
    exists k :: 0 <= k < |rs| && Stops(rs[k])
  }

  lemma TerminatesTail(rs: seq<Response>)
    requires Terminates(rs) && !Stops(rs[0])
    ensures Terminates(rs[1..])
  {
    var k :| 0 <= k < |rs| && Stops(rs[k]);
    assert Stops(rs[1..][k - 1]);
  }

  /** The index of the last call getSpot makes. */
  function FirstStop(rs: seq<Response>): (n: nat)
    requires Terminates(rs)
    ensures n < |rs| && Stops(rs[n])
    ensures forall k :: 0 <= k < n ==> !Stops(rs[k])
    decreases |rs|
  {
    if Stops(rs[0]) then 0
    else
      TerminatesTail(rs);
      1 + FirstStop(rs[1..])
  }

  /** getSpot as the source writes it, by self-recursion: fetch, append the page,
      and recurse while the returned token is non-empty. */
  function GetSpotSpec(rs: seq<Response>, sum: seq<Obs>): Fetch
    requires Terminates(rs)
    decreases |rs|
  {
    match rs[0]
    case Fail(e) => Aborted(e)
    case Ok(p) =>
      match p.nextToken
      case None => Panicked
      case Some(t) =>
        if t == "" then Completed(sum + p.obs)
        else
          TerminatesTail(rs);
          GetSpotSpec(rs[1..], sum + p.obs)
  }

  /** The tokens the calls of that recursion carry: `first`, then each returned
      token that led to a further call. */
  function RequestsSpec(first: Option<string>, rs: seq<Response>): seq<Option<string>>
    requires Terminates(rs)
    decreases |rs|
  {
    if Stops(rs[0]) then [first]
    else
      TerminatesTail(rs);
      [first] + RequestsSpec(rs[0].page.nextToken, rs[1..])
  }

  /** The observations of the successful responses, concatenated in page order. */
  function ConcatPages(rs: seq<Response>): seq<Obs>
  {
    if rs == [] then []
    else (if rs[0].Ok? then rs[0].page.obs else []) + ConcatPages(rs[1..])
  }

  /** The accumulator ends as the concatenation of every page up to and including
      the last one fetched; a failing fetch aborts with that error; an absent token
      on the last page panics. */
  lemma {:induction false} GetSpotCollectsPages(rs: seq<Response>, sum: seq<Obs>)
    requires Terminates(rs)
    ensures var n := FirstStop(rs);
      GetSpotSpec(rs, sum) ==
        match rs[n]
        case Fail(e) => Aborted(e)
        case Ok(p) => if p.nextToken == None then Panicked else Completed(sum + ConcatPages(rs[..n + 1]))
    decreases |rs|
  {
    var n := FirstStop(rs);
    if Stops(rs[0]) {
      assert n == 0;
      assert ConcatPages(rs[..1]) == (if rs[0].Ok? then rs[0].page.obs else []) + ConcatPages([]);
    } else {
      TerminatesTail(rs);
      var p := rs[0].page;
      GetSpotCollectsPages(rs[1..], sum + p.obs);
      assert n == 1 + FirstStop(rs[1..]);
      assert rs[..n + 1][1..] == rs[1..][..n];
      assert ConcatPages(rs[..n + 1]) == p.obs + ConcatPages(rs[1..][..n]);
    }
  }

  /** Exactly FirstStop(rs) + 1 calls are made; the first carries the query's
      initial token and call k + 1 carries the token of response k. */
  lemma {:induction false} RequestsChain(first: Option<string>, rs: seq<Response>)
    requires Terminates(rs)
    ensures var q := RequestsSpec(first, rs);
      && |q| == FirstStop(rs) + 1
      && q[0] == first
      && forall k :: 0 <= k < FirstStop(rs) ==>
           rs[k].Ok? && q[k + 1] == rs[k].page.nextToken && q[k + 1] != Some("") && q[k + 1] != None
    decreases |rs|
  {
    if !Stops(rs[0]) {
      TerminatesTail(rs);
      RequestsChain(rs[0].page.nextToken, rs[1..]);
      var q := RequestsSpec(first, rs);
      var q' := RequestsSpec(rs[0].page.nextToken, rs[1..]);
      assert q == [first] + q';
      assert FirstStop(rs) == 1 + FirstStop(rs[1..]);
      forall k | 0 <= k < FirstStop(rs)
        ensures rs[k].Ok? && q[k + 1] == rs[k].page.nextToken && q[k + 1] != Some("") && q[k + 1] != None
      {
        if k > 0 {
          assert rs[k] == rs[1..][k - 1];
        }
      }
    }
  }

  /** A failing fetch before any stopping page aborts the whole invocation:
      that call is the last one made and no observations are returned. */
  lemma FailureAborts(rs: seq<Response>, sum: seq<Obs>, k: nat)
    requires k < |rs| && rs[k].Fail?
    requires forall i :: 0 <= i < k ==> !Stops(rs[i])
    ensures Terminates(rs) && FirstStop(rs) == k
    ensures GetSpotSpec(rs, sum) == Aborted(rs[k].err)
    ensures |RequestsSpec(None, rs)| == k + 1
  {
    assert Stops(rs[k]);
    var n := FirstStop(rs);
    assert !(n < k) && !(k < n);
    GetSpotCollectsPages(rs, sum);
    RequestsChain(None, rs);
  }

  /** Three continuation tokens T1, T2, T3 and then the empty token: four calls,
      carrying no token, T1, T2 and T3, and the four pages concatenated in order. */
  lemma ThreeTokensFourCalls(o1: seq<Obs>, o2: seq<Obs>, o3: seq<Obs>, o4: seq<Obs>)
    ensures var rs := [Ok(Page(o1, Some("T1"))), Ok(Page(o2, Some("T2"))), Ok(Page(o3, Some("T3"))), Ok(Page(o4, Some("")))];
      && Terminates(rs)
      && GetSpotSpec(rs, []) == Completed(o1 + o2 + o3 + o4)
      && RequestsSpec(None, rs) == [None, Some("T1"), Some("T2"), Some("T3")]
  {
    var rs := [Ok(Page(o1, Some("T1"))), Ok(Page(o2, Some("T2"))), Ok(Page(o3, Some("T3"))), Ok(Page(o4, Some("")))];
    var r1, r2, r3 := rs[1..], rs[2..], rs[3..];
    assert r1[1..] == r2 && r2[1..] == r3 && r3 == [rs[3]];
    assert Stops(r3[0]) && Terminates(r3) && Terminates(r2) && Terminates(r1) && Terminates(rs);
    assert GetSpotSpec(r3, o1 + o2 + o3) == Completed(o1 + o2 + o3 + o4);
    assert GetSpotSpec(r2, o1 + o2) == Completed(o1 + o2 + o3 + o4);
    assert GetSpotSpec(r1, o1) == Completed(o1 + o2 + o3 + o4);
    assert [] + o1 == o1;
    assert RequestsSpec(Some("T3"), r3) == [Some("T3")];
    assert RequestsSpec(Some("T2"), r2) == [Some("T2"), Some("T3")];
    assert RequestsSpec(Some("T1"), r1) == [Some("T1"), Some("T2"), Some("T3")];
  }

  /** A failure on the second of three pages: two calls, and the third page's
      observations never reach anyone. */
  lemma FailureOnSecondPage(o1: seq<Obs>, o3: seq<Obs>, e: ProviderError)
    ensures var rs := [Ok(Page(o1, Some("T1"))), Fail(e), Ok(Page(o3, Some("")))];
      && Terminates(rs)
      && GetSpotSpec(rs, []) == Aborted(e)
      && RequestsSpec(None, rs) == [None, Some("T1")]
  {
    var rs := [Ok(Page(o1, Some("T1"))), Fail(e), Ok(Page(o3, Some("")))];
    FailureAborts(rs, [], 1);
    assert rs[1..] == [Fail(e), Ok(Page(o3, Some("")))];
  }

  /** One step of the recursion: a stopping response is the last call; any other
      leaves the rest of the script to the next call, with the page appended. */
  lemma Unfold(rs: seq<Response>, token: Option<string>, acc: seq<Obs>)
    requires Terminates(rs)
    ensures Stops(rs[0]) ==> RequestsSpec(token, rs) == [token]
    ensures !Stops(rs[0]) ==>
      && Terminates(rs[1..])
      && RequestsSpec(token, rs) == [token] + RequestsSpec(rs[0].page.nextToken, rs[1..])
      && GetSpotSpec(rs, acc) == GetSpotSpec(rs[1..], acc + rs[0].page.obs)
  {
    if !Stops(rs[0]) {
      TerminatesTail(rs);
    }
  }

  /** getSpot as a loop: each call's observations are appended to the accumulator
      and the returned token is written into the query before the next call.
      The outcome is that of the recursive definition and the provider sees
      exactly the tokens that definition sends. */
  method GetSpot(e: Provider, q: Query, sum: seq<Obs>) returns (f: Fetch)
    requires |e.requests| <= |e.responses|
    requires Terminates(e.responses[|e.requests|..])
    modifies e, q
    ensures f == GetSpotSpec(old(e.responses[|e.requests|..]), sum)
    ensures e.requests == old(e.requests) + RequestsSpec(old(q.nextToken), old(e.responses[|e.requests|..]))
    ensures |e.requests| > 0 && q.nextToken == e.requests[|e.requests| - 1]
    ensures e.filters == old(e.filters)
      + seq(|e.requests| - old(|e.requests|), _ => (q.productDescription, q.instanceType))
  {
    ghost var rs0 := e.responses[|e.requests|..];
    ghost var log0 := e.requests;
    ghost var rest := rs0;
    var acc := sum;
    while true
      invariant |log0| <= |e.requests| <= |e.responses|
      invariant e.filters == old(e.filters)
        + seq(|e.requests| - |log0|, _ => (q.productDescription, q.instanceType))
      invariant rest == e.responses[|e.requests|..]
      invariant Terminates(rest)
      invariant GetSpotSpec(rest, acc) == GetSpotSpec(rs0, sum)
      invariant e.requests + RequestsSpec(q.nextToken, rest) == log0 + RequestsSpec(old(q.nextToken), rs0)
      decreases |rest|
    {
      ghost var token := q.nextToken;
      ghost var log := e.requests;
      var result := e.DescribeSpotPriceHistory(q);
      assert result == rest[0];
      Unfold(rest, token, acc);
      if result.Fail? {
        return Aborted(result.err);
      }
      acc := acc + result.page.obs;
      if result.page.nextToken == None {
        return Panicked;
      }
      if result.page.nextToken.value == "" {
        return Completed(acc);
      }
      assert log + [token] + RequestsSpec(result.page.nextToken, rest[1..])
          == log + RequestsSpec(token, rest);
      rest := rest[1..];
      q.nextToken := result.page.nextToken;
    }
  }
}
