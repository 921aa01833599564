/** The application as a whole: the health endpoint, routing a request to one of
    the two endpoints, and a history of requests served one after another. No
    state survives from one request to the next. */
module Server {
  import opened Json
  import opened Generate

  /** A request to one of the two routes. */
  datatype Request = GenerateImage(body: Body) | CheckHealth

  /** `/api/health`: always a success carrying status "healthy". */
  function HealthCheck(): (r: Response)
    ensures WellFormed(r) && r.status == 200
    ensures r.payload.Status? && r.payload.status == "healthy"
  {
    Response(200, Status("healthy"))
  }

  /** One request routed to its handler. */
  function Dispatch(req: Request, provider: ProviderCall -> Outcome): (x: Exchange)
    ensures WellFormed(x.response)
    ensures |x.calls| <= 1
    ensures req.CheckHealth? ==> x.calls == [] && x.response.status == 200 && x.response.payload == Status("healthy")
  {
    match req
    case GenerateImage(body) => Handle(body, provider)
    case CheckHealth => Exchange([], HealthCheck())
  }

  /** A generate request that passes validation and so reaches the provider. */
  predicate Accepted(req: Request) {
    req.GenerateImage? && HasPrompt(req.body)
  }

  /** Requests served in arrival order; `providers[i]` is how the provider behaves
      while request `i` is handled. Each answer depends on its own request alone. */
  function Serve(reqs: seq<Request>, providers: seq<ProviderCall -> Outcome>): (xs: seq<Exchange>)
    requires |providers| == |reqs|
    ensures |xs| == |reqs|
    ensures forall i :: 0 <= i < |reqs| ==> xs[i] == Dispatch(reqs[i], providers[i])
    decreases |reqs|
  {
    if |reqs| == 0 then []
    else
      var n := |reqs| - 1;
      var earlier := Serve(reqs[..n], providers[..n]);
      AppendKeepsAnswers(reqs, providers, earlier, Dispatch);
      earlier + [Dispatch(reqs[n], providers[n])]
  }

  /** Appending the answer to one more request leaves the earlier answers in place. */
  lemma AppendKeepsAnswers<Q, P, X>(reqs: seq<Q>, providers: seq<P>, earlier: seq<X>, answer: (Q, P) -> X)
    requires 0 < |reqs| == |providers| && |earlier| == |reqs| - 1
    requires forall i :: 0 <= i < |earlier| ==> earlier[i] == answer(reqs[..|earlier|][i], providers[..|earlier|][i])
    ensures var xs := earlier + [answer(reqs[|earlier|], providers[|earlier|])];
      forall i :: 0 <= i < |reqs| ==> xs[i] == answer(reqs[i], providers[i])
  {
    var n := |earlier|;
    var xs := earlier + [answer(reqs[n], providers[n])];
    forall i | 0 <= i < |reqs| ensures xs[i] == answer(reqs[i], providers[i]) {
      if i < n {
        assert xs[i] == earlier[i];
        assert reqs[..n][i] == reqs[i] && providers[..n][i] == providers[i];
      }
    }
  }

  /** The provider calls of a history, in the order they were made. */
  function Calls(xs: seq<Exchange>): seq<ProviderCall>
    decreases |xs|
  {
    if |xs| == 0 then [] else Calls(xs[..|xs| - 1]) + xs[|xs| - 1].calls
  }

  /** How many requests of a history pass validation. */
  function AcceptedCount(reqs: seq<Request>): nat
    decreases |reqs|
  {
    if |reqs| == 0 then 0
    else AcceptedCount(reqs[..|reqs| - 1]) + (if Accepted(reqs[|reqs| - 1]) then 1 else 0)
  }

  /** Over any history the provider is called once per accepted request and
      never otherwise. */
  lemma {:induction false} OneCallPerAcceptedRequest(reqs: seq<Request>, providers: seq<ProviderCall -> Outcome>)
    requires |providers| == |reqs|
    ensures |Calls(Serve(reqs, providers))| == AcceptedCount(reqs)
    decreases |reqs|
  {
    if |reqs| > 0 {
      var n := |reqs| - 1;
      var xs := Serve(reqs, providers);
      assert xs[..n] == Serve(reqs[..n], providers[..n]);
      OneCallPerAcceptedRequest(reqs[..n], providers[..n]);
      assert |xs[n].calls| == (if Accepted(reqs[n]) then 1 else 0);
    }
  }

  /** The health check answers "healthy" after any history at all. */
  lemma HealthIgnoresHistory(history: seq<Request>, providers: seq<ProviderCall -> Outcome>,
                             provider: ProviderCall -> Outcome)
    requires |providers| == |history|
    ensures var xs := Serve(history + [CheckHealth], providers + [provider]);
      xs[|history|] == Exchange([], Response(200, Status("healthy")))
  {
    assert (history + [CheckHealth])[|history|] == CheckHealth;
  }
}
