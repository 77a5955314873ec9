/** The three strategies of the `fetch` listener in build/sw.js, as a
    function of the store before the request, the request and the network's
    answer to it (`None`: the fetch rejected). The fire-and-forget
    `cache.put` is a store update applied after the response is chosen. */
module Fetch {
  import opened Wrappers
  import opened Text
  import opened Config
  import opened CacheStore
  import opened Router

  datatype Outcome =
    | NotIntercepted                          // `respondWith` is never called
    | Responded(response: Option<Response>)   // `None`: the promise resolved to nothing

  /** One handled request: what the page gets, the store afterwards, and
      whether the worker went to the network. */
  datatype Step = Step(outcome: Outcome, store: Store, fetched: bool)

  const OfflineBody: string := "{\"error\":\"Offline mode - please check your connection\",\"offline\":true}"

  /** The response synthesized for an API request that cannot reach the
      network: `new Response(body, {headers})` has status 200 by default. */
  function OfflineApiResponse(): (r: Response)
    ensures r.body == OfflineBody
    ensures r.headers == map["Content-Type" := "application/json"]
    ensures r.status == 200
  {
    Response(200, map["Content-Type" := "application/json"], OfflineBody)
  }

  /** The partition a cache-first route populates: one that activation
      keeps, and never the pre-filled Static partition. */
  function PartitionFor(route: Route): (name: string)
    ensures IsCurrentName(name) && name != StaticCache
    ensures route == EntryPoint ==> name == LoginCache
    ensures route == Default ==> name == DynamicCache
  {
    if route == EntryPoint then LoginCache else DynamicCache
  }

  /** Cache-first: a hit anywhere answers; otherwise the network answers,
      and a 200 is also stored under the request URL in `partition`. The
      network is consulted exactly on a miss, and the only store change is
      that 200 written under the request URL. */
  function CacheFirst(s: Store, origin: string, req: Request, net: Option<Response>, partition: string, fallback: bool): (r: Step)
    ensures r.outcome.Responded?
    ensures r.fetched <==> MatchAny(s, req.url).None?
    ensures !r.fetched ==> r.outcome.response == MatchAny(s, req.url) && r.store == s
    ensures r.store == s || (net.Some? && net.value.status == 200 && r.store == PutEntry(s, partition, req.url, net.value))
  {
    match MatchAny(s, req.url)
    case Some(hit) => Step(Responded(Some(hit)), s, false)
    case None =>
      match net
      case Some(resp) =>
        Step(Responded(Some(resp)), if resp.status == 200 then PutEntry(s, partition, req.url, resp) else s, true)
      case None =>
        Step(Responded(if fallback then MatchAny(s, Resolve(origin, "/")) else None), s, true)
  }

  /** The whole `fetch` listener. Only GET requests are answered; a request
      never removes a partition, and the one store change it can make is a
      200 from the network written under the request URL into the partition
      of its cache-first route. */
  function HandleFetch(s: Store, origin: string, req: Request, net: Option<Response>): (r: Step)
    ensures r.outcome == NotIntercepted <==> req.verb != "GET"
    ensures r.store == s || (
      (Classify(req) == EntryPoint || Classify(req) == Default) && net.Some? && net.value.status == 200
      && r.store == PutEntry(s, PartitionFor(Classify(req)), req.url, net.value))
    ensures s.parts.Keys <= r.store.parts.Keys
    ensures WellFormed(s) ==> WellFormed(r.store)
  {
    var route := Classify(req);
    match route
    case PassThrough => Step(NotIntercepted, s, false)
    case Api => Step(Responded(Some(net.GetOr(OfflineApiResponse()))), s, true)
    case EntryPoint => CacheFirst(s, origin, req, net, PartitionFor(route), true)
    case Default => CacheFirst(s, origin, req, net, PartitionFor(route), req.destination == "document")
  }

  /** Non-GET requests are not intercepted: no response, no fetch by the
      worker, the store unchanged. */
  lemma NonGetNotIntercepted(s: Store, origin: string, req: Request, net: Option<Response>)
    requires req.verb != "GET"
    ensures HandleFetch(s, origin, req, net) == Step(NotIntercepted, s, false)
  {
  }

  /** An API request goes to the network and nowhere else: the network's
      response when there is one, the canned offline JSON otherwise; no
      partition is read (the answer is the same whatever the store holds) or
      written. */
  lemma ApiIsNetworkOnly(s: Store, t: Store, origin: string, req: Request, net: Option<Response>)
    requires req.verb == "GET" && Contains(req.url, "/api/")
    ensures HandleFetch(s, origin, req, net).store == s
    ensures HandleFetch(s, origin, req, net).fetched
    ensures HandleFetch(s, origin, req, net).outcome == HandleFetch(t, origin, req, net).outcome
    ensures net.Some? ==> HandleFetch(s, origin, req, net).outcome == Responded(Some(net.value))
    ensures net.None? ==> HandleFetch(s, origin, req, net).outcome == Responded(Some(OfflineApiResponse()))
  {
  }

  /** A non-API GET found in any partition is answered from it, without a
      network fetch and without changing the store. */
  lemma CacheHitServed(s: Store, origin: string, req: Request, net: Option<Response>, n: string)
    requires WellFormed(s)
    requires req.verb == "GET" && !Contains(req.url, "/api/")
    requires n in s.parts && req.url in s.parts[n]
    ensures var step := HandleFetch(s, origin, req, net);
      && step.store == s && !step.fetched
      && step.outcome.Responded? && step.outcome.response.Some?
      && step.outcome.response == MatchAny(s, req.url)
  {
  }

  /** On a miss answered with 200, that response goes to the page and into
      exactly one place: the request URL in Login (entry point) or Dynamic
      (default), overwriting any earlier entry there. */
  lemma MissWith200IsStored(s: Store, origin: string, req: Request, resp: Response)
    requires WellFormed(s)
    requires req.verb == "GET" && !Contains(req.url, "/api/")
    requires MatchAny(s, req.url).None?
    requires resp.status == 200
    ensures var step := HandleFetch(s, origin, req, Some(resp));
      var p := PartitionFor(Classify(req));
      && step.outcome == Responded(Some(resp)) && step.fetched
      && step.store == PutEntry(s, p, req.url, resp)
      && step.store.parts[p][req.url] == resp
      && (forall k :: p in s.parts && k in s.parts[p] && k != req.url ==> step.store.parts[p][k] == s.parts[p][k])
      && (forall n :: n in s.parts && n != p ==> step.store.parts[n] == s.parts[n])
  {
  }

  /** On a miss answered with any other status the response still goes to
      the page, and the store is unchanged. */
  lemma MissWithOtherStatusNotStored(s: Store, origin: string, req: Request, resp: Response)
    requires req.verb == "GET" && !Contains(req.url, "/api/")
    requires MatchAny(s, req.url).None?
    requires resp.status != 200
    ensures HandleFetch(s, origin, req, Some(resp)) == Step(Responded(Some(resp)), s, true)
  {
  }

  /** On a miss with the network down: an entry point gets whatever the
      cached root gives (possibly nothing); any other request gets the cached
      root only when it is a page navigation, and nothing otherwise. */
  lemma MissOfflineFallback(s: Store, origin: string, req: Request)
    requires req.verb == "GET" && !Contains(req.url, "/api/")
    requires MatchAny(s, req.url).None?
    ensures var step := HandleFetch(s, origin, req, None);
      && step.store == s && step.fetched
      && (Classify(req) == EntryPoint ==> step.outcome == Responded(MatchAny(s, Resolve(origin, "/"))))
      && (Classify(req) == Default && req.destination == "document" ==> step.outcome == Responded(MatchAny(s, Resolve(origin, "/"))))
      && (Classify(req) == Default && req.destination != "document" ==> step.outcome == Responded(None))
  {
  }

  /** A response stored on a miss is what the same request gets next,
      network or not, and that second request does not fetch. */
  lemma StoredThenServed(s: Store, origin: string, req: Request, resp: Response, later: Option<Response>)
    requires WellFormed(s)
    requires req.verb == "GET" && !Contains(req.url, "/api/")
    requires MatchAny(s, req.url).None?
    requires resp.status == 200
    ensures var s1 := HandleFetch(s, origin, req, Some(resp)).store;
      HandleFetch(s1, origin, req, later) == Step(Responded(Some(resp)), s1, false)
  {
    var p := PartitionFor(Classify(req));
    MissWith200IsStored(s, origin, req, resp);
    var s1 := PutEntry(s, p, req.url, resp);
    assert MatchAny(s1, req.url) == Some(resp) by {
      assert p in s1.parts && req.url in s1.parts[p];
      forall n | n in s1.parts && n != p ensures req.url !in s1.parts[n] {
        assert n in s.parts;
      }
    }
  }
}
