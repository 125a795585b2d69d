/**
 * The per-endpoint fetchers (POST, JSON decoding, field copy) seen from the
 * cached client: an oracle that answers the n-th request to an endpoint with
 * respond(endpoint, n) and counts the requests it receives.
 */
module Fetchers {
  import opened Entities

  class Upstream {
    /** What the exchange answers to the n-th request for an endpoint. */
    const respond: (Endpoint, nat) -> FetchResult
    /** How many times each endpoint has been requested. */
    var asked: map<Endpoint, nat>
    /** Every request, in order. */
    ghost var log: seq<Endpoint>

    constructor (respond: (Endpoint, nat) -> FetchResult)
      ensures this.respond == respond
      ensures asked == map[] && log == []
    {
      this.respond := respond;
      asked := map[];
      log := [];
    }

    function Count(e: Endpoint): nat
      reads this
    {
      if e in asked then asked[e] else 0
    }

    /** The answer the next request for `e` will get. */
    function Next(e: Endpoint): FetchResult
      reads this
    {
      respond(e, Count(e))
    }

    /** One request: answered by the oracle, counted, logged. */
    method Fetch(e: Endpoint) returns (r: FetchResult)
      modifies this
      ensures r == old(Next(e))
      ensures asked == old(asked)[e := old(Count(e)) + 1]
      ensures Count(e) == old(Count(e)) + 1
      ensures forall d :: d != e ==> Count(d) == old(Count(d))
      ensures log == old(log) + [e]
    {
      r := respond(e, Count(e));
      asked := asked[e := Count(e) + 1];
      log := log + [e];
    }
  }
}
