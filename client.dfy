/**
 * The public client (client.go): NewClient's option merge and the cache-first
 * accessors. A bulk accessor answers from a fresh cache slot without a
 * request; otherwise it asks the upstream exactly once, stores a success and
 * returns an error without caching anything. The composite lookups load
 * three collections in a fixed order, stop at the first error and hand the
 * collections to the helpers.
 */
module OpenBymaData {
  import opened Wrappers
  import opened Types
  import opened Entities
  import opened Api
  import opened Fetchers
  import H = Helpers
  import C = Cache

  /**
   * NewClient's merge: start from the defaults and take the caller's BaseURL,
   * Timeout, RetryAttempts and Logger only when non-empty, positive or
   * non-nil. The caller's EnableCache and HTTPClient are not read.
   */
  function MergeOptions(opts: seq<Option<ClientOptions>>): (o: ClientOptions)
    ensures |opts| == 0 || opts[0].None? ==> o == DefaultClientOptions()
    ensures o.enableCache && o.httpClient.None?
  {
    var d := DefaultClientOptions();
    if |opts| > 0 && opts[0].Some? then
      var given := opts[0].value;
      d.(baseURL := if given.baseURL != "" then given.baseURL else d.baseURL,
         timeout := if given.timeout > 0 then given.timeout else d.timeout,
         retryAttempts := if given.retryAttempts > 0 then given.retryAttempts else d.retryAttempts,
         logger := if given.logger.Some? then given.logger else d.logger)
    else d
  }

  /** A caller's field is taken exactly when it is set; otherwise the default stays. */
  lemma MergeOptionsFieldRule(opts: seq<Option<ClientOptions>>)
    requires |opts| > 0 && opts[0].Some?
    ensures var o, given, d := MergeOptions(opts), opts[0].value, DefaultClientOptions();
      && (given.baseURL != "" ==> o.baseURL == given.baseURL)
      && (given.baseURL == "" ==> o.baseURL == d.baseURL)
      && (given.timeout > 0 ==> o.timeout == given.timeout)
      && (given.timeout <= 0 ==> o.timeout == d.timeout)
      && (given.retryAttempts > 0 ==> o.retryAttempts == given.retryAttempts)
      && (given.retryAttempts <= 0 ==> o.retryAttempts == d.retryAttempts)
      && (given.logger.Some? ==> o.logger == given.logger)
      && (given.logger.None? ==> o.logger == d.logger)
  {
  }

  /** Whatever the caller passes, the merged options are usable: a URL, a positive timeout and retry count, a logger. */
  lemma MergedOptionsUsable(opts: seq<Option<ClientOptions>>)
    ensures var o := MergeOptions(opts);
      o.baseURL != "" && o.timeout > 0 && o.retryAttempts > 0 && o.logger.Some?
  {
  }

  /** Two calls that differ only in EnableCache give the same options: the flag is never read. */
  lemma EnableCacheNeverRead(o: ClientOptions, flag: bool)
    ensures MergeOptions([Some(o)]) == MergeOptions([Some(o.(enableCache := flag))])
  {
  }

  type Collections = (seq<Record>, seq<Record>, seq<Record>)

  /** The first error among three answers taken in order, or all three collections. */
  function Gather(r1: FetchResult, r2: FetchResult, r3: FetchResult): (r: Result<Collections, Error>)
    ensures r.Success? <==> r1.Success? && r2.Success? && r3.Success?
    ensures r.Success? ==> r.value == (r1.value, r2.value, r3.value)
    ensures r.Failure? ==> r.error == if r1.Failure? then r1.error else if r2.Failure? then r2.error else r3.error
  {
    if r1.Failure? then Failure(r1.error)
    else
      var rest := GatherTwo(r2, r3);
      if rest.Failure? then Failure(rest.error) else Success((r1.value, rest.value.0, rest.value.1))
  }

  function GatherTwo(r2: FetchResult, r3: FetchResult): Result<(seq<Record>, seq<Record>), Error> {
    if r2.Failure? then Failure(r2.error)
    else if r3.Failure? then Failure(r3.error)
    else Success((r2.value, r3.value))
  }

  /** The requests of three accessor calls in order, where a failed call stops the rest. */
  function Requests(m1: seq<Endpoint>, r1: FetchResult, m2: seq<Endpoint>, r2: FetchResult, m3: seq<Endpoint>): seq<Endpoint> {
    m1 + if r1.Failure? then [] else RequestsTwo(m2, r2, m3)
  }

  function RequestsTwo(m2: seq<Endpoint>, r2: FetchResult, m3: seq<Endpoint>): seq<Endpoint> {
    m2 + if r2.Failure? then [] else m3
  }

  /**
   * The client's state as a value: the cache's contents (None when caching
   * is off), how many times each endpoint has been requested, and what the
   * exchange answers.
   */
  datatype World = World(cache: Option<C.Snapshot>, asked: map<Endpoint, nat>, respond: (Endpoint, nat) -> FetchResult)
  {
    function Count(e: Endpoint): nat {
      if e in asked then asked[e] else 0
    }

    /** A request for `e` at `now` is answered from the cache. */
    predicate IsHit(e: Endpoint, now: int) {
      cache.Some? && cache.value.Find(e, now).Some?
    }

    /** What an accessor for `e` at `now` returns. */
    function Answer(e: Endpoint, now: int): FetchResult {
      if IsHit(e, now) then Success(cache.value.Find(e, now).value) else respond(e, Count(e))
    }

    /** The upstream requests an accessor for `e` at `now` makes: none on a hit, one on a miss. */
    function Requested(e: Endpoint, now: int): seq<Endpoint> {
      if IsHit(e, now) then [] else [e]
    }

    /** The state after a request for `e`: the request is counted. */
    function Asked(e: Endpoint): World {
      this.(asked := asked[e := Count(e) + 1])
    }

    /**
     * The state after GetBluechips, GetCedears, ... at `now`: a hit changes
     * nothing; a miss makes one request and stores a success stamped `now`.
     */
    function Step(c: Category, now: int): World {
      if IsHit(Bulk(c), now) then this
      else
        var f := Answer(Bulk(c), now);
        var w := Asked(Bulk(c));
        if f.Success? && cache.Some? then w.(cache := Some(cache.value.Put(c, C.Slot(f.value, now)))) else w
    }

    /**
     * The slot of `c` after an accessor call at `now`: the answer stamped
     * `now` after a miss that succeeded, otherwise the slot as it was.
     */
    function SlotAfter(c: Category, now: int): Option<C.Slot>
      requires cache.Some?
    {
      var f := Answer(Bulk(c), now);
      if IsHit(Bulk(c), now) || f.Failure? then cache.value.At(c) else Some(C.Slot(f.value, now))
    }

    /** The state after GetIncomeStatement for `ticker` at `now`, by the same rule. */
    function StepIncome(ticker: string, now: int): World {
      var e := IncomeStatements(ticker);
      if IsHit(e, now) then this
      else
        var f := Answer(e, now);
        var w := Asked(e);
        if f.Success? && cache.Some? then w.(cache := Some(cache.value.(income := cache.value.income[ticker := C.Slot(f.value, now)])))
        else w
    }

    /** The three collections a composite lookup gets, or the first error among them. */
    function Collect(c1: Category, c2: Category, c3: Category, now: int): Result<Collections, Error> {
      Gather(Answer(Bulk(c1), now), Answer(Bulk(c2), now), Answer(Bulk(c3), now))
    }

    /** The requests a composite lookup makes: in order, and none after the first error. */
    function Plan(c1: Category, c2: Category, c3: Category, now: int): seq<Endpoint> {
      Requests(Requested(Bulk(c1), now), Answer(Bulk(c1), now),
               Requested(Bulk(c2), now), Answer(Bulk(c2), now), Requested(Bulk(c3), now))
    }

    /** The collections of the last two calls of a composite lookup, or the first error. */
    function CollectTwo(c2: Category, c3: Category, now: int): Result<(seq<Record>, seq<Record>), Error> {
      GatherTwo(Answer(Bulk(c2), now), Answer(Bulk(c3), now))
    }

    /** The requests of the last two calls of a composite lookup. */
    function PlanTwo(c2: Category, c3: Category, now: int): seq<Endpoint> {
      RequestsTwo(Requested(Bulk(c2), now), Answer(Bulk(c2), now), Requested(Bulk(c3), now))
    }

    /** The state after a composite lookup's three accessor calls, which stop at the first error. */
    function StepThree(c1: Category, c2: Category, c3: Category, now: int): World {
      var w := Step(c1, now);
      if Answer(Bulk(c1), now).Failure? then w else w.StepTwo(c2, c3, now)
    }

    function StepTwo(c2: Category, c3: Category, now: int): World {
      var w := Step(c2, now);
      if Answer(Bulk(c2), now).Failure? then w else w.Step(c3, now)
    }
  }

  /** A hit changes nothing and requests nothing. */
  lemma StepOnHit(w: World, c: Category, now: int)
    requires w.IsHit(Bulk(c), now)
    ensures w.Step(c, now) == w && w.Requested(Bulk(c), now) == []
  {
  }

  /**
   * The slots after an accessor call: the collection's slot holds the answer
   * stamped `now` after a miss that succeeded and is unchanged after a hit or
   * an error; every other slot and the income statements are untouched.
   */
  lemma StepSlots(w: World, c: Category, now: int)
    requires w.cache.Some?
    ensures var s := w.Step(c, now);
      && s.cache.Some? && s.cache.value.duration == w.cache.value.duration
      && s.cache.value.At(c) == w.SlotAfter(c, now)
      && (forall d :: d != c ==> s.cache.value.At(d) == w.cache.value.At(d))
      && s.cache.value.income == w.cache.value.income
  {
  }

  /** An error stores nothing: the cache is as it was. */
  lemma StepFailureStoresNothing(w: World, c: Category, now: int)
    requires w.Answer(Bulk(c), now).Failure?
    ensures w.Step(c, now).cache == w.cache
  {
  }

  /** Without a cache every call requests, and there is still no cache afterwards. */
  lemma StepWithoutCache(w: World, c: Category, now: int)
    requires w.cache.None?
    ensures w.Requested(Bulk(c), now) == [Bulk(c)]
    ensures w.Step(c, now).cache.None?
  {
  }

  /** An accessor call for `c` does not change how any other endpoint is answered, at any time. */
  lemma {:induction false} StepFrame(w: World, c: Category, e: Endpoint, t: int, now: int)
    requires e != Bulk(c)
    ensures var s := w.Step(c, now);
      s.IsHit(e, t) == w.IsHit(e, t) && s.Answer(e, t) == w.Answer(e, t) && s.Requested(e, t) == w.Requested(e, t)
  {
    var s := w.Step(c, now);
    if !w.IsHit(Bulk(c), now) {
      assert s.Count(e) == w.Count(e);
      if w.cache.Some? && w.Answer(Bulk(c), now).Success? {
        StepSlots(w, c, now);
        assert s.cache.value.Find(e, t) == w.cache.value.Find(e, t);
      }
    }
  }

  /**
   * A miss that succeeded keeps the answer for the cache's duration: every
   * call in [now, now + duration) is a hit with the same data.
   */
  lemma StepKeepsFresh(w: World, c: Category, now: int, t: int)
    requires w.cache.Some? && !w.IsHit(Bulk(c), now) && w.Answer(Bulk(c), now).Success?
    requires now <= t < now + w.cache.value.duration
    ensures w.Step(c, now).IsHit(Bulk(c), t)
    ensures w.Step(c, now).Answer(Bulk(c), t) == w.Answer(Bulk(c), now)
  {
    StepSlots(w, c, now);
  }

  /** After a successful call, the same call at the same instant is a hit with the same answer. */
  lemma StepSucceeds(w: World, c: Category, now: int)
    requires w.cache.Some? && w.cache.value.duration > 0 && w.Answer(Bulk(c), now).Success?
    ensures w.Step(c, now).IsHit(Bulk(c), now)
    ensures w.Step(c, now).Answer(Bulk(c), now) == w.Answer(Bulk(c), now)
  {
    if !w.IsHit(Bulk(c), now) {
      StepKeepsFresh(w, c, now, now);
    }
  }

  /** GetIncomeStatement touches only the entry of its ticker. */
  lemma StepIncomeSlots(w: World, ticker: string, now: int)
    requires w.cache.Some?
    ensures var s := w.StepIncome(ticker, now); var f := w.Answer(IncomeStatements(ticker), now);
      && s.cache.Some?
      && (forall d :: s.cache.value.At(d) == w.cache.value.At(d))
      && (forall u :: u != ticker ==> (u in s.cache.value.income <==> u in w.cache.value.income))
      && (forall u :: u != ticker && u in w.cache.value.income ==> s.cache.value.income[u] == w.cache.value.income[u])
      && (!w.IsHit(IncomeStatements(ticker), now) && f.Success? ==>
            ticker in s.cache.value.income && s.cache.value.income[ticker] == C.Slot(f.value, now))
  {
  }

  /** The second and third calls of a composite lookup see the state the first call left. */
  lemma {:induction false} FirstCallFrame(w: World, c1: Category, c2: Category, c3: Category, now: int)
    requires c1 != c2 && c1 != c3
    ensures var s := w.Step(c1, now);
      && s.Answer(Bulk(c2), now) == w.Answer(Bulk(c2), now) && s.Requested(Bulk(c2), now) == w.Requested(Bulk(c2), now)
      && s.Answer(Bulk(c3), now) == w.Answer(Bulk(c3), now) && s.Requested(Bulk(c3), now) == w.Requested(Bulk(c3), now)
  {
    StepFrame(w, c1, Bulk(c2), now, now);
    StepFrame(w, c1, Bulk(c3), now, now);
  }

  lemma AppendAssoc<T>(a: seq<T>, b: seq<T>, c: seq<T>)
    ensures a + (b + c) == (a + b) + c
  {
  }

  /** After a successful first call, the result of a composite lookup is made of the last two calls' on the state it left. */
  lemma {:induction false} ThreeAsTwo(w: World, c1: Category, c2: Category, c3: Category, now: int)
    requires c1 != c2 && c1 != c3 && w.Answer(Bulk(c1), now).Success?
    ensures var t := w.Step(c1, now).CollectTwo(c2, c3, now);
      w.Collect(c1, c2, c3, now) == if t.Failure? then Failure(t.error) else Success((w.Answer(Bulk(c1), now).value, t.value.0, t.value.1))
  {
    FirstCallFrame(w, c1, c2, c3, now);
  }

  /** After a successful first call, the requests of a composite lookup are its own and those of the last two calls on the state it left. */
  lemma {:induction false} ThreePlanAsTwo(w: World, c1: Category, c2: Category, c3: Category, now: int)
    requires c1 != c2 && c1 != c3 && w.Answer(Bulk(c1), now).Success?
    ensures w.Plan(c1, c2, c3, now) == w.Requested(Bulk(c1), now) + w.Step(c1, now).PlanTwo(c2, c3, now)
  {
    FirstCallFrame(w, c1, c2, c3, now);
  }

  /** After a successful first call, the state a composite lookup leaves is the one the last two calls leave on the state the first call left. */
  lemma ThreeStepAsTwo(w: World, c1: Category, c2: Category, c3: Category, now: int)
    requires w.Answer(Bulk(c1), now).Success?
    ensures w.StepThree(c1, c2, c3, now) == w.Step(c1, now).StepTwo(c2, c3, now)
  {
  }

  /** After a successful first call, the rest of a pair of calls is the last call on the state it left. */
  lemma {:induction false} TwoAsOne(w: World, c2: Category, c3: Category, now: int)
    requires c2 != c3 && w.Answer(Bulk(c2), now).Success?
    ensures var s := w.Step(c2, now); var f := s.Answer(Bulk(c3), now);
      && w.CollectTwo(c2, c3, now) == (if f.Failure? then Failure(f.error) else Success((w.Answer(Bulk(c2), now).value, f.value)))
      && w.PlanTwo(c2, c3, now) == w.Requested(Bulk(c2), now) + s.Requested(Bulk(c3), now)
    ensures w.StepTwo(c2, c3, now) == w.Step(c2, now).Step(c3, now)
  {
    StepFrame(w, c2, Bulk(c3), now, now);
  }

  /** An accessor call for `c` leaves what a call for another collection `d` would do unchanged. */
  lemma {:induction false} SlotAfterFrame(w: World, c: Category, d: Category, now: int)
    requires w.cache.Some? && c != d
    ensures var s := w.Step(c, now);
      && s.cache.Some? && s.cache.value.At(d) == w.cache.value.At(d)
      && s.Answer(Bulk(d), now) == w.Answer(Bulk(d), now)
      && s.SlotAfter(d, now) == w.SlotAfter(d, now)
  {
    StepSlots(w, c, now);
    StepFrame(w, c, Bulk(d), now, now);
  }

  /** The slots the last two calls of a composite lookup leave. */
  lemma {:induction false} StepTwoSlots(w: World, c2: Category, c3: Category, now: int)
    requires w.cache.Some? && c2 != c3
    ensures var s := w.StepTwo(c2, c3, now);
      && s.cache.Some?
      && s.cache.value.At(c2) == w.SlotAfter(c2, now)
      && s.cache.value.At(c3) == (if w.Answer(Bulk(c2), now).Failure? then w.cache.value.At(c3) else w.SlotAfter(c3, now))
      && (forall d :: d != c2 && d != c3 ==> s.cache.value.At(d) == w.cache.value.At(d))
      && s.cache.value.income == w.cache.value.income
  {
    StepSlots(w, c2, now);
    if w.Answer(Bulk(c2), now).Success? {
      var w1 := w.Step(c2, now);
      SlotAfterFrame(w, c2, c3, now);
      StepSlots(w1, c3, now);
    }
  }

  /**
   * The slots a composite lookup leaves: each collection reached is left as
   * its own accessor leaves it, a collection after the first error keeps its
   * slot, and every other slot and the income statements stay as they were.
   */
  lemma {:induction false} StepThreeSlots(w: World, c1: Category, c2: Category, c3: Category, now: int)
    requires w.cache.Some? && c1 != c2 && c1 != c3 && c2 != c3
    ensures var s := w.StepThree(c1, c2, c3, now);
      var f1, f2 := w.Answer(Bulk(c1), now), w.Answer(Bulk(c2), now);
      && s.cache.Some?
      && s.cache.value.At(c1) == w.SlotAfter(c1, now)
      && s.cache.value.At(c2) == (if f1.Failure? then w.cache.value.At(c2) else w.SlotAfter(c2, now))
      && s.cache.value.At(c3) == (if f1.Failure? || f2.Failure? then w.cache.value.At(c3) else w.SlotAfter(c3, now))
      && (forall d :: d != c1 && d != c2 && d != c3 ==> s.cache.value.At(d) == w.cache.value.At(d))
      && s.cache.value.income == w.cache.value.income
  {
    StepSlots(w, c1, now);
    if w.Answer(Bulk(c1), now).Success? {
      var w1 := w.Step(c1, now);
      SlotAfterFrame(w, c1, c2, now);
      SlotAfterFrame(w, c1, c3, now);
      StepTwoSlots(w1, c2, c3, now);
    }
  }

  /**
   * After a composite lookup succeeded, its three collections are fresh: the
   * same lookup at the same instant is answered from the cache with the same
   * collections and makes no request.
   */
  lemma {:induction false} StepThreeFresh(w: World, c1: Category, c2: Category, c3: Category, now: int)
    requires w.cache.Some? && w.cache.value.duration > 0 && c1 != c2 && c1 != c3 && c2 != c3
    requires w.Collect(c1, c2, c3, now).Success?
    ensures var s := w.StepThree(c1, c2, c3, now);
      && s.IsHit(Bulk(c1), now) && s.IsHit(Bulk(c2), now) && s.IsHit(Bulk(c3), now)
      && s.Collect(c1, c2, c3, now) == w.Collect(c1, c2, c3, now)
      && s.Plan(c1, c2, c3, now) == []
  {
    var w1 := w.Step(c1, now);
    FirstCallFrame(w, c1, c2, c3, now);
    StepSucceeds(w, c1, now);
    var w2 := w1.Step(c2, now);
    StepSlots(w, c1, now);
    StepSucceeds(w1, c2, now);
    StepFrame(w1, c2, Bulk(c1), now, now);
    StepFrame(w1, c2, Bulk(c3), now, now);
    var w3 := w2.Step(c3, now);
    StepSlots(w1, c2, now);
    StepSucceeds(w2, c3, now);
    StepFrame(w2, c3, Bulk(c1), now, now);
    StepFrame(w2, c3, Bulk(c2), now, now);
  }

  /** Repeating a successful composite lookup at the same instant changes nothing. */
  lemma StepThreeIdempotent(w: World, c1: Category, c2: Category, c3: Category, now: int)
    requires w.cache.Some? && w.cache.value.duration > 0 && c1 != c2 && c1 != c3 && c2 != c3
    requires w.Collect(c1, c2, c3, now).Success?
    ensures var s := w.StepThree(c1, c2, c3, now); s.StepThree(c1, c2, c3, now) == s
  {
    StepThreeFresh(w, c1, c2, c3, now);
    var s := w.StepThree(c1, c2, c3, now);
    StepOnHit(s, c1, now);
    StepOnHit(s, c2, now);
    StepOnHit(s, c3, now);
  }

  class Client {
    const api: ApiClient
    const upstream: Upstream
    /** nil when caching is off; NewClient always creates one. */
    const cache: C.Cache?

    /** NewClient. The dictionary stands for what the session set-up loads. */
    constructor (opts: seq<Option<ClientOptions>>, upstream: Upstream, dictionary: Option<map<string, string>>)
      ensures api.baseURL == MergeOptions(opts).baseURL
      ensures api.timeout == MergeOptions(opts).timeout
      ensures api.retryAttempts == MergeOptions(opts).retryAttempts
      ensures api.dictionary == dictionary
      ensures this.upstream == upstream
      ensures cache != null && fresh(cache) && cache.IsEmpty()
      ensures State().cache == Some(C.EmptySnapshot(C.CacheDuration))
      ensures Valid()
    {
      var options := MergeOptions(opts);
      api := ApiClient(options.baseURL, options.timeout, options.retryAttempts, dictionary);
      this.upstream := upstream;
      if options.enableCache {
        cache := new C.Cache();
      } else {
        cache := null;
      }
    }

    /** The cache, when there is one, keeps entries for five minutes. */
    ghost predicate Valid() {
      cache != null ==> cache.duration == C.CacheDuration
    }

    /** The client's state as a value. */
    function State(): World
      reads cache, upstream
    {
      World(if cache == null then None else Some(cache.View()), upstream.asked, upstream.respond)
    }

    /** A request for `e` at `now` is answered from the cache. */
    function Hit(e: Endpoint, now: int): bool
      reads cache, upstream
    {
      State().IsHit(e, now)
    }

    /** What an accessor for `e` at `now` returns. */
    function Served(e: Endpoint, now: int): FetchResult
      reads cache, upstream
    {
      State().Answer(e, now)
    }

    /** The upstream requests an accessor for `e` at `now` makes. */
    function Misses(e: Endpoint, now: int): seq<Endpoint>
      reads cache, upstream
    {
      State().Requested(e, now)
    }

    /** A single-collection lookup: the collection's error, or the helper's answer on it. */
    function Lookup(c: Category, kind: string, symbol: string, now: int): Result<Record, Error>
      reads cache, upstream
    {
      var f := Served(Bulk(c), now);
      if f.Failure? then Failure(f.error) else H.FindIn(kind, symbol, f.value)
    }

    /**
     * GetBluechips, GetCedears, ... GetNews. A hit returns the cached slice and
     * touches nothing; a miss makes one request and stores a success at `now`;
     * an error is returned and nothing is stored (StepSlots, StepKeepsFresh).
     */
    method GetCollection(c: Category, now: int) returns (r: FetchResult)
      requires Valid()
      modifies cache, upstream
      ensures r == old(State()).Answer(Bulk(c), now)
      ensures upstream.log == old(upstream.log) + old(State()).Requested(Bulk(c), now)
      ensures State() == old(State()).Step(c, now)
    {
      if cache != null {
        var cached, found := cache.Get(c, now);
        if found {
          return Success(cached);
        }
      }
      r := upstream.Fetch(Bulk(c));
      if r.Failure? {
        return;
      }
      if cache != null {
        cache.Set(c, r.value, now);
      }
    }

    /** GetIncomeStatement: the same hit, miss and error rule, on the slot of this ticker (StepIncomeSlots). */
    method GetIncomeStatement(ticker: string, now: int) returns (r: FetchResult)
      requires Valid()
      modifies cache, upstream
      ensures r == old(Served(IncomeStatements(ticker), now))
      ensures upstream.log == old(upstream.log) + old(Misses(IncomeStatements(ticker), now))
      ensures State() == old(State()).StepIncome(ticker, now)
    {
      if cache != null {
        var cached, found := cache.GetIncomeStatement(ticker, now);
        if found {
          return Success(cached);
        }
      }
      r := upstream.Fetch(IncomeStatements(ticker));
      if r.Failure? {
        return;
      }
      if cache != null {
        cache.SetIncomeStatement(ticker, r.value, now);
      }
    }

    /**
     * The three accessor calls at the head of every composite lookup: the
     * three collections or the first error, the requests of the misses in
     * order, and the state StepThree leaves (StepThreeSlots, StepThreeFresh).
     */
    method FetchThree(c1: Category, c2: Category, c3: Category, now: int) returns (r: Result<Collections, Error>)
      requires Valid()
      requires c1 != c2 && c1 != c3 && c2 != c3
      modifies cache, upstream
      ensures r == old(State()).Collect(c1, c2, c3, now)
      ensures upstream.log == old(upstream.log) + old(State()).Plan(c1, c2, c3, now)
      ensures State() == old(State()).StepThree(c1, c2, c3, now)
    {
      ghost var w := State();
      var r1 := GetCollection(c1, now);
      if r1.Failure? {
        FirstErrorShortCircuits(w, c1, c2, c3, now);
        return Failure(r1.error);
      }
      ThreeAsTwo(w, c1, c2, c3, now);
      ThreePlanAsTwo(w, c1, c2, c3, now);
      ThreeStepAsTwo(w, c1, c2, c3, now);
      AppendAssoc(old(upstream.log), w.Requested(Bulk(c1), now), w.Step(c1, now).PlanTwo(c2, c3, now));
      var rest := FetchTwo(c2, c3, now);
      if rest.Failure? {
        return Failure(rest.error);
      }
      return Success((r1.value, rest.value.0, rest.value.1));
    }

    /** The second and third accessor calls of a composite lookup. */
    method FetchTwo(c2: Category, c3: Category, now: int) returns (r: Result<(seq<Record>, seq<Record>), Error>)
      requires Valid()
      requires c2 != c3
      modifies cache, upstream
      ensures r == old(State()).CollectTwo(c2, c3, now)
      ensures upstream.log == old(upstream.log) + old(State()).PlanTwo(c2, c3, now)
      ensures State() == old(State()).StepTwo(c2, c3, now)
    {
      ghost var w := State();
      var r2 := GetCollection(c2, now);
      if r2.Failure? {
        return Failure(r2.error);
      }
      TwoAsOne(w, c2, c3, now);
      AppendAssoc(old(upstream.log), w.Requested(Bulk(c2), now), w.Step(c2, now).Requested(Bulk(c3), now));
      var r3 := GetCollection(c3, now);
      if r3.Failure? {
        return Failure(r3.error);
      }
      return Success((r2.value, r3.value));
    }

    method GetSecurity(symbol: string, now: int) returns (r: Result<Security, Error>)
      requires Valid()
      modifies cache, upstream
      ensures var f := old(State()).Collect(Bluechips, Cedears, Galpones, now);
              r == if f.Failure? then Failure(f.error) else H.FindFirstOf("security", symbol, f.value.0, f.value.1, f.value.2)
      ensures upstream.log == old(upstream.log) + old(State()).Plan(Bluechips, Cedears, Galpones, now)
      ensures State() == old(State()).StepThree(Bluechips, Cedears, Galpones, now)
    {
      var all := FetchThree(Bluechips, Cedears, Galpones, now);
      if all.Failure? {
        return Failure(all.error);
      }
      r := H.FindSecurityBySymbol(symbol, all.value.0, all.value.1, all.value.2);
    }

    method GetBond(symbol: string, now: int) returns (r: Result<Bond, Error>)
      requires Valid()
      modifies cache, upstream
      ensures var f := old(State()).Collect(Bonds, ShortTermBonds, CorporateBonds, now);
              r == if f.Failure? then Failure(f.error) else H.FindFirstOf("bond", symbol, f.value.0, f.value.1, f.value.2)
      ensures upstream.log == old(upstream.log) + old(State()).Plan(Bonds, ShortTermBonds, CorporateBonds, now)
      ensures State() == old(State()).StepThree(Bonds, ShortTermBonds, CorporateBonds, now)
    {
      var all := FetchThree(Bonds, ShortTermBonds, CorporateBonds, now);
      if all.Failure? {
        return Failure(all.error);
      }
      r := H.FindBondBySymbol(symbol, all.value.0, all.value.1, all.value.2);
    }

    method GetMultipleSecurities(symbols: seq<string>, now: int) returns (r: Result<map<string, Security>, Error>)
      requires Valid()
      modifies cache, upstream
      ensures var f := old(State()).Collect(Bluechips, Cedears, Galpones, now);
              r == if f.Failure? then Failure(f.error) else Success(H.MultipleSecurities(symbols, f.value.0, f.value.1, f.value.2))
      ensures upstream.log == old(upstream.log) + old(State()).Plan(Bluechips, Cedears, Galpones, now)
      ensures State() == old(State()).StepThree(Bluechips, Cedears, Galpones, now)
    {
      var all := FetchThree(Bluechips, Cedears, Galpones, now);
      if all.Failure? {
        return Failure(all.error);
      }
      var results := H.GetMultipleSecurities(symbols, all.value.0, all.value.1, all.value.2);
      return Success(results);
    }

    method SearchSecurities(searchText: string, now: int) returns (r: Result<seq<Security>, Error>)
      requires Valid()
      modifies cache, upstream
      ensures var f := old(State()).Collect(Bluechips, Cedears, Galpones, now);
              r == if f.Failure? then Failure(f.error) else Success(H.Search(searchText, f.value.0, f.value.1, f.value.2))
      ensures upstream.log == old(upstream.log) + old(State()).Plan(Bluechips, Cedears, Galpones, now)
      ensures State() == old(State()).StepThree(Bluechips, Cedears, Galpones, now)
    {
      var all := FetchThree(Bluechips, Cedears, Galpones, now);
      if all.Failure? {
        return Failure(all.error);
      }
      var results := H.SearchSecurities(searchText, all.value.0, all.value.1, all.value.2);
      return Success(results);
    }

    method GetBluechip(symbol: string, now: int) returns (r: Result<Security, Error>)
      requires Valid()
      modifies cache, upstream
      ensures r == old(Lookup(Bluechips, "security", symbol, now))
      ensures upstream.log == old(upstream.log) + old(Misses(Bulk(Bluechips), now))
      ensures State() == old(State()).Step(Bluechips, now)
    {
      var all := GetCollection(Bluechips, now);
      if all.Failure? {
        return Failure(all.error);
      }
      r := H.FindSecurityInCollection(symbol, all.value);
    }

    method GetCedear(symbol: string, now: int) returns (r: Result<Security, Error>)
      requires Valid()
      modifies cache, upstream
      ensures r == old(Lookup(Cedears, "security", symbol, now))
      ensures upstream.log == old(upstream.log) + old(Misses(Bulk(Cedears), now))
      ensures State() == old(State()).Step(Cedears, now)
    {
      var all := GetCollection(Cedears, now);
      if all.Failure? {
        return Failure(all.error);
      }
      r := H.FindSecurityInCollection(symbol, all.value);
    }

    method GetGalpone(symbol: string, now: int) returns (r: Result<Security, Error>)
      requires Valid()
      modifies cache, upstream
      ensures r == old(Lookup(Galpones, "security", symbol, now))
      ensures upstream.log == old(upstream.log) + old(Misses(Bulk(Galpones), now))
      ensures State() == old(State()).Step(Galpones, now)
    {
      var all := GetCollection(Galpones, now);
      if all.Failure? {
        return Failure(all.error);
      }
      r := H.FindSecurityInCollection(symbol, all.value);
    }

    method GetOption(symbol: string, now: int) returns (r: Result<Record, Error>)
      requires Valid()
      modifies cache, upstream
      ensures r == old(Lookup(Options, "option", symbol, now))
      ensures upstream.log == old(upstream.log) + old(Misses(Bulk(Options), now))
      ensures State() == old(State()).Step(Options, now)
    {
      var all := GetCollection(Options, now);
      if all.Failure? {
        return Failure(all.error);
      }
      r := H.FindOptionBySymbol(symbol, all.value);
    }

    method GetFuture(symbol: string, now: int) returns (r: Result<Record, Error>)
      requires Valid()
      modifies cache, upstream
      ensures r == old(Lookup(Futures, "future", symbol, now))
      ensures upstream.log == old(upstream.log) + old(Misses(Bulk(Futures), now))
      ensures State() == old(State()).Step(Futures, now)
    {
      var all := GetCollection(Futures, now);
      if all.Failure? {
        return Failure(all.error);
      }
      r := H.FindFutureBySymbol(symbol, all.value);
    }

    /** GetCacheInfo: the cache's diagnostic map, or an empty map without a cache. */
    method GetCacheInfo(now: int) returns (info: map<string, C.SlotInfo>)
      ensures cache == null ==> info == map[]
      ensures info.Keys <= {"bluechips", "cedears", "galpones"}
      ensures cache != null ==> forall c :: C.IsSecurityCollection(c) ==>
                (C.InfoKey(c) in info <==> cache.SlotOf(c).Some?)
      ensures cache != null ==> forall c :: C.IsSecurityCollection(c) && cache.SlotOf(c).Some? ==>
                info[C.InfoKey(c)] == cache.Describe(cache.SlotOf(c).value, now)
                && (info[C.InfoKey(c)].isFresh <==> Hit(Bulk(c), now))
    {
      if cache != null {
        info := cache.GetInfo(now);
      } else {
        info := map[];
      }
    }

    /** ClearCache: afterwards every accessor goes to the upstream. */
    method ClearCache()
      modifies cache
      ensures cache != null ==> cache.IsEmpty() && State().cache == Some(C.EmptySnapshot(cache.duration))
      ensures forall e, t :: !Hit(e, t) && Served(e, t) == upstream.Next(e)
    {
      if cache != null {
        cache.Clear();
      }
    }
  }

  /** With all three collections fresh, a composite lookup makes no request and cannot fail. */
  lemma NoRequestWhenAllFresh(w: World, c1: Category, c2: Category, c3: Category, now: int)
    requires w.IsHit(Bulk(c1), now) && w.IsHit(Bulk(c2), now) && w.IsHit(Bulk(c3), now)
    ensures w.Plan(c1, c2, c3, now) == []
    ensures w.Collect(c1, c2, c3, now).Success?
  {
  }

  /**
   * GetSecurity for a symbol in none of the three collections fails with a
   * plain message, not with a *BYMAError such as INVALID_TICKER.
   */
  lemma {:induction false} SecurityNotFoundIsText(w: World, symbol: string, now: int)
    requires var f := w.Collect(Bluechips, Cedears, Galpones, now);
      f.Success? && forall x :: x in f.value.0 + f.value.1 + f.value.2 ==> x.symbol != symbol
    ensures var f := w.Collect(Bluechips, Cedears, Galpones, now);
      var r := H.FindFirstOf("security", symbol, f.value.0, f.value.1, f.value.2);
      r == Failure(Text("security " + symbol + " not found")) && !r.error.Byma?
  {
    var f := w.Collect(Bluechips, Cedears, Galpones, now);
    var all := f.value.0 + f.value.1 + f.value.2;
    H.FindFirstOfIsFindInConcat("security", symbol, f.value.0, f.value.1, f.value.2);
    assert forall i :: 0 <= i < |all| ==> all[i] in all;
    assert H.NotFound("security", symbol) == Text("security " + symbol + " not found") by {
      assert "security" + " " == "security ";
    }
  }

  /** With all three collections fresh, a composite lookup leaves the state as it was. */
  lemma AllFreshChangesNothing(w: World, c1: Category, c2: Category, c3: Category, now: int)
    requires w.IsHit(Bulk(c1), now) && w.IsHit(Bulk(c2), now) && w.IsHit(Bulk(c3), now)
    ensures w.StepThree(c1, c2, c3, now) == w
  {
  }

  /** When the first collection fails, only it was requested and its error is the answer. */
  lemma FirstErrorShortCircuits(w: World, c1: Category, c2: Category, c3: Category, now: int)
    requires w.Answer(Bulk(c1), now).Failure?
    ensures w.Plan(c1, c2, c3, now) == [Bulk(c1)]
    ensures w.Collect(c1, c2, c3, now) == Failure(w.Answer(Bulk(c1), now).error)
    ensures w.StepThree(c1, c2, c3, now) == w.Step(c1, now)
    ensures w.StepThree(c1, c2, c3, now).cache == w.cache
  {
  }

  /** Without a cache every accessor requests: a successful composite lookup makes all three requests. */
  lemma NilCacheAlwaysRequests(w: World, c1: Category, c2: Category, c3: Category, now: int)
    requires w.cache.None?
    requires w.Collect(c1, c2, c3, now).Success?
    ensures w.Plan(c1, c2, c3, now) == [Bulk(c1), Bulk(c2), Bulk(c3)]
  {
  }

  /**
   * Looking a CEDEAR up twice within five minutes: once the first call has
   * the collection, the second is answered from the cache, so at most one
   * request is made in all.
   */
  method RepeatedCedearLookups(cl: Client, s1: string, s2: string, now: int, later: int)
      returns (r1: Result<Security, Error>, r2: Result<Security, Error>)
    requires cl.Valid() && cl.cache != null
    requires now <= later < now + C.CacheDuration
    modifies cl.cache, cl.upstream
    ensures old(cl.Served(Bulk(Cedears), now)).Success? ==> |cl.upstream.log| <= |old(cl.upstream.log)| + 1
    ensures old(cl.Served(Bulk(Cedears), now)).Success? && !old(cl.Hit(Bulk(Cedears), now)) ==>
              r2 == H.FindIn("security", s2, old(cl.Served(Bulk(Cedears), now)).value)
  {
    ghost var w := cl.State();
    r1 := cl.GetCedear(s1, now);
    if w.Answer(Bulk(Cedears), now).Success? && !w.IsHit(Bulk(Cedears), now) {
      StepKeepsFresh(w, Cedears, now, later);
    }
    r2 := cl.GetCedear(s2, later);
  }

  /**
   * Two security lookups at the same instant: once the first has all three
   * collections, the second makes no request and searches the same ones.
   */
  method RepeatedSecurityLookups(cl: Client, s1: string, s2: string, now: int)
      returns (r1: Result<Security, Error>, r2: Result<Security, Error>)
    requires cl.Valid() && cl.cache != null
    modifies cl.cache, cl.upstream
    ensures var f := old(cl.State()).Collect(Bluechips, Cedears, Galpones, now);
      f.Success? ==>
        && cl.upstream.log == old(cl.upstream.log) + old(cl.State()).Plan(Bluechips, Cedears, Galpones, now)
        && r2 == H.FindFirstOf("security", s2, f.value.0, f.value.1, f.value.2)
  {
    ghost var w := cl.State();
    r1 := cl.GetSecurity(s1, now);
    if w.Collect(Bluechips, Cedears, Galpones, now).Success? {
      StepThreeFresh(w, Bluechips, Cedears, Galpones, now);
    }
    r2 := cl.GetSecurity(s2, now);
  }
}
