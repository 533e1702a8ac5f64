/**
 * `GameService`'s external lookups with the module-level state they share
 * (`lastExternalCall`, `searchCache`) made into fields of one object, and the
 * clock and the provider's replies made explicit. Every method is proved to
 * do exactly what the matching function of `Provider` describes, and to keep
 * the spacing guarantee `Provider.Spaced`.
 */
module GameService {
  import opened Wrappers
  import opened BggXml
  import opened RateGate
  import opened SearchCache
  import opened Provider
  import opened ProviderProps
  import opened FacadeProps

  class Service {
    /** `Date.now()`. */
    var now: int
    /** `lastExternalCall`. */
    var lastCall: int
    /** `searchCache`. */
    var cache: Cache
    /** The replies the provider will give to the next outbound calls, in order. */
    var network: seq<Reply>
    /** Every outbound call made so far. */
    ghost var calls: seq<Call>

    ghost function State(): Env
      reads this
    {
      Env(now, lastCall, cache, network, calls)
    }

    ghost predicate Valid()
      reads this
    {
      Spaced(State())
    }

    /** A process that starts at time `clock` with no call made yet (`lastExternalCall = 0`) and an empty cache. */
    constructor (clock: int, replies: seq<Reply>)
      requires clock >= 0
      ensures Valid() && State() == Env(clock, 0, map[], replies, [])
    {
      now, lastCall, cache, network, calls := clock, 0, map[], replies, [];
    }

    /** Time passing between operations. */
    method Elapse(ms: nat)
      requires Valid()
      modifies this`now
      ensures Valid() && now == old(now) + ms
    {
      LaterStaysSpaced(State(), now + ms);
      now := now + ms;
    }

    /** `waitBetweenCalls`: sleeps until `MinIntervalMs` have passed since `lastExternalCall`. */
    method WaitBetweenCalls()
      modifies this`now
      ensures now == ReadyAt(old(now), lastCall)
      ensures now - lastCall >= MinIntervalMs
      ensures old(now) - lastCall >= MinIntervalMs ==> now == old(now)
    {
      var delta := now - lastCall;
      if delta < MinIntervalMs {
        now := now + (MinIntervalMs - delta);
      }
    }

    /** One outbound call through the gate; `lastExternalCall` is refreshed when an answer comes back. */
    method CallProvider(host: Host, p: Params) returns (rep: Reply)
      requires Valid()
      modifies this
      ensures Valid()
      ensures (rep, State()) == Send(old(State()), host, p)
    {
      ghost var e := State();
      ghost var sent := Send(e, host, p);
      SendSpaced(e, host, p);
      WaitBetweenCalls();
      var start := now;
      rep := if network == [] then NetworkError(0) else network[0];
      assert rep == sent.0;
      network := if network == [] then [] else network[1..];
      now := now + rep.elapsed;
      calls := calls + [Call(host, p, start, now, rep.Answer?)];
      if rep.Answer? {
        lastCall := now;
      }
      assert State() == sent.1;
    }

    /** The retrying `fetchXML` of `searchExternal`: up to four attempts on one host. */
    method FetchWithRetry(host: Host, p: Params) returns (f: Fetch)
      requires Valid()
      modifies this
      ensures Valid()
      ensures (f, State()) == Retry(old(State()), host, p, 0)
    {
      var i := 0;
      while i < MaxAttempts
        invariant 0 <= i <= MaxAttempts
        invariant Valid()
        invariant Retry(old(State()), host, p, 0) == Retry(State(), host, p, i)
      {
        ghost var before := State();
        var rep := CallProvider(host, p);
        if rep.NetworkError? {
          assert Retry(before, host, p, i) == (Threw, State());
          return Threw;
        }
        if rep.status == 200 && rep.body.Some? && rep.body.value.items.Some? {
          assert Retry(before, host, p, i) == (Parsed(rep.body.value), State());
          return Parsed(rep.body.value);
        }
        if rep.status == 401 || rep.status == 403 {
          assert Retry(before, host, p, i) == (NoData, State());
          return NoData;
        }
        RetryUnfoldsOnBusy(before, host, p, i);
        now := now + Backoff(i);
        assert State() == AfterBusy(before, host, p, i);
        i := i + 1;
      }
      return NoData;
    }

    /** The primary host, then the mirror when the primary gave `null`, each with the full retry budget. */
    method FetchWithFallback(p: Params) returns (f: Fetch)
      requires Valid()
      modifies this
      ensures Valid()
      ensures (f, State()) == Fallback(old(State()), p)
    {
      f := FetchWithRetry(Bgg, p);
      if f.NoData? {
        f := FetchWithRetry(Geekdo, p);
      }
    }

    /** The single-attempt `fetchXML` of `searchExternalFast` and `fetchBggThing`. */
    method FetchOnce(host: Host, p: Params) returns (f: Fetch)
      requires Valid()
      modifies this
      ensures Valid()
      ensures (f, State()) == Once(old(State()), host, p)
    {
      var rep := CallProvider(host, p);
      if rep.NetworkError? {
        return Threw;
      }
      if rep.status != 200 || rep.body.None? {
        return NoData;
      }
      return Parsed(rep.body.value);
    }

    method FetchOnceWithFallback(p: Params) returns (f: Fetch)
      requires Valid()
      modifies this
      ensures Valid()
      ensures (f, State()) == OnceWithFallback(old(State()), p)
    {
      f := FetchOnce(Bgg, p);
      if f.NoData? {
        f := FetchOnce(Geekdo, p);
      }
    }

    /** `GameService.searchExternalFast`. */
    method SearchExternalFast(query: string) returns (r: Outcome<seq<Game>>)
      requires Valid()
      modifies this
      ensures Valid()
      ensures (r, State()) == SearchFast(old(State()), query)
    {
      SearchFastSpaced(State(), query);
      var key := FastKey(query);
      var cached := Lookup(cache, key, now);
      if cached.Some? {
        return Done(cached.value);
      }
      var xml := FetchOnceWithFallback(SearchParams(query, false));
      if xml.Threw? {
        return Rejected;
      }
      var results := FastGames(ItemList(Body(xml)));
      if |results| > 0 {
        cache := cache[key := Entry(now, results)];
      }
      return Done(results);
    }

    /** `GameService.searchExternal`; every failure ends in the empty list. */
    method SearchExternal(query: string) returns (games: seq<Game>)
      requires Valid()
      modifies this
      ensures Valid()
      ensures (games, State()) == Search(old(State()), query)
    {
      SearchSpaced(State(), query);
      var key := Key(query);
      var cached := Lookup(cache, key, now);
      if cached.Some? {
        return cached.value;
      }
      var searchJson1 := FetchWithFallback(SearchParams(query, false));
      if searchJson1.Threw? {
        return [];
      }
      var ids := Ids(ItemList(Body(searchJson1)));
      if ids == [] {
        var searchJson2 := FetchWithFallback(SearchParams(query, true));
        if searchJson2.Threw? {
          return [];
        }
        ids := Ids(ItemList(Body(searchJson2)));
      }
      if ids == [] {
        return [];
      }
      var thingJson := FetchWithFallback(ThingBatch(ids));
      if !thingJson.Parsed? {
        return [];
      }
      var results := DetailedGames(ItemList(Body(thingJson)));
      if |results| > 0 {
        cache := cache[key := Entry(now, results)];
      }
      return results;
    }

    /** `GameService.fetchBggThing`: uncached, one attempt per host. */
    method FetchBggThing(externalId: string) returns (r: Outcome<Option<Detail>>)
      requires Valid()
      modifies this
      ensures Valid()
      ensures (r, State()) == FetchThing(old(State()), externalId)
    {
      FetchThingFacts(State(), externalId);
      var xml := FetchOnceWithFallback(ThingById(externalId));
      if xml.Threw? {
        return Rejected;
      }
      var item := FirstItem(Body(xml));
      if item.None? {
        return Done(None);
      }
      return Done(Some(ItemDetail(item.value)));
    }
  }
}
