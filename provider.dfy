/**
 * What the lookup client does, as functions of an explicit environment: the
 * clock, the gate timestamp, the cache, the replies the provider will give
 * (one per outbound call, in order) and the log of calls made so far.
 * The methods of `GameService.Service` are proved to behave exactly as these
 * functions say; the lemmas below state what the functions guarantee.
 */
module Provider {
  import opened Wrappers
  import opened BggXml
  import opened RateGate
  import opened SearchCache

  /** The two hosts that serve the same XML API: boardgamegeek.com and api.geekdo.com. */
  datatype Host = Bgg | Geekdo

  /** The query string of one request. */
  datatype Params =
    | SearchParams(query: string, exact: bool)  // search?query=..&type=boardgame[&exact=1]
    | ThingBatch(ids: seq<int>)                 // thing?id=<ids joined with ','>&stats=1
    | ThingById(id: string)                     // thing?id=<externalId>&stats=1

  /**
   * What one outbound call yields after `elapsed` ms: an HTTP answer, whose
   * body is None when it is not a string or the XML parser throws on it, or a
   * network error thrown by the HTTP client (timeout, refused connection).
   */
  datatype Reply = Answer(elapsed: nat, status: int, body: Option<Doc>) | NetworkError(elapsed: nat)

  /** The record of one outbound call: where it went, when it started and ended, and whether an answer came back. */
  datatype Call = Call(host: Host, params: Params, start: int, end: int, answered: bool)

  /**
   * The client's world: `now` is the clock, `last` is `lastExternalCall`,
   * `net` the replies still to come, `calls` every call made so far.
   */
  datatype Env = Env(now: int, last: int, cache: Cache, net: seq<Reply>, calls: seq<Call>)

  /** What a `fetchXML` helper returns: a parsed document, `null`, or the error it let escape. */
  datatype Fetch = Parsed(doc: Doc) | NoData | Threw

  /** The settled promise of an operation that lets network errors escape. */
  datatype Outcome<T> = Done(value: T) | Rejected

  /** `maxAttempts` of the retrying `fetchXML`. */
  const MaxAttempts: nat := 4

  /** The next reply; once the scripted replies run out, every call fails at once. */
  function Peek(net: seq<Reply>): Reply {
    if net == [] then NetworkError(0) else net[0]
  }

  function Drop(net: seq<Reply>, n: nat): seq<Reply> {
    if n >= |net| then [] else net[n..]
  }

  function Body(f: Fetch): Option<Doc> {
    if f.Parsed? then Some(f.doc) else None
  }

  /**
   * One outbound call: `waitBetweenCalls`, the request, then
   * `lastExternalCall = Date.now()`, which is skipped when the request throws.
   */
  function Send(e: Env, host: Host, p: Params): (Reply, Env) {
    var start := ReadyAt(e.now, e.last);
    var rep := Peek(e.net);
    var end := start + rep.elapsed;
    (rep, e.(now := end, last := if rep.Answer? then end else e.last, net := Drop(e.net, 1),
             calls := e.calls + [Call(host, p, start, end, rep.Answer?)]))
  }

  /** A 200 answer whose string body parsed to a document with an `items` root. */
  predicate Accepted(rep: Reply) {
    rep.Answer? && rep.status == 200 && rep.body.Some? && rep.body.value.items.Some?
  }

  /** A 401 or 403 answer. */
  predicate Refused(rep: Reply) {
    rep.Answer? && (rep.status == 401 || rep.status == 403)
  }

  /** An answer the retrying loop waits out (202, 5xx, a 200 it cannot use, ...). */
  predicate Busy(rep: Reply) {
    rep.Answer? && !Accepted(rep) && !Refused(rep)
  }

  /** The retrying `fetchXML` of `searchExternal`, from attempt `i` on (lines 106-137). */
  function Retry(e: Env, host: Host, p: Params, i: nat): (Fetch, Env)
    decreases MaxAttempts - i
  {
    if i >= MaxAttempts then (NoData, e)
    else
      var (rep, e1) := Send(e, host, p);
      if rep.NetworkError? then (Threw, e1)
      else if Accepted(rep) then (Parsed(rep.body.value), e1)
      else if Refused(rep) then (NoData, e1)
      else Retry(e1.(now := e1.now + Backoff(i)), host, p, i + 1)
  }

  /** The primary host with the full retry budget, then, only on `null`, the mirror with a fresh one. */
  function Fallback(e: Env, p: Params): (Fetch, Env) {
    var (f, e1) := Retry(e, Bgg, p, 0);
    if f.NoData? then Retry(e1, Geekdo, p, 0) else (f, e1)
  }

  /** The single-attempt `fetchXML` of the fast search and of `fetchBggThing`: any 200 answer that parsed. */
  function Once(e: Env, host: Host, p: Params): (Fetch, Env) {
    var (rep, e1) := Send(e, host, p);
    if rep.NetworkError? then (Threw, e1)
    else if rep.status == 200 && rep.body.Some? then (Parsed(rep.body.value), e1)
    else (NoData, e1)
  }

  /** One attempt on the primary host, then one on the mirror when the first gave `null`. */
  function OnceWithFallback(e: Env, p: Params): (Fetch, Env) {
    var (f, e1) := Once(e, Bgg, p);
    if f.NoData? then Once(e1, Geekdo, p) else (f, e1)
  }

  /** `GameService.searchExternalFast` (lines 41-87). */
  function SearchFast(e: Env, query: string): (Outcome<seq<Game>>, Env) {
    var key := FastKey(query);
    var hit := Lookup(e.cache, key, e.now);
    if hit.Some? then (Done(hit.value), e)
    else
      var (f, e1) := OnceWithFallback(e, SearchParams(query, false));
      if f.Threw? then (Rejected, e1)
      else
        var games := FastGames(ItemList(Body(f)));
        (Done(games), e1.(cache := Store(e1.cache, key, e1.now, games)))
  }

  /** `GameService.searchExternal` (lines 89-208). */
  function Search(e: Env, query: string): (seq<Game>, Env) {
    var key := Key(query);
    var hit := Lookup(e.cache, key, e.now);
    if hit.Some? then (hit.value, e)
    else
      var (f1, e1) := Fallback(e, SearchParams(query, false));
      if f1.Threw? then ([], e1)
      else
        var (f2, e2) := if Ids(ItemList(Body(f1))) == [] then Fallback(e1, SearchParams(query, true)) else (f1, e1);
        if f2.Threw? then ([], e2)
        else
          var ids := Ids(ItemList(Body(f2)));
          if ids == [] then ([], e2)
          else
            var (f3, e3) := Fallback(e2, ThingBatch(ids));
            if !f3.Parsed? then ([], e3)
            else
              var games := DetailedGames(ItemList(Body(f3)));
              (games, e3.(cache := Store(e3.cache, key, e3.now, games)))
  }

  /** `GameService.fetchBggThing` (lines 211-254). */
  function FetchThing(e: Env, externalId: string): (Outcome<Option<Detail>>, Env) {
    var (f, e1) := OnceWithFallback(e, ThingById(externalId));
    if f.Threw? then (Rejected, e1)
    else
      match FirstItem(Body(f))
      case None => (Done(None), e1)
      case Some(it) => (Done(Some(ItemDetail(it))), e1)
  }

  /**
   * The gate's guarantee over a whole history: the clock has reached every
   * recorded time, `last` is no earlier than the end of any answered call, and
   * every call starts at least `MinIntervalMs` after the end of every earlier
   * call that got an answer.
   */
  predicate Spaced(e: Env) {
    && e.last <= e.now
    && (forall k :: 0 <= k < |e.calls| ==> e.calls[k].start <= e.calls[k].end <= e.now)
    && (forall k :: 0 <= k < |e.calls| && e.calls[k].answered ==> e.calls[k].end <= e.last)
    && (forall j, k :: 0 <= j < k < |e.calls| && e.calls[j].answered ==> e.calls[k].start - e.calls[j].end >= MinIntervalMs)
  }

  /** `e2` continues `e1` without touching the cache: later clock, more calls, replies consumed one per call. */
  predicate Extends(e1: Env, e2: Env) {
    && e2.cache == e1.cache
    && e1.now <= e2.now
    && e1.calls <= e2.calls
    && e2.net == Drop(e1.net, |e2.calls| - |e1.calls|)
  }

  /** Every call made between `e1` and `e2` went to one of `hosts` with parameters `p`. */
  predicate CallsTo(e1: Env, e2: Env, hosts: set<Host>, p: Params)
    requires |e1.calls| <= |e2.calls|
  {
    forall k :: |e1.calls| <= k < |e2.calls| ==> e2.calls[k].host in hosts && e2.calls[k].params == p
  }
}
