/** What the three public lookup operations guarantee. */
module FacadeProps {
  import opened Wrappers
  import opened BggXml
  import opened SearchCache
  import opened Provider
  import opened ProviderProps

  // ---------------------------------------------------------------------
  // searchExternalFast

  /** A fresh fast-cache entry is returned as stored, without any outbound call or change of state. */
  lemma SearchFastHit(e: Env, q: string)
    requires Lookup(e.cache, FastKey(q), e.now).Some?
    ensures SearchFast(e, q) == (Done(e.cache[FastKey(q)].items), e)
  {
  }

  /**
   * On a miss the fast search makes one call, or two when the primary host
   * gave `null`, never retries, returns at most 25 minimal records, and
   * caches them under the `fast:` key only when there are some.
   */
  lemma SearchFastMiss(e: Env, q: string)
    requires Lookup(e.cache, FastKey(q), e.now).None?
    ensures var (r, e1) := SearchFast(e, q);
      && Extends(e, e1.(cache := e.cache))
      && 1 <= |e1.calls| - |e.calls| <= 2
      && CallsTo(e, e1, {Bgg, Geekdo}, SearchParams(q, false))
      && (r.Done? ==> e1.cache == Store(e.cache, FastKey(q), e1.now, r.value))
      && (r.Rejected? ==> e1.cache == e.cache)
      && (r.Done? ==> |r.value| <= MaxResults)
      && (r.Done? ==> forall g :: g in r.value ==>
            g.apiSource == "bgg-search" && g.minPlayers.None? && g.maxPlayers.None? && g.averageDuration.None?)
  {
    var (f, e1) := OnceWithFallback(e, SearchParams(q, false));
    OnceWithFallbackFacts(e, SearchParams(q, false));
    FastGamesShape(ItemList(Body(f)));
  }

  lemma SearchFastSpaced(e: Env, q: string)
    requires Spaced(e)
    ensures Spaced(SearchFast(e, q).1)
  {
    OnceWithFallbackFacts(e, SearchParams(q, false));
  }

  // ---------------------------------------------------------------------
  // searchExternal

  /** A fresh cache entry is returned as stored, without any outbound call or change of state. */
  lemma SearchHit(e: Env, q: string)
    requires Lookup(e.cache, Key(q), e.now).Some?
    ensures Search(e, q) == (e.cache[Key(q)].items, e)
  {
  }

  /** The environment after the search steps of a miss, before the `thing` fetch. */
  function AfterIds(e: Env, q: string): (Fetch, Env) {
    var (f1, e1) := Fallback(e, SearchParams(q, false));
    if f1.Threw? || Ids(ItemList(Body(f1))) != [] then (f1, e1)
    else Fallback(e1, SearchParams(q, true))
  }

  lemma SearchUnfold(e: Env, q: string)
    requires Lookup(e.cache, Key(q), e.now).None?
    ensures var (f2, e2) := AfterIds(e, q);
      var ids := Ids(ItemList(Body(f2)));
      Search(e, q) ==
        if f2.Threw? || ids == [] then ([], e2)
        else
          var (f3, e3) := Fallback(e2, ThingBatch(ids));
          if !f3.Parsed? then ([], e3)
          else (DetailedGames(ItemList(Body(f3))), e3.(cache := Store(e3.cache, Key(q), e3.now, DetailedGames(ItemList(Body(f3))))))
  {
  }

  /**
   * The search steps: one retried-and-fallen-back search, and the exact-match
   * search only when the first one ended without throwing and without ids.
   */
  lemma AfterIdsFacts(e: Env, q: string)
    ensures var (f2, e2) := AfterIds(e, q);
      var (f1, e1) := Fallback(e, SearchParams(q, false));
      && Extends(e, e2)
      && 1 <= |e2.calls| - |e.calls| <= 4 * MaxAttempts
      && (f1.Threw? || Ids(ItemList(Body(f1))) != [] ==> e2 == e1 && CallsTo(e, e2, {Bgg, Geekdo}, SearchParams(q, false)))
      && (!f1.Threw? && Ids(ItemList(Body(f1))) == [] ==>
            |e2.calls| > |e1.calls| && e2.calls[|e1.calls|].params == SearchParams(q, true))
      && (Spaced(e) ==> Spaced(e2))
  {
    var (f1, e1) := Fallback(e, SearchParams(q, false));
    FallbackFacts(e, SearchParams(q, false));
    if !f1.Threw? && Ids(ItemList(Body(f1))) == [] {
      FallbackFacts(e1, SearchParams(q, true));
      ExtendsTrans(e, e1, Fallback(e1, SearchParams(q, true)).1);
    }
  }

  /**
   * On a miss the detailed search makes at most three fallback steps (search,
   * exact search, thing), so at most 24 calls, and the cache ends up holding
   * the result under the query's key when it is non-empty and is otherwise
   * untouched.
   */
  lemma SearchMiss(e: Env, q: string)
    requires Lookup(e.cache, Key(q), e.now).None?
    ensures var (r, e1) := Search(e, q);
      && Extends(e, e1.(cache := e.cache))
      && 1 <= |e1.calls| - |e.calls| <= 6 * MaxAttempts
      && e1.cache == Store(e.cache, Key(q), e1.now, r)
  {
    SearchUnfold(e, q);
    AfterIdsFacts(e, q);
    var (f2, e2) := AfterIds(e, q);
    var ids := Ids(ItemList(Body(f2)));
    if !f2.Threw? && ids != [] {
      FallbackFacts(e2, ThingBatch(ids));
      var e3 := Fallback(e2, ThingBatch(ids)).1;
      ExtendsTrans(e, e2, e3);
    }
  }

  /** Every `thing` request of a detailed search carries between 1 and 25 ids. */
  lemma SearchThingIdsBounded(e: Env, q: string)
    requires Lookup(e.cache, Key(q), e.now).None?
    ensures var e1 := Search(e, q).1;
      forall k :: |e.calls| <= k < |e1.calls| && e1.calls[k].params.ThingBatch? ==>
        0 < |e1.calls[k].params.ids| <= MaxResults
  {
    SearchUnfold(e, q);
    AfterIdsFacts(e, q);
    var (f1, e1) := Fallback(e, SearchParams(q, false));
    FallbackFacts(e, SearchParams(q, false));
    var (f2, e2) := AfterIds(e, q);
    if !f1.Threw? && Ids(ItemList(Body(f1))) == [] {
      FallbackFacts(e1, SearchParams(q, true));
    }
    assert forall k :: |e.calls| <= k < |e2.calls| ==> !e2.calls[k].params.ThingBatch?;
    var ids := Ids(ItemList(Body(f2)));
    if !f2.Threw? && ids != [] {
      FallbackFacts(e2, ThingBatch(ids));
      var e3 := Fallback(e2, ThingBatch(ids)).1;
      assert forall k :: |e.calls| <= k < |e2.calls| ==> e3.calls[k] == e2.calls[k];
    }
  }

  lemma SearchSpaced(e: Env, q: string)
    requires Spaced(e)
    ensures Spaced(Search(e, q).1)
  {
    if Lookup(e.cache, Key(q), e.now).None? {
      SearchUnfold(e, q);
      AfterIdsFacts(e, q);
      var (f2, e2) := AfterIds(e, q);
      var ids := Ids(ItemList(Body(f2)));
      if !f2.Threw? && ids != [] {
        FallbackFacts(e2, ThingBatch(ids));
      }
    }
  }

  /** When the first search yields ids, no exact-match search is ever sent. */
  lemma SearchExactOnlyWithoutIds(e: Env, q: string)
    requires Lookup(e.cache, Key(q), e.now).None?
    requires var f1 := Fallback(e, SearchParams(q, false)).0; !f1.Threw? && Ids(ItemList(Body(f1))) != []
    ensures var e1 := Search(e, q).1;
      forall k :: |e.calls| <= k < |e1.calls| ==> e1.calls[k].params != SearchParams(q, true)
  {
    SearchUnfold(e, q);
    AfterIdsFacts(e, q);
    var (f2, e2) := AfterIds(e, q);
    var ids := Ids(ItemList(Body(f2)));
    FallbackFacts(e2, ThingBatch(ids));
    var e3 := Fallback(e2, ThingBatch(ids)).1;
    assert forall k :: |e.calls| <= k < |e2.calls| ==> e3.calls[k] == e2.calls[k];
  }

  /** A detailed search whose search steps threw or found no ids returns the empty list and caches nothing. */
  lemma SearchEmptyOnFailure(e: Env, q: string)
    requires Lookup(e.cache, Key(q), e.now).None?
    requires var (f2, e2) := AfterIds(e, q); f2.Threw? || Ids(ItemList(Body(f2))) == []
    ensures Search(e, q) == ([], AfterIds(e, q).1)
    ensures Search(e, q).1.cache == e.cache
  {
    SearchUnfold(e, q);
    AfterIdsFacts(e, q);
  }

  /** A detailed search whose batched `thing` fetch threw or gave null returns the empty list and caches nothing. */
  lemma SearchEmptyOnThingFailure(e: Env, q: string)
    requires Lookup(e.cache, Key(q), e.now).None?
    requires var (f2, e2) := AfterIds(e, q);
      var ids := Ids(ItemList(Body(f2)));
      !f2.Threw? && ids != [] && !Fallback(e2, ThingBatch(ids)).0.Parsed?
    ensures var (f2, e2) := AfterIds(e, q);
      Search(e, q) == ([], Fallback(e2, ThingBatch(Ids(ItemList(Body(f2))))).1)
    ensures Search(e, q).1.cache == e.cache
  {
    SearchUnfold(e, q);
    AfterIdsFacts(e, q);
    var (f2, e2) := AfterIds(e, q);
    FallbackFacts(e2, ThingBatch(Ids(ItemList(Body(f2)))));
  }

  /**
   * A non-empty detailed result is served again, identically and without any
   * call, to any query with the same key (the same query in another case or
   * with other surrounding white space) before 15 minutes have passed.
   */
  lemma SearchTwiceWithinTtl(e: Env, q: string, q': string, t: int)
    requires Lookup(e.cache, Key(q), e.now).None? && Key(q') == Key(q)
    requires var (r, e1) := Search(e, q); r != [] && e1.now <= t < e1.now + CacheTtlMs
    ensures var (r, e1) := Search(e, q);
      Search(e1.(now := t), q') == (r, e1.(now := t))
  {
    SearchMiss(e, q);
  }

  // ---------------------------------------------------------------------
  // fetchBggThing

  /**
   * The single-id lookup never reads or writes the cache, makes one call or
   * two, and reports `null` when the answer holds no item.
   */
  lemma FetchThingFacts(e: Env, id: string)
    ensures var (r, e1) := FetchThing(e, id);
      var (f, _) := OnceWithFallback(e, ThingById(id));
      && Extends(e, e1)
      && 1 <= |e1.calls| - |e.calls| <= 2
      && CallsTo(e, e1, {Bgg, Geekdo}, ThingById(id))
      && (r.Rejected? <==> f.Threw?)
      && (r.Done? ==> (r.value.None? <==> FirstItem(Body(f)).None?))
      && (r.Done? && r.value.Some? ==> r.value.value == ItemDetail(FirstItem(Body(f)).value))
      && (Spaced(e) ==> Spaced(e1))
  {
    OnceWithFallbackFacts(e, ThingById(id));
  }
}
