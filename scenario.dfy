/*
 * A worked search for "Catan" through the model: the search endpoint
 * answers with one hit, the `thing` endpoint with its details, and the
 * second identical search is served from the cache without a request.
 * The fixtures are built with `DecimalString` so that the number parsing
 * is proved once for every id rather than unfolded on literals.
 */
module Scenario {
  import opened Wrappers
  import opened JsText
  import opened BggXml
  import opened Provider
  import opened ProviderProps
  import opened FacadeProps
  import opened GameService

  function CatanHit(): Item { HitItem(13) }

  function CatanThing(): Item { ThingItem(13, 3, 4, 90) }

  function CatanGame(): Game {
    Game("Catan", DecimalString(13), "bgg", Some(3), Some(4), Some(90), None, None)
  }

  /** A search hit with the given id and a primary name. */
  function HitItem(id: nat): Item {
    Item(Some(DecimalString(id)), One(NameEl(Some("primary"), Some("Catan"))), None, None, None, None, None, None)
  }

  /** A single hit yields exactly its id. */
  lemma IdsOfOne(id: nat)
    ensures Ids([HitItem(id)]) == [id]
  {
    ParseNumDecimal(id);
    var l := [HitItem(id)];
    assert l[..Min(|l|, MaxResults)] == l;
    assert l[1..] == [];
    assert FiniteIds(l) == [id];
  }

  /** A `thing` item with the given id, player counts and playing time. */
  function ThingItem(id: nat, lo: nat, hi: nat, dur: nat): Item {
    Item(Some(DecimalString(id)), Several([NameEl(Some("primary"), Some("Catan"))]), None,
         Some(ValueEl(Some(DecimalString(lo)))), Some(ValueEl(Some(DecimalString(hi)))), Some(ValueEl(Some(DecimalString(dur)))), None, None)
  }

  /** A `thing` item normalises to a detailed game with its numbers parsed. */
  lemma DetailOfThing(id: nat, lo: nat, hi: nat, dur: nat)
    ensures DetailedGame(ThingItem(id, lo, hi, dur)) == Game("Catan", DecimalString(id), "bgg", Some(lo), Some(hi), Some(dur), None, None)
  {
    NumberFieldOfDecimal(lo);
    NumberFieldOfDecimal(hi);
    NumberFieldOfDecimal(dur);
    assert NameValue(ThingItem(id, lo, hi, dur).name) == Some("Catan") by {
      assert FindPrimary([NameEl(Some("primary"), Some("Catan"))]) == Some(0);
    }
  }

  /** A numeric field holding a decimal rendering reads back as that number. */
  lemma NumberFieldOfDecimal(n: nat)
    ensures NumberField(Some(ValueEl(Some(DecimalString(n))))) == Some(n)
  {
    ParseNumDecimal(n);
  }

  lemma CatanIds()
    ensures Ids([CatanHit()]) == [13]
  {
    IdsOfOne(13);
  }

  lemma CatanDetailed()
    ensures DetailedGame(CatanThing()) == CatanGame()
  {
    DetailOfThing(13, 3, 4, 90);
  }

  lemma CatanNormalised()
    ensures Ids([CatanHit()]) == [13]
    ensures DetailedGames([CatanThing()]) == [CatanGame()]
  {
    CatanIds();
    CatanDetailed();
  }

  /** A cold-cache search for "Catan" takes two requests and yields one game. */
  lemma CatanSearch(e: Env)
    requires e.cache == map[] && |e.net| == 2
    requires e.net[0] == Answer(300, 200, Some(Doc(Some(Single(CatanHit())))))
    requires e.net[1] == Answer(400, 200, Some(Doc(Some(Single(CatanThing())))))
    ensures Search(e, "Catan").0 == [CatanGame()]
    ensures |Search(e, "Catan").1.calls| == |e.calls| + 2
  {
    CatanNormalised();
    var p1 := SearchParams("Catan", false);
    RetryStopsOnSuccess(e, Bgg, p1, 0);
    var e1 := Send(e, Bgg, p1).1;
    assert Fallback(e, p1) == (Parsed(Doc(Some(Single(CatanHit())))), e1);
    assert ItemList(Some(Doc(Some(Single(CatanHit()))))) == [CatanHit()];
    assert AfterIds(e, "Catan") == Fallback(e, p1);
    var p2 := ThingBatch([13]);
    RetryStopsOnSuccess(e1, Bgg, p2, 0);
    var e2 := Send(e1, Bgg, p2).1;
    assert Fallback(e1, p2) == (Parsed(Doc(Some(Single(CatanThing())))), e2);
    assert ItemList(Some(Doc(Some(Single(CatanThing()))))) == [CatanThing()];
    SearchUnfold(e, "Catan");
  }

  /** Two searches in a row on a fresh service: the second one is a cache hit. */
  method CatanScenario() returns (first: seq<Game>, second: seq<Game>, ghost requests: nat)
    ensures first == [CatanGame()] && second == first
    ensures requests == 2
  {
    var s := new Service(1_700_000_000_000, [Answer(300, 200, Some(Doc(Some(Single(CatanHit()))))), Answer(400, 200, Some(Doc(Some(Single(CatanThing())))))]);
    var e := s.State();
    CatanSearch(e);
    SearchTwiceWithinTtl(e, "Catan", "Catan", Search(e, "Catan").1.now);
    first := s.SearchExternal("Catan");
    second := s.SearchExternal("Catan");
    requests := |s.calls|;
  }
}
