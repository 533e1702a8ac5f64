/**
 * The parsed XML answers of the BoardGameGeek XML API v2 (as the XML parser
 * hands them over, attributes under their own names) and the normalisers that
 * turn them into game records (server/src/services/game.service.ts).
 */
module BggXml {
  import opened Wrappers
  import opened JsText

  /** At most this many search hits are looked at (`slice(0, 25)`). */
  const MaxResults := 25

  /** An element that carries its datum in a `value` attribute, e.g. `<minplayers value="2"/>`. */
  datatype ValueEl = ValueEl(value: Option<string>)

  /** One `<name type=".." value=".."/>` element. */
  datatype NameEl = NameEl(kind: Option<string>, value: Option<string>)

  /** What `item.name` holds: nothing, bare text, one element or a list of them. */
  datatype NameField = Absent | Text(text: string) | One(el: NameEl) | Several(els: seq<NameEl>)

  /** One `<item>`; a field is None when the element (or, for `id`, the attribute) is missing. */
  datatype Item = Item(
    id: Option<string>,
    name: NameField,
    yearPublished: Option<ValueEl>,
    minPlayers: Option<ValueEl>,
    maxPlayers: Option<ValueEl>,
    playingTime: Option<ValueEl>,
    thumbnail: Option<string>,
    image: Option<string>)

  /** What `items.item` holds: nothing, a single item (the parser does not wrap it) or a list. */
  datatype ItemField = NoItem | Single(item: Item) | Many(items: seq<Item>)

  /** A parsed document; `items` is None when there is no `<items>` root. */
  datatype Doc = Doc(items: Option<ItemField>)

  /** A game record as the search operations return it. */
  datatype Game = Game(
    name: string,
    externalId: string,
    apiSource: string,
    minPlayers: Option<int>,
    maxPlayers: Option<int>,
    averageDuration: Option<int>,
    thumbnailUrl: Option<string>,
    yearPublished: Option<int>)

  /** The record `fetchBggThing` returns for one id. */
  datatype Detail = Detail(
    name: Option<string>,
    minPlayers: Option<int>,
    maxPlayers: Option<int>,
    averageDuration: Option<int>,
    thumbnailUrl: Option<string>)

  function Min(a: int, b: int): int {
    if a <= b then a else b
  }

  /** `xml?.items?.item ?? []` followed by `Array.isArray(items) ? items : [items]`. */
  function ItemList(doc: Option<Doc>): (list: seq<Item>)
    ensures doc.Some? && doc.value.items.Some? && doc.value.items.value.Single? ==> list == [doc.value.items.value.item]
    ensures doc.Some? && doc.value.items.Some? && doc.value.items.value.Many? ==> list == doc.value.items.value.items
    ensures doc.None? || doc.value.items.None? || doc.value.items == Some(NoItem) ==> list == []
  {
    match doc
    case None => []
    case Some(d) =>
      match d.items
      case None => []
      case Some(NoItem) => []
      case Some(Single(it)) => [it]
      case Some(Many(its)) => its
  }

  /** `Number(it['@_id'])` kept only when finite; a missing attribute is NaN. */
  function ParseId(it: Item): Option<int> {
    match it.id
    case None => None
    case Some(s) => ParseNum(s)
  }

  /** `.map(id).filter(Number.isFinite)`: the finite ids, in the items' order. */
  function FiniteIds(items: seq<Item>): (ids: seq<int>)
    ensures |ids| <= |items|
    ensures forall n :: n in ids <==> exists j :: 0 <= j < |items| && ParseId(items[j]) == Some(n)
  {
    if items == [] then []
    else
      var rest := FiniteIds(items[1..]);
      assert forall j :: 0 < j < |items| ==> items[j] == items[1..][j - 1];
      match ParseId(items[0])
      case None => rest
      case Some(n) => [n] + rest
  }

  /** The ids `searchExternal` asks details for: those of the first 25 hits that parse. */
  function Ids(list: seq<Item>): (ids: seq<int>)
    ensures |ids| <= MaxResults
    ensures forall n :: n in ids <==> exists j :: 0 <= j < Min(|list|, MaxResults) && ParseId(list[j]) == Some(n)
  {
    var head := list[..Min(|list|, MaxResults)];
    assert forall j :: 0 <= j < |head| ==> head[j] == list[j];
    FiniteIds(head)
  }

  /** The first name element tagged `primary` (`find(n => n['@_type'] === 'primary')`). */
  function FindPrimary(els: seq<NameEl>): (k: Option<nat>)
    ensures k.Some? ==> k.value < |els| && els[k.value].kind == Some("primary")
    ensures k.Some? ==> forall j :: 0 <= j < k.value ==> els[j].kind != Some("primary")
    ensures k.None? ==> forall j :: 0 <= j < |els| ==> els[j].kind != Some("primary")
  {
    if els == [] then None
    else if els[0].kind == Some("primary") then Some(0)
    else
      match FindPrimary(els[1..])
      case None => None
      case Some(k) => Some(k + 1)
  }

  /**
   * The name a record gets before any default (lines 180-181 and 239-240):
   * with a list, the primary entry or else the first; an element gives its
   * `value` attribute (None when it has none); bare text is taken as is; a
   * missing field or an empty list gives "".
   */
  function NameValue(f: NameField): Option<string> {
    match f
    case Absent => Some("")
    case Text(s) => Some(s)
    case One(el) => el.value
    case Several(els) =>
      match FindPrimary(els)
      case Some(k) => els[k].value
      case None => if els == [] then Some("") else els[0].value
  }

  /** `name || 'Untitled'`. */
  function DisplayName(n: Option<string>): (r: string)
    ensures r != ""
    ensures r == "Untitled" || n == Some(r)
    ensures n.None? || n == Some("") ==> r == "Untitled"
    ensures n.Some? && n.value != "" ==> r == n.value
  {
    match n
    case Some(s) => if s == "" then "Untitled" else s
    case None => "Untitled"
  }

  /** `t.f ? Number(t.f['@_value']) : null` kept only when finite. */
  function NumberField(f: Option<ValueEl>): Option<int> {
    match f
    case None => None
    case Some(el) =>
      match el.value
      case None => None
      case Some(s) => ParseNum(s)
  }

  /** `thumbnail` when it is a string, else `image` when it is a string, else nothing. */
  function Picture(it: Item): Option<string> {
    if it.thumbnail.Some? then it.thumbnail else it.image
  }

  /** One `thing` item as a detailed search result (lines 179-194). */
  function DetailedGame(it: Item): Game {
    Game(
      DisplayName(NameValue(it.name)),
      it.id.GetOr("undefined"),
      "bgg",
      NumberField(it.minPlayers),
      NumberField(it.maxPlayers),
      NumberField(it.playingTime),
      Picture(it),
      None)
  }

  /** Every `thing` item is mapped, in order; the list is not truncated here. */
  function DetailedGames(list: seq<Item>): seq<Game> {
    seq(|list|, k requires 0 <= k < |list| => DetailedGame(list[k]))
  }

  /** The fast path's name: the `value` attribute of a single name element, else "". */
  function FastName(f: NameField): string {
    match f
    case One(el) => el.value.GetOr("")
    case _ => ""
  }

  /** `Number(yearpublished['@_value']) || null`: a missing, unparsable or zero year is null. */
  function FastYear(f: Option<ValueEl>): Option<int> {
    if f.Some? && f.value.value.Some? then
      match ParseNum(f.value.value.value)
      case Some(n) => if n != 0 then Some(n) else None
      case None => None
    else None
  }

  /** One search hit as a fast result (lines 74-84). */
  function FastGame(it: Item): Game {
    Game(FastName(it.name), it.id.GetOr("undefined"), "bgg-search", None, None, None, None, FastYear(it.yearPublished))
  }

  /** The first 25 search hits as fast results, in order. */
  function FastGames(list: seq<Item>): seq<Game> {
    seq(Min(|list|, MaxResults), k requires 0 <= k < Min(|list|, MaxResults) => FastGame(list[k]))
  }

  /** `Array.isArray(item) ? item[0] : item`, with `!item` read as "no item" (line 237-238). */
  function FirstItem(doc: Option<Doc>): (r: Option<Item>)
    ensures r.Some? <==> |ItemList(doc)| > 0
    ensures r.Some? ==> r.value == ItemList(doc)[0]
  {
    var list := ItemList(doc);
    if list == [] then None else Some(list[0])
  }

  /** One `thing` item as `fetchBggThing` reports it (lines 239-253). */
  function ItemDetail(it: Item): Detail {
    Detail(NameValue(it.name), NumberField(it.minPlayers), NumberField(it.maxPlayers), NumberField(it.playingTime), Picture(it))
  }

  // ---------------------------------------------------------------------
  // Properties of the normalisers

  /** A single item is read as a list of one; a list is read as it is. */
  lemma SingleItemIsListOfOne(it: Item)
    ensures ItemList(Some(Doc(Some(Single(it))))) == [it]
    ensures FirstItem(Some(Doc(Some(Single(it))))) == Some(it)
  {
  }

  /** The name prefers the first entry tagged primary, whatever its position. */
  lemma {:induction false} PrimaryNamePreferred(els: seq<NameEl>, k: nat)
    requires k < |els| && els[k].kind == Some("primary")
    requires forall j :: 0 <= j < k ==> els[j].kind != Some("primary")
    ensures NameValue(Several(els)) == els[k].value
    ensures els[k].value.Some? && els[k].value.value != "" ==> DetailedGame(Item(None, Several(els), None, None, None, None, None, None)).name == els[k].value.value
  {
    var found := FindPrimary(els);
    assert found.Some?;
    assert found.value == k;
  }

  /** Without a primary entry the first name is taken. */
  lemma FirstNameWithoutPrimary(els: seq<NameEl>)
    requires |els| > 0
    requires forall j :: 0 <= j < |els| ==> els[j].kind != Some("primary")
    ensures NameValue(Several(els)) == els[0].value
  {
  }

  /** A numeric field that is missing, has no value attribute or does not parse is null, never 0. */
  lemma NumberFieldNull(f: Option<ValueEl>)
    ensures NumberField(f).Some? <==> f.Some? && f.value.value.Some? && ParseNum(f.value.value.value).Some?
    ensures NumberField(f).Some? ==> NumberField(f) == ParseNum(f.value.value.value)
  {
  }

  /** Detailed records: name never empty, numbers only from parseable fields, nothing dropped or reordered. */
  lemma DetailedGamesShape(list: seq<Item>)
    ensures |DetailedGames(list)| == |list|
    ensures forall k :: 0 <= k < |list| ==>
      var g := DetailedGames(list)[k];
      && g.name != ""
      && g.apiSource == "bgg"
      && g.minPlayers == NumberField(list[k].minPlayers)
      && g.maxPlayers == NumberField(list[k].maxPlayers)
      && g.averageDuration == NumberField(list[k].playingTime)
      && (g.name == "Untitled" || NameValue(list[k].name) == Some(g.name))
      && (NameValue(list[k].name).Some? && NameValue(list[k].name).value != "" ==> NameValue(list[k].name) == Some(g.name))
      && g.externalId == list[k].id.GetOr("undefined")
      && g.thumbnailUrl == Picture(list[k])
      && (list[k].thumbnail.Some? ==> g.thumbnailUrl == list[k].thumbnail)
      && (list[k].thumbnail.None? ==> g.thumbnailUrl == list[k].image)
  {
  }

  /** Fast records: at most 25, the first hits in order, no player counts or duration, year null or non-zero. */
  lemma FastGamesShape(list: seq<Item>)
    ensures |FastGames(list)| == Min(|list|, MaxResults) <= MaxResults
    ensures forall k :: 0 <= k < |FastGames(list)| ==>
      var g := FastGames(list)[k];
      && g.externalId == list[k].id.GetOr("undefined")
      && g.apiSource == "bgg-search"
      && g.minPlayers.None? && g.maxPlayers.None? && g.averageDuration.None?
      && (g.yearPublished.None? || g.yearPublished.value != 0)
      && g.name == FastName(list[k].name)
      && g.yearPublished == FastYear(list[k].yearPublished)
  {
  }

  /** A year of "0" reads as null, not 0; any other integer year is kept. */
  lemma FastYearZeroIsNull(n: nat)
    ensures FastYear(Some(ValueEl(Some(DecimalString(n))))) == if n == 0 then None else Some(n)
    ensures FastYear(Some(ValueEl(Some("-" + DecimalString(n))))) == if n == 0 then None else Some(-(n as int))
  {
    ParseNumDecimal(n);
  }

  /** The fast name is the `value` of a single name element, and "" for a missing value, bare text or several elements. */
  lemma FastNameCases(f: NameField)
    ensures f.One? && f.el.value.Some? ==> FastName(f) == f.el.value.value
    ensures f.One? && f.el.value.None? ==> FastName(f) == ""
    ensures !f.One? ==> FastName(f) == ""
  {
  }

  /**
   * The fast year is null exactly when the element or its `value` is missing,
   * the value does not parse, or it parses to 0; otherwise it is the parsed year.
   */
  lemma FastYearNull(f: Option<ValueEl>)
    ensures FastYear(f).Some? <==>
      f.Some? && f.value.value.Some? && ParseNum(f.value.value.value).Some? && ParseNum(f.value.value.value).value != 0
    ensures FastYear(f).Some? ==> FastYear(f) == ParseNum(f.value.value.value)
  {
  }

  /**
   * A single-id lookup and a batch lookup read an item the same way, except
   * that the single-id lookup keeps an empty or missing name where the batch
   * substitutes 'Untitled'.
   */
  lemma DetailMatchesBatch(it: Item)
    ensures DetailedGame(it).name == DisplayName(ItemDetail(it).name)
    ensures DetailedGame(it).minPlayers == ItemDetail(it).minPlayers
    ensures DetailedGame(it).maxPlayers == ItemDetail(it).maxPlayers
    ensures DetailedGame(it).averageDuration == ItemDetail(it).averageDuration
    ensures DetailedGame(it).thumbnailUrl == ItemDetail(it).thumbnailUrl
  {
  }

  lemma DetailKeepsEmptyName()
    ensures var it := Item(Some("13"), One(NameEl(Some("primary"), Some(""))), None, None, None, None, None, None);
      ItemDetail(it).name == Some("") && DetailedGame(it).name == "Untitled"
  {
  }

  // ---------------------------------------------------------------------
  // The id list as a sequence

  /** `.map(id).filter(Number.isFinite)` over one item: its id when it parses, nothing otherwise. */
  lemma FiniteIdsOne(it: Item)
    ensures FiniteIds([it]) == if ParseId(it).Some? then [ParseId(it).value] else []
  {
    assert [it][1..] == [];
  }

  /**
   * Ids of a concatenation are the ids of each part, in order, with
   * duplicates kept; with `FiniteIdsOne` this fixes the whole sequence.
   */
  lemma {:induction false} FiniteIdsAppend(a: seq<Item>, b: seq<Item>)
    ensures FiniteIds(a + b) == FiniteIds(a) + FiniteIds(b)
    decreases |a|
  {
    if a == [] {
      assert a + b == b;
    } else {
      assert (a + b)[1..] == a[1..] + b;
      FiniteIdsAppend(a[1..], b);
    }
  }

  /** Only the first 25 hits are read: a list of at most 25 keeps all its ids, and hits after the 25th are ignored. */
  lemma IdsOfFirst25(a: seq<Item>, b: seq<Item>)
    ensures |a| <= MaxResults ==> Ids(a) == FiniteIds(a)
    ensures |a| >= MaxResults ==> Ids(a + b) == Ids(a)
  {
    if |a| <= MaxResults {
      assert a[..|a|] == a;
    }
    if |a| >= MaxResults {
      assert (a + b)[..MaxResults] == a[..MaxResults];
    }
  }
}
