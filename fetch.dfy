/**
 * The data fetch hook: one fetch cycle loads a page of the list endpoint,
 * enriches every item with the image URLs of its matching form, keeps the
 * items that have a front image, and publishes the page. The network is an
 * `Api` value: a URL absent from it stands for a request that throws
 * (network error, bad JSON, or a response without the field the code reads).
 */
module Fetch {
  import opened Wrappers
  import opened Query

  /** A catalog record: string keys to strings; an absent key is `undefined`. */
  type Item = map<string, string>

  /** One entry of a detail response's `forms`. */
  datatype Form = Form(name: string, url: string)

  /** The four fields of a sprite response's `sprites`; None is JSON null. */
  datatype Sprites = Sprites(
    frontDefault: Option<string>,
    backDefault: Option<string>,
    frontShiny: Option<string>,
    backShiny: Option<string>)

  /**
   * A list response. `results` may be missing; a `next`/`previous` of None is
   * an empty string or null.
   */
  datatype ListResponse = ListResponse(results: Option<seq<Item>>, count: int, next: Option<Url>, previous: Option<Url>)

  /** The published page. */
  datatype PageData = PageData(results: seq<Item>, count: int, next: Option<Url>, previous: Option<Url>)

  /** What each endpoint answers: list pages, the `forms` of item URLs, the `sprites` of form URLs. */
  datatype Api = Api(lists: map<Url, ListResponse>, details: map<string, seq<Form>>, sprites: map<string, Sprites>)

  /** Which request of a cycle threw. */
  datatype FetchError = ListFailed(listUrl: Url) | DetailFailed(url: string) | SpritesFailed(url: string)

  /** The hook's initial page: no results, count 0, no links. */
  const EmptyPage := PageData([], 0, None, None)

  /** The value of a key of an item, None for `undefined`. */
  function Field(item: Item, key: string): Option<string>
  {
    if key in item then Some(item[key]) else None
  }

  /** JavaScript truthiness of an optional string: present and not "". */
  predicate Truthy(s: Option<string>)
  {
    s.Some? && s.value != ""
  }

  /** `x || undefined`: null and "" become absent. */
  function Normalize(s: Option<string>): (r: Option<string>)
    ensures Truthy(s) ==> r == s
    ensures !Truthy(s) ==> r.None?
  {
    if Truthy(s) then s else None
  }

  /** The four keys enrichment writes. */
  const PhotoKeys: set<string> := {"frontPhoto", "backPhoto", "frontShiny", "backShiny"}

  /** `{...item, key: v || undefined}` for one key; an `undefined` value reads as an absent key. */
  function Overlay(item: Item, key: string, v: Option<string>): Item
  {
    if Truthy(v) then item[key := v.value] else item - {key}
  }

  /**
   * The spread of `item` with the four photo keys taken from the sprites:
   * every other key keeps its value, and each photo key is present exactly
   * when its sprite field is a non-empty string.
   */
  function WithPhotos(item: Item, sp: Sprites): (r: Item)
    ensures forall k :: k !in PhotoKeys ==> Field(r, k) == Field(item, k)
    ensures Field(r, "frontPhoto") == Normalize(sp.frontDefault)
    ensures Field(r, "backPhoto") == Normalize(sp.backDefault)
    ensures Field(r, "frontShiny") == Normalize(sp.frontShiny)
    ensures Field(r, "backShiny") == Normalize(sp.backShiny)
  {
    var a := Overlay(item, "frontPhoto", sp.frontDefault);
    var b := Overlay(a, "backPhoto", sp.backDefault);
    var c := Overlay(b, "frontShiny", sp.frontShiny);
    Overlay(c, "backShiny", sp.backShiny)
  }

  /** `forms.find(el => el.name === name)` as an index: the first form called `name`. */
  function FirstForm(forms: seq<Form>, name: string): (r: Option<nat>)
    ensures r.None? ==> forall j :: 0 <= j < |forms| ==> forms[j].name != name
    ensures r.Some? ==> (r.value < |forms| && forms[r.value].name == name
                         && forall j :: 0 <= j < r.value ==> forms[j].name != name)
  {
    if forms == [] then None
    else if forms[0].name == name then Some(0)
    else match FirstForm(forms[1..], name)
      case None => None
      case Some(i) => Some(i + 1)
  }

  /** The form that matches the item's `name`; an item without a name matches none. */
  function MatchingForm(forms: seq<Form>, item: Item): Option<nat>
  {
    if "name" in item then FirstForm(forms, item["name"]) else None
  }

  /** The item's `url` is truthy. */
  predicate HasUrl(item: Item)
  {
    Truthy(Field(item, "url"))
  }

  /**
   * `getAllPokemonsWithPhotos`: follows the item's URL to its forms, and the
   * first form with the item's name to its sprites.
   */
  function Enrich(item: Item, api: Api): (r: Result<Item, FetchError>)
    // no URL: unchanged, and nothing is fetched
    ensures !HasUrl(item) ==> r == Ok(item)
    // the detail request throws
    ensures HasUrl(item) && item["url"] !in api.details ==> r == Err(DetailFailed(item["url"]))
    // no form carries the item's name: unchanged
    ensures HasUrl(item) && item["url"] in api.details
      && (forall j :: 0 <= j < |api.details[item["url"]]| ==> Field(item, "name") != Some(api.details[item["url"]][j].name))
      ==> r == Ok(item)
    // the first form carrying the item's name is the one whose sprites are used
    ensures forall i ::
              (HasUrl(item) && item["url"] in api.details
               && 0 <= i < |api.details[item["url"]]| && Field(item, "name") == Some(api.details[item["url"]][i].name)
               && (forall j :: 0 <= j < i ==> Field(item, "name") != Some(api.details[item["url"]][j].name)))
              ==> r == (var u := api.details[item["url"]][i].url;
                        if u in api.sprites then Ok(WithPhotos(item, api.sprites[u])) else Err(SpritesFailed(u)))
  {
    if HasUrl(item) then
      var u := item["url"];
      if u !in api.details then Err(DetailFailed(u))
      else
        var forms := api.details[u];
        match MatchingForm(forms, item)
        case None => Ok(item)
        case Some(i) =>
          var fu := forms[i].url;
          if fu in api.sprites then Ok(WithPhotos(item, api.sprites[fu])) else Err(SpritesFailed(fu))
    else Ok(item)
  }

  /**
   * `Promise.all(results.map(getAllPokemonsWithPhotos))`: succeeds when every
   * item does, with the enriched items in input order.
   */
  function EnrichAll(items: seq<Item>, api: Api): (r: Result<seq<Item>, FetchError>)
    ensures r.Ok? <==> forall i :: 0 <= i < |items| ==> Enrich(items[i], api).Ok?
    ensures r.Ok? ==> |r.value| == |items| && forall i :: 0 <= i < |items| ==> r.value[i] == Enrich(items[i], api).value
  {
    if items == [] then Ok([])
    else match Enrich(items[0], api)
      case Err(e) => Err(e)
      case Ok(x) =>
        match EnrichAll(items[1..], api)
        case Err(e) => Err(e)
        case Ok(xs) => Ok([x] + xs)
  }

  /** The filter's test, `el.frontPhoto` truthy. */
  predicate HasFrontPhoto(item: Item)
  {
    Truthy(Field(item, "frontPhoto"))
  }

  /** `filter(el => el.frontPhoto)`. */
  function KeepWithFrontPhoto(items: seq<Item>): (r: seq<Item>)
    ensures |r| <= |items|
    ensures forall x :: x in r <==> x in items && HasFrontPhoto(x)
  {
    if items == [] then []
    else if HasFrontPhoto(items[0]) then [items[0]] + KeepWithFrontPhoto(items[1..])
    else KeepWithFrontPhoto(items[1..])
  }

  /** The filter keeps order: filtering a concatenation concatenates the filtered parts. */
  lemma {:induction false} KeepDistributes(a: seq<Item>, b: seq<Item>)
    ensures KeepWithFrontPhoto(a + b) == KeepWithFrontPhoto(a) + KeepWithFrontPhoto(b)
  {
    if a != [] {
      assert (a + b)[0] == a[0];
      assert (a + b)[1..] == a[1..] + b;
      KeepDistributes(a[1..], b);
      if HasFrontPhoto(a[0]) {
        assert [a[0]] + (KeepWithFrontPhoto(a[1..]) + KeepWithFrontPhoto(b))
            == ([a[0]] + KeepWithFrontPhoto(a[1..])) + KeepWithFrontPhoto(b);
      }
    } else {
      assert a + b == b;
    }
  }

  /** An item list that already passes the filter is published as it is. */
  lemma {:induction false} KeepAllPass(items: seq<Item>)
    requires forall i :: 0 <= i < |items| ==> HasFrontPhoto(items[i])
    ensures KeepWithFrontPhoto(items) == items
  {
    if items != [] {
      KeepAllPass(items[1..]);
    }
  }

  /** The filter leaves nothing of a list in which no item has a front image. */
  lemma {:induction false} KeepNonePass(items: seq<Item>)
    requires forall i :: 0 <= i < |items| ==> !HasFrontPhoto(items[i])
    ensures KeepWithFrontPhoto(items) == []
  {
    if items != [] {
      KeepNonePass(items[1..]);
    }
  }

  /** `const { results = [] } = response`. */
  function ResultsOf(resp: ListResponse): seq<Item>
  {
    resp.results.GetOr([])
  }

  /**
   * One fetch cycle without its state changes: the page to publish, or the
   * error that the cycle swallows.
   */
  function FetchCycle(url: Url, api: Api): (r: Result<PageData, FetchError>)
    ensures url !in api.lists ==> r == Err(ListFailed(url))
    ensures url in api.lists ==>
      (r.Ok? <==> EnrichAll(ResultsOf(api.lists[url]), api).Ok?)
    ensures r.Ok? ==> (url in api.lists
                       && r.value.count == api.lists[url].count
                       && r.value.next == api.lists[url].next
                       && r.value.previous == api.lists[url].previous
                       && r.value.results == KeepWithFrontPhoto(EnrichAll(ResultsOf(api.lists[url]), api).value))
    ensures r.Ok? ==> forall i :: 0 <= i < |r.value.results| ==> HasFrontPhoto(r.value.results[i])
  {
    if url !in api.lists then Err(ListFailed(url))
    else
      var resp := api.lists[url];
      match EnrichAll(ResultsOf(resp), api)
      case Err(e) => Err(e)
      case Ok(enriched) => Ok(PageData(KeepWithFrontPhoto(enriched), resp.count, resp.next, resp.previous))
  }

  /** A list response without `results` publishes an empty page with its own count and links. */
  lemma MissingResultsIsEmpty(url: Url, api: Api)
    requires url in api.lists && api.lists[url].results.None?
    ensures FetchCycle(url, api) == Ok(PageData([], api.lists[url].count, api.lists[url].next, api.lists[url].previous))
  {
  }

  /**
   * An item appears in the published page exactly when it is the enrichment
   * of a listed item and has a front image.
   */
  lemma PublishedExactly(url: Url, api: Api, x: Item)
    requires FetchCycle(url, api).Ok?
    ensures x in FetchCycle(url, api).value.results <==>
      HasFrontPhoto(x) && exists i :: 0 <= i < |ResultsOf(api.lists[url])| && Enrich(ResultsOf(api.lists[url])[i], api) == Ok(x)
  {
    var items := ResultsOf(api.lists[url]);
    var enriched := EnrichAll(items, api).value;
    if x in enriched {
      var i :| 0 <= i < |enriched| && enriched[i] == x;
      assert Enrich(items[i], api) == Ok(x);
    }
    if exists i :: 0 <= i < |items| && Enrich(items[i], api) == Ok(x) {
      var i :| 0 <= i < |items| && Enrich(items[i], api) == Ok(x);
      assert enriched[i] == x;
    }
  }

  /**
   * The hook's state: the published page and the busy flag. Its invariant is
   * that every published item has a front image.
   */
  class FetchHook {
    var pokemonsData: PageData
    var isLoading: bool

    ghost predicate Valid()
      reads this
    {
      forall i :: 0 <= i < |pokemonsData.results| ==> HasFrontPhoto(pokemonsData.results[i])
    }

    constructor ()
      ensures Valid() && pokemonsData == EmptyPage && !isLoading
    {
      pokemonsData := EmptyPage;
      isLoading := false;
    }

    /** The start of a cycle: `setIsLoading(true)`. */
    method Begin()
      requires Valid()
      modifies this
      ensures Valid() && isLoading && pokemonsData == old(pokemonsData)
    {
      isLoading := true;
    }

    /**
     * The rest of a cycle for `fetchUrl`: on success the page is replaced,
     * on failure it is kept; in both cases the busy flag is cleared.
     */
    method Complete(fetchUrl: Url, api: Api)
      requires Valid()
      modifies this
      ensures Valid() && !isLoading
      ensures FetchCycle(fetchUrl, api).Ok? ==> pokemonsData == FetchCycle(fetchUrl, api).value
      ensures FetchCycle(fetchUrl, api).Err? ==> pokemonsData == old(pokemonsData)
    {
      var outcome := FetchCycle(fetchUrl, api);
      if outcome.Ok? {
        pokemonsData := outcome.value;
      }
      isLoading := false;
    }

    /** A whole cycle, as the effect runs it whenever `fetchUrl` changes. */
    method Run(fetchUrl: Url, api: Api)
      requires Valid()
      modifies this
      ensures Valid() && !isLoading
      ensures FetchCycle(fetchUrl, api).Ok? ==> pokemonsData == FetchCycle(fetchUrl, api).value
      ensures FetchCycle(fetchUrl, api).Err? ==> pokemonsData == old(pokemonsData)
    {
      Begin();
      Complete(fetchUrl, api);
    }
  }
}
