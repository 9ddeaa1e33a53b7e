/**
 * The page controller: the fetch URL is the one place that says which page
 * and how many items per page are shown. Page size and page number are
 * derived from its `limit` and `offset`; the buttons and the page-size input
 * change it, and each change starts a fetch cycle.
 */
module Page {
  import opened Wrappers
  import opened Query
  import opened Fetch
  import JsNumber
  import Debounce

  /** The list query the page starts with: five items from offset 0. */
  const DefaultUrl := Url("https://pokeapi.co/api/v2/pokemon", [Param("limit", "5"), Param("offset", "0")])

  /** `getParamsCount`: the first value of the parameter, or "0" when there is none. */
  function GetParamsCount(url: Url, param: string): (r: string)
    ensures (forall i :: 0 <= i < |url.query| ==> url.query[i].name != param) ==> r == "0"
    ensures forall i :: IsFirst(url.query, param, i) ==> r == url.query[i].value
  {
    var got := GetParam(url.query, param);
    assert forall i, j :: IsFirst(url.query, param, i) && IsFirst(url.query, param, j) ==> i == j;
    got.GetOr("0")
  }

  /**
   * The `pageNumber` memo before `String`: `Math.ceil(offset / limit)`, with
   * Infinity, NaN and either zero all shown as 0.
   */
  function PageNumberValue(url: Url): (r: JsNumber.Number)
    ensures r != JsNumber.NaN && r != JsNumber.PosInfinity && r != JsNumber.NegZero
  {
    var offset := JsNumber.ToNumber(GetParamsCount(url, "offset"));
    var limit := JsNumber.ToNumber(GetParamsCount(url, "limit"));
    var result := JsNumber.CeilQuotient(offset, limit);
    if result == JsNumber.PosInfinity || !JsNumber.Truthy(result) then JsNumber.Finite(0) else result
  }

  /** The page number as the page shows it: never "NaN" or "Infinity". */
  function PageNumber(url: Url): (r: string)
    ensures r != "NaN" && r != "Infinity"
  {
    var n := PageNumberValue(url);
    var s := JsNumber.ToString(n);
    assert |s| > 0 && s[0] != 'N' && s[0] != 'I' by {
      if n.Finite? && n.v >= 0 {
        assert JsNumber.IsDigit(s[0]);
      }
    }
    s
  }

  /**
   * With a limit `Number` reads as L > 0 and an offset it reads as a
   * natural O ("05", "+5" and "5" alike), the page number is ceil(O / L),
   * and the label reads back as that number.
   */
  lemma PageNumberIsCeiling(url: Url, offset: nat, limit: nat)
    requires limit > 0
    requires JsNumber.ToNumber(GetParamsCount(url, "offset")) == JsNumber.Finite(offset)
    requires JsNumber.ToNumber(GetParamsCount(url, "limit")) == JsNumber.Finite(limit)
    ensures PageNumberValue(url) == JsNumber.Finite(JsNumber.CeilDiv(offset, limit))
    ensures JsNumber.ToNumber(PageNumber(url)) == JsNumber.Finite(JsNumber.CeilDiv(offset, limit))
  {
    JsNumber.StringThenNumber(JsNumber.CeilDiv(offset, limit));
  }

  /** A page size typed with a leading zero, "05", over offset "10" is page 2. */
  lemma LeadingZeroLimit()
    ensures PageNumber(Url("", [Param("limit", "05"), Param("offset", "10")])) == "2"
  {
    var url := Url("", [Param("limit", "05"), Param("offset", "10")]);
    assert IsFirst(url.query, "limit", 0);
    assert IsFirst(url.query, "offset", 1);
    assert JsNumber.DigitsValue("05") == 5 by {
      assert "05"[..1] == "0" && "0"[..0] == "";
    }
    assert JsNumber.DigitsValue("10") == 10 by {
      assert "10"[..1] == "1" && "1"[..0] == "";
    }
    PageNumberIsCeiling(url, 10, 5);
    assert JsNumber.CeilDiv(10, 5) == 2;
    assert JsNumber.ToString(JsNumber.Finite(2)) == "2";
  }

  /**
   * A limit of 0 (written "0", "", or missing altogether) gives page 0,
   * never Infinity or NaN, whatever non-negative offset there is, 0 included.
   */
  lemma ZeroLimitIsPageZero(url: Url)
    requires JsNumber.ToNumber(GetParamsCount(url, "limit")) == JsNumber.Finite(0)
    requires !JsNumber.ToNumber(GetParamsCount(url, "offset")).Finite? || JsNumber.ToNumber(GetParamsCount(url, "offset")).v >= 0
    ensures PageNumberValue(url) == JsNumber.Finite(0) && PageNumber(url) == "0"
  {
  }

  /** A URL without `limit` reads as limit "0". */
  lemma MissingLimitIsZero(url: Url)
    requires forall i :: 0 <= i < |url.query| ==> url.query[i].name != "limit"
    ensures JsNumber.ToNumber(GetParamsCount(url, "limit")) == JsNumber.Finite(0)
  {
    assert JsNumber.AllDigits("0") && JsNumber.DigitsValue("0") == 0;
  }

  /** The guard misses -Infinity: limit 0 with a negative offset shows "-Infinity". */
  lemma NegativeOffsetZeroLimit()
    ensures PageNumber(Url("", [Param("limit", "0"), Param("offset", "-5")])) == "-Infinity"
  {
    var url := Url("", [Param("limit", "0"), Param("offset", "-5")]);
    assert IsFirst(url.query, "offset", 1);
    assert IsFirst(url.query, "limit", 0);
    var o := "-5";
    assert !JsNumber.IsDigit(o[0]);
    assert o[1..] == "5";
    assert JsNumber.DigitsValue("5") == 5 by {
      assert "5"[..0] == "";
    }
    assert JsNumber.ToNumber("-5") == JsNumber.Finite(-5);
    assert JsNumber.DigitsValue("0") == 0 by {
      assert "0"[..0] == "";
    }
  }

  /**
   * A page size typed as "-0" is negative zero: over offset 5 (after one
   * "Next") the page shows "-Infinity", and over offset "-5" it shows "0".
   */
  lemma NegativeZeroLimit()
    ensures PageNumber(Url("", [Param("limit", "-0"), Param("offset", "5")])) == "-Infinity"
    ensures PageNumber(Url("", [Param("limit", "-0"), Param("offset", "-5")])) == "0"
  {
    var u := Url("", [Param("limit", "-0"), Param("offset", "5")]);
    var w := Url("", [Param("limit", "-0"), Param("offset", "-5")]);
    assert IsFirst(u.query, "limit", 0) && IsFirst(u.query, "offset", 1);
    assert IsFirst(w.query, "limit", 0) && IsFirst(w.query, "offset", 1);
    JsNumber.SignedZeroDivisor();
    assert JsNumber.DigitsValue("5") == 5 by {
      assert "5"[..0] == "";
    }
    var o := "-5";
    assert !JsNumber.IsDigit(o[0]) && o[1..] == "5";
    assert JsNumber.ToNumber("-5") == JsNumber.Finite(-5);
  }

  /** The first page of the default query is page 0 of five items. */
  lemma DefaultPage()
    ensures GetParamsCount(DefaultUrl, "limit") == "5"
    ensures PageNumber(DefaultUrl) == "0"
  {
    assert IsFirst(DefaultUrl.query, "limit", 0);
    assert IsFirst(DefaultUrl.query, "offset", 1);
    assert JsNumber.DigitsValue("0") == 0 by {
      assert "0"[..0] == "";
    }
    assert JsNumber.DigitsValue("5") == 5 by {
      assert "5"[..0] == "";
    }
  }

  /**
   * The URL `changeLimitHandler(value)` produces: `limit` reads back as
   * `value`, every other parameter and the part before the query stay.
   */
  function ChangedLimit(url: Url, value: string): (r: Url)
    ensures r.location == url.location
    ensures GetParamsCount(r, "limit") == value
    ensures forall p :: p != "limit" ==> GetParamsCount(r, p) == GetParamsCount(url, p)
    ensures Without(r.query, "limit") == Without(url.query, "limit")
    ensures forall i :: IsFirst(url.query, "limit", i) ==>
              r.query == url.query[..i] + [Param("limit", value)] + Without(url.query[i + 1..], "limit")
  {
    var q := SetParam(url.query, "limit", value);
    forall i | IsFirst(url.query, "limit", i)
      ensures q == url.query[..i] + [Param("limit", value)] + Without(url.query[i + 1..], "limit")
    {
      SetInPlace(url.query, "limit", value, i);
    }
    SetThenGet(url.query, "limit", value);
    SetKeepsOthers(url.query, "limit", value);
    assert forall p :: p != "limit" ==> GetParam(q, p) == GetParam(url.query, p) by {
      forall p | p != "limit" ensures GetParam(q, p) == GetParam(url.query, p) {
        SetGetOther(url.query, "limit", value, p);
      }
    }
    Url(url.location, q)
  }

  /** Changing the default page size keeps `limit` first: the query becomes limit=10, offset=0. */
  lemma DefaultLimitInPlace()
    ensures ChangedLimit(DefaultUrl, "10").query == [Param("limit", "10"), Param("offset", "0")]
  {
    assert IsFirst(DefaultUrl.query, "limit", 0);
    assert DefaultUrl.query[1..] == [Param("offset", "0")];
    assert Without([Param("offset", "0")], "limit") == [Param("offset", "0")] by {
      assert [Param("offset", "0")][1..] == [];
    }
  }

  /** Committing the same page size twice gives the same URL, so no second fetch starts. */
  lemma ChangedLimitIdempotent(url: Url, value: string)
    ensures ChangedLimit(ChangedLimit(url, value), value) == ChangedLimit(url, value)
  {
    SetIdempotent(url.query, "limit", value);
  }

  /**
   * After committing any typed value that `Number` reads as L > 0, the page
   * number is ceil(offset / L) for the offset kept.
   */
  lemma ChangedLimitPage(url: Url, value: string, offset: nat, limit: nat)
    requires limit > 0
    requires JsNumber.ToNumber(value) == JsNumber.Finite(limit)
    requires JsNumber.ToNumber(GetParamsCount(url, "offset")) == JsNumber.Finite(offset)
    ensures PageNumberValue(ChangedLimit(url, value)) == JsNumber.Finite(JsNumber.CeilDiv(offset, limit))
  {
    PageNumberIsCeiling(ChangedLimit(url, value), offset, limit);
  }

  /**
   * Typing "1" then "10" into the page-size input, starting as it mounts
   * with "5", and pausing 600: the only value delivered is "10", 500 after
   * the last keystroke, and the URL it produces has limit "10" and the
   * offset it had.
   */
  lemma PageSizeEditScenario()
    ensures var ks := [Debounce.Keystroke(0, "1"), Debounce.Keystroke(100, "10")];
            var r := Debounce.Run(Debounce.Mount("5", None, 0), Debounce.Typing(ks) + [Debounce.Elapsed(600)]);
            && r.delivered == [Debounce.Delivery("10", 600)]
            && GetParamsCount(ChangedLimit(DefaultUrl, "10"), "limit") == "10"
            && GetParamsCount(ChangedLimit(DefaultUrl, "10"), "offset") == GetParamsCount(DefaultUrl, "offset")
  {
    var ks := [Debounce.Keystroke(0, "1"), Debounce.Keystroke(100, "10")];
    var s := Debounce.Mount("5", None, 0);
    Debounce.MountArmed("5", None, 0);
    assert ks[1..] == [Debounce.Keystroke(100, "10")] && ks[1..][1..] == [];
    assert Debounce.EachChanges("5", ks);
    assert Debounce.Final("5", ks) == "10";
    assert Debounce.TotalPause(ks) == 100;
    Debounce.DebouncedOnce(s, ks, 600);
  }

  /** The page's state: the fetch URL, the running total, the shiny flag, and its fetch hook. */
  class PageController {
    var fetchUrl: Url
    var count: int
    var isShiny: bool
    /** The fetched count the count effect saw last (its dependency). */
    var seenCount: int
    const hook: FetchHook

    /** The hook's invariant, and the count effect has seen the count now published. */
    ghost predicate Valid()
      reads this, hook
    {
      hook.Valid() && seenCount == hook.pokemonsData.count
    }

    /** The first render. */
    constructor ()
      ensures Valid() && fresh(hook)
      ensures fetchUrl == DefaultUrl && count == 0 && !isShiny
      ensures hook.pokemonsData == EmptyPage && !hook.isLoading && seenCount == 0
    {
      fetchUrl := DefaultUrl;
      count := 0;
      isShiny := false;
      seenCount := 0;
      hook := new FetchHook();
    }

    /** `countPokemonsOnPage`: the page size shown in the input. */
    function PageSize(): string
      reads this
    {
      GetParamsCount(fetchUrl, "limit")
    }

    /** The page number label. */
    function CurrentPage(): string
      reads this
    {
      PageNumber(fetchUrl)
    }

    predicate PrevDisabled()
      reads this, hook
    {
      hook.pokemonsData.previous.None? || hook.isLoading
    }

    predicate NextDisabled()
      reads this, hook
    {
      hook.pokemonsData.next.None? || hook.isLoading
    }

    predicate ShinyDisabled()
      reads this, hook
    {
      hook.isLoading
    }

    /** The fetch effect starts a cycle for the current URL. */
    method StartFetch()
      requires Valid()
      modifies hook
      ensures Valid() && hook.isLoading && hook.pokemonsData == old(hook.pokemonsData)
    {
      hook.Begin();
    }

    /** The cycle ends; then the count effect runs if the fetched count changed. */
    method FinishFetch(api: Api)
      requires Valid()
      modifies this, hook
      ensures Valid() && !hook.isLoading
      ensures FetchCycle(old(fetchUrl), api).Ok? ==> hook.pokemonsData == FetchCycle(old(fetchUrl), api).value
      ensures FetchCycle(old(fetchUrl), api).Err? ==> hook.pokemonsData == old(hook.pokemonsData)
      ensures fetchUrl == old(fetchUrl) && isShiny == old(isShiny)
      ensures CountAfter(old(count), old(seenCount), hook.pokemonsData.count)
      ensures seenCount == hook.pokemonsData.count
    {
      hook.Complete(fetchUrl, api);
      SyncCount();
    }

    /** A whole cycle for the current URL. */
    method Refresh(api: Api)
      requires Valid()
      modifies this, hook
      ensures Valid() && !hook.isLoading
      ensures FetchCycle(old(fetchUrl), api).Ok? ==> hook.pokemonsData == FetchCycle(old(fetchUrl), api).value
      ensures FetchCycle(old(fetchUrl), api).Err? ==> hook.pokemonsData == old(hook.pokemonsData)
      ensures fetchUrl == old(fetchUrl) && isShiny == old(isShiny)
      ensures CountAfter(old(count), old(seenCount), hook.pokemonsData.count)
      ensures seenCount == hook.pokemonsData.count
    {
      StartFetch();
      FinishFetch(api);
    }

    /** The count effect: a changed, non-zero fetched count replaces the running total. */
    method SyncCount()
      modifies this`count, this`seenCount
      ensures seenCount == hook.pokemonsData.count
      ensures CountAfter(old(count), old(seenCount), hook.pokemonsData.count)
    {
      var fetched := hook.pokemonsData.count;
      if fetched != seenCount {
        seenCount := fetched;
        if fetched != 0 {
          count := fetched;
        }
      }
    }

    ghost predicate CountAfter(before: int, seen: int, fetched: int)
      reads this
    {
      && (fetched != seen && fetched != 0 ==> count == fetched)
      && (fetched == 0 || fetched == seen ==> count == before)
    }

    /** "Add pokemon": the total grows by one; nothing else changes. */
    method AddPokemon()
      modifies this`count
      ensures count == old(count) + 1
    {
      count := count + 1;
    }

    /** "Prev": go to the previous page unless there is none or a fetch is running. */
    method Prev()
      modifies this`fetchUrl
      ensures PrevDisabled() ==> fetchUrl == old(fetchUrl)
      ensures !PrevDisabled() ==> fetchUrl == hook.pokemonsData.previous.value
    {
      if !PrevDisabled() {
        fetchUrl := hook.pokemonsData.previous.value;
      }
    }

    /** "Next": go to the next page unless there is none or a fetch is running. */
    method Next()
      modifies this`fetchUrl
      ensures NextDisabled() ==> fetchUrl == old(fetchUrl)
      ensures !NextDisabled() ==> fetchUrl == hook.pokemonsData.next.value
    {
      if !NextDisabled() {
        fetchUrl := hook.pokemonsData.next.value;
      }
    }

    /** "Shiny": flip the variant unless a fetch is running. */
    method ToggleShiny()
      modifies this`isShiny
      ensures isShiny == if ShinyDisabled() then old(isShiny) else !old(isShiny)
    {
      if !ShinyDisabled() {
        isShiny := !isShiny;
      }
    }

    /** `changeLimitHandler`: write the committed page size into the current URL's query. */
    method ChangeLimit(value: string)
      modifies this`fetchUrl
      ensures fetchUrl == ChangedLimit(old(fetchUrl), value)
    {
      var params := new SearchParams(fetchUrl.query);
      params.Set("limit", value);
      fetchUrl := Url(fetchUrl.location, params.list);
    }
  }

  /**
   * "Add pokemon", then "Next" to a page with the same total: the second
   * cycle brings the count the count effect has already seen, so the effect
   * does not run and the added item stays in the total.
   */
  method AddSurvivesNext(p: PageController, api: Api)
    requires p.Valid() && FetchCycle(p.fetchUrl, api).Ok?
    requires FetchCycle(p.fetchUrl, api).value.next.Some?
    requires FetchCycle(FetchCycle(p.fetchUrl, api).value.next.value, api).Ok?
    requires FetchCycle(FetchCycle(p.fetchUrl, api).value.next.value, api).value.count == FetchCycle(p.fetchUrl, api).value.count
    modifies p, p.hook
    ensures var first := FetchCycle(old(p.fetchUrl), api).value;
            && p.fetchUrl == first.next.value
            && p.count == (if first.count != old(p.seenCount) && first.count != 0 then first.count else old(p.count)) + 1
  {
    p.Refresh(api);
    p.AddPokemon();
    p.Next();
    p.Refresh(api);
  }
}
