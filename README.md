# Pokemons museum: a Dafny model of the page logic

The application is a browser catalog that pages through a remote creature API. This project models the logic under its rendering:

- **Query** (`query.dfy`): a URL is reduced to an opaque location plus its query, a list of name-value pairs. `GetParam` and `SetParam` follow the `get` and `set` rules of `URLSearchParams` in section 6.2 of the WHATWG URL Standard. `get` returns the first match. `set` replaces the first match and drops later duplicates, or appends. The class `SearchParams` is the in-place object that `url.searchParams` is.
- **JsNumber** (`jsnumber.dfy`): `Number(s)` on query values, `Math.ceil(a / b)` including division by zero, and `String(n)`.
- **Page** (`page.dfy`): `getParamsCount`, the `pageNumber` memo, the URL that `changeLimitHandler` produces, and the class `PageController`. The controller holds the page state (`fetchUrl`, `count`, `isShiny`), its fetch hook, the count-sync effect, and the Add/Prev/Next/Shiny handlers with their `disabled` rules.
- **Fetch** (`fetch.dfy`): `getAllPokemonsWithPhotos` (`Enrich`), the `Promise.all` fan-out (`EnrichAll`), the front-photo filter and one fetch cycle (`FetchCycle`), all as pure functions of an `Api` value. An `Api` maps list URLs to list responses, item URLs to their `forms`, and form URLs to their `sprites`. A URL missing from it is a request that throws. The class `FetchHook` holds `pokemonsData` and `isLoading`. Its invariant is that every published item has a front photo.
- **Card** (`card.dfy`): choosing the front/back image URLs, the flip rule, and the class `ItemCard` with `isFront`, `photoUrl`, `photoBackUrl` and `imgIsLoaded`.
- **Debounce** (`debounce.dfy`): the debounced input as a state machine (`Step` over `Event`s). Its state is the component plus the parts of the browser that decide when `onChange` runs. The component part is `displayValue`, the ref `timer.current`, the resolved delay and whether it is mounted. The browser part is the queue of pending timeouts, a clock, and the calls made to `onChange`. The class `DebouncedInput` has one method per event, and each is proved equal to `Step`.

How the pieces are used: a change of `fetchUrl` (from Prev, Next or `ChangeLimit`) is followed by a fetch cycle, run as `StartFetch` and then `FinishFetch`. Between these two calls `isLoading` is true, and the buttons that depend on it do nothing.

Behaviour that the code has and a reader of a summary might not expect:

- The count effect depends on `[pokemonsData.count]`, so it runs only when the fetched count *changes* (`PageController.seenCount`). After "Add pokemon", a later page with the same total does not reset the counter.
- An edit that leaves the field value unchanged does not re-arm the timer: React skips the re-render, so the effect does not run.
- A change of the `onChange` prop re-arms the timer with the current display value. `changeLimitHandler` gets a new identity on every `fetchUrl` change, so 500 later the shown value is written into the new URL. After a commit that write gives the same URL (`ChangedLimitIdempotent`), so no second fetch cycle starts. After Prev or Next the new URL is the API's link: when that link spells `limit` differently from the shown value (the user typed "05" and the link says "5"), the write changes the URL and a second cycle starts.
- `imgIsLoaded` is never reset, not even when the card flips to another image.
- The `pageNumber` guard catches `Infinity`, `NaN` and `0`, but not `-Infinity`. A negative offset with limit 0 shows "-Infinity" (`NegativeOffsetZeroLimit`), but offsets come only from the API's links and the default URL. The page size is typed, though: `Number("-0")` is negative zero, so a page size of "-0" over a positive offset (one click on Next) shows "-Infinity" (`NegativeZeroLimit`).

## Model

| member | source | states |
|---|---|---|
| Query.GetParam | src/components/pokemonPage/pokemonPage.tsx:32-33 | `get(name)` is None exactly when no pair has the name; otherwise it is the value of the first pair with that name |
| Query.SetThenGet | src/components/pokemonPage/pokemonPage.tsx:67 | after `set(name, v)`, `get(name)` is `v` |
| Query.SetKeepsOthers | src/components/pokemonPage/pokemonPage.tsx:67 | `set(name, v)` keeps every pair with another name, in order |
| Query.SetGetOther | src/components/pokemonPage/pokemonPage.tsx:67 | `set(name, v)` does not change `get` of any other name |
| Query.SetLeavesOnePair | src/components/pokemonPage/pokemonPage.tsx:67 | after `set(name, v)` exactly one pair has the name, and it holds `v` |
| Query.SetIdempotent | src/components/pokemonPage/pokemonPage.tsx:67 | setting the same pair twice gives the same list as setting it once |
| Query.SetParam | src/components/pokemonPage/pokemonPage.tsx:67 | a name with no pair yet is appended as a new pair at the end; the replace case is stated by `SetInPlace` |
| Query.SetInPlace | src/components/pokemonPage/pokemonPage.tsx:67 | when index i holds the first pair with the name, the new pair stands at i, the pairs before it stay, and later pairs with the name are dropped (the WHATWG `set` rule) |
| Query.SearchParams.Set | src/components/pokemonPage/pokemonPage.tsx:66-67 | the in-place `params.set` leaves the list equal to `SetParam` of the old list |
| JsNumber.ToNumber | src/components/pokemonPage/pokemonPage.tsx:56-57 | `Number(s)` gives a finite value, -0 or NaN, never an infinity; it is -0 exactly for a minus sign followed by zeros only |
| JsNumber.ToString | src/components/pokemonPage/pokemonPage.tsx:60 | `String(n)`: digits for a natural, a minus sign and digits for a negative integer, "0" for -0; `StringThenNumber` is its round trip |
| JsNumber.StringThenNumber | src/components/pokemonPage/pokemonPage.tsx:60 | `Number(String(n))` is `n` for every integer `n` |
| JsNumber.CeilDiv | src/components/pokemonPage/pokemonPage.tsx:58 | for a non-zero divisor the result is the least integer not below the exact quotient, for either sign |
| JsNumber.DivideThenCeil | src/components/pokemonPage/pokemonPage.tsx:58 | for a non-zero divisor the result is the finite ceiling `CeilDiv(o, l)`; dividing by zero gives Infinity, -Infinity or NaN by the sign of the dividend |
| JsNumber.CeilQuotient | src/components/pokemonPage/pokemonPage.tsx:56-58 | `Math.ceil(o / l)` on the values `Number` gives: NaN spreads, a finite divisor divides as `DivideThenCeil`, and -0 as divisor gives -Infinity for a positive dividend, Infinity for a negative one and NaN for zero |
| JsNumber.SignedZeroDivisor | src/components/pokemonPage/pokemonPage.tsx:56-58 | "-0" reads as -0 and "0" as +0, and 5 divided by them gives -Infinity and Infinity |
| Page.GetParamsCount | src/components/pokemonPage/pokemonPage.tsx:30-35 | the value of the first pair with the parameter's name, or "0" when there is none |
| Page.PageNumberValue | src/components/pokemonPage/pokemonPage.tsx:55-61 | the page number is never NaN, Infinity or -0 |
| Page.PageNumber | src/components/pokemonPage/pokemonPage.tsx:55-61 | the label is never "NaN" or "Infinity" |
| Page.PageNumberIsCeiling | src/components/pokemonPage/pokemonPage.tsx:55-61 | for any limit string `Number` reads as L > 0 and any offset string it reads as a natural O ("5", "05", "+5"), the page number is ceil(O/L), and the shown label reads back as that number |
| Page.LeadingZeroLimit | src/components/pokemonPage/pokemonPage.tsx:55-61 | a typed limit "05" over offset "10" shows page "2" |
| Page.ZeroLimitIsPageZero | src/components/pokemonPage/pokemonPage.tsx:56-60 | limit 0 with a non-negative or non-numeric offset gives page "0", including offset 0 (0/0 is NaN) |
| Page.MissingLimitIsZero | src/components/pokemonPage/pokemonPage.tsx:33 | a URL without `limit` reads as limit 0 |
| Page.NegativeOffsetZeroLimit | src/components/pokemonPage/pokemonPage.tsx:58-59 | limit "0" with offset "-5" shows "-Infinity": the guard misses -Infinity |
| Page.NegativeZeroLimit | src/components/pokemonPage/pokemonPage.tsx:56-60 | page size "-0" over offset "5" shows "-Infinity", and over offset "-5" shows "0" |
| Page.DefaultPage | src/components/pokemonPage/pokemonPage.tsx:21 | the default URL shows page size "5" and page "0" |
| Page.ChangedLimit | src/components/pokemonPage/pokemonPage.tsx:63-69 | the new URL reads `limit` as the committed value; every other parameter and the location are unchanged; the new `limit` pair stands where the first old one stood |
| Page.DefaultLimitInPlace | src/components/pokemonPage/pokemonPage.tsx:63-69 | changing the default page size to "10" gives the query limit=10, offset=0, with `limit` still first |
| Page.ChangedLimitIdempotent | src/components/pokemonPage/pokemonPage.tsx:63-72 | committing the same value twice gives the same URL |
| Page.ChangedLimitPage | src/components/pokemonPage/pokemonPage.tsx:55-69 | after committing any typed value that `Number` reads as L > 0, the page number is ceil(O/L) for the offset that was kept |
| Page.PageSizeEditScenario | src/common/DebouncedInput/debouncedInput.tsx:26-39 | typing "1" then "10" right after mount and waiting 600 delivers only "10", at time 600, and the resulting URL has limit "10" and the old offset |
| Page.PageController.constructor | src/components/pokemonPage/pokemonPage.tsx:38-40 | the page starts on the default URL with count 0, shiny off, an empty page and not loading |
| Page.PageController.SyncCount | src/components/pokemonPage/pokemonPage.tsx:46-48 | a changed, non-zero fetched count replaces the total; a zero or unchanged one leaves it |
| Page.PageController.FinishFetch | src/components/pokemonPage/pokemonPage.tsx:42-48 | the cycle's result is published or, on failure, the old page is kept; loading ends; the count effect follows, and its dependency `seenCount` is the published count |
| Page.PageController.StartFetch | src/components/pokemonPage/hooks/useFetch.tsx:58 | a cycle starts: loading is on and the page is kept |
| Page.PageController.Refresh | src/components/pokemonPage/hooks/useFetch.tsx:55-76 | a whole cycle for the current URL followed by the count effect; `seenCount` is left equal to the published count |
| Page.PageController.CurrentPage | src/components/pokemonPage/pokemonPage.tsx:55-61 | the page number label of the controller's `fetchUrl`, never "NaN" or "Infinity" (by `PageNumber`) |
| Page.PageController.PageSize | src/components/pokemonPage/pokemonPage.tsx:50-53 | `countPokemonsOnPage` is the URL's `limit`, or "0" when it has none (by `GetParamsCount`) |
| Page.PageController.PrevDisabled | src/components/pokemonPage/pokemonPage.tsx:146 | "Prev" is disabled when there is no previous page or a fetch is running |
| Page.PageController.ShinyDisabled | src/components/pokemonPage/pokemonPage.tsx:153 | "Shiny" is disabled while a fetch is running |
| Page.PageController.NextDisabled | src/components/pokemonPage/pokemonPage.tsx:160 | "Next" is disabled when there is no next page or a fetch is running |
| Page.PageController.AddPokemon | src/components/pokemonPage/pokemonPage.tsx:125 | the count grows by exactly 1; the URL, the shiny flag and the hook are untouched |
| Page.AddSurvivesNext | src/components/pokemonPage/pokemonPage.tsx:46-48 | fetch, "Add pokemon", "Next", fetch the next page: when that page has the same total, the count effect does not run, so the total ends one above what the first fetch left, on the next page's URL |
| Page.PageController.Prev | src/components/pokemonPage/pokemonPage.tsx:143-146 | the URL becomes `previous` unless `previous` is empty or a fetch is running, in which case nothing changes |
| Page.PageController.Next | src/components/pokemonPage/pokemonPage.tsx:157-160 | the URL becomes `next` unless `next` is empty or a fetch is running, in which case nothing changes |
| Page.PageController.ToggleShiny | src/components/pokemonPage/pokemonPage.tsx:150-153 | the shiny flag is negated unless a fetch is running |
| Page.PageController.ChangeLimit | src/components/pokemonPage/pokemonPage.tsx:63-72 | the fetch URL becomes `ChangedLimit` of the old one |
| Fetch.Normalize | src/components/pokemonPage/hooks/useFetch.tsx:36-39 | the `or undefined` fallback: null and "" become absent, any other string is kept |
| Fetch.WithPhotos | src/components/pokemonPage/hooks/useFetch.tsx:33-40 | every key other than the four photo keys keeps its value; each photo key holds its sprite field, or is absent when that field is null or "" |
| Fetch.FirstForm | src/components/pokemonPage/hooks/useFetch.tsx:28 | `find` gives the first form with the name, or none when no form has it |
| Fetch.Enrich | src/components/pokemonPage/hooks/useFetch.tsx:23-44 | without a URL the item is unchanged; a failed detail fetch is an error; with no matching form the item is unchanged; otherwise the first matching form's sprites are overlaid, or its sprite fetch fails |
| Fetch.EnrichAll | src/components/pokemonPage/hooks/useFetch.tsx:62 | succeeds exactly when every item does, with the enriched items in input order |
| Fetch.KeepWithFrontPhoto | src/components/pokemonPage/hooks/useFetch.tsx:62-64 | an item is kept exactly when it has a truthy `frontPhoto`; no more items than given |
| Fetch.KeepDistributes | src/components/pokemonPage/hooks/useFetch.tsx:62-64 | the filter keeps order: filtering a concatenation concatenates the filtered parts |
| Fetch.KeepAllPass | src/components/pokemonPage/hooks/useFetch.tsx:62-64 | a list in which every item has a front photo passes unchanged |
| Fetch.KeepNonePass | src/components/pokemonPage/hooks/useFetch.tsx:62-64 | a list in which no item has a front photo filters to nothing |
| Fetch.FetchCycle | src/components/pokemonPage/hooks/useFetch.tsx:59-69 | a failed list fetch or any failed enrichment is an error; on success count/next/previous come from the list response and results are the filtered enriched list, each with a front photo |
| Fetch.ResultsOf | src/components/pokemonPage/hooks/useFetch.tsx:60 | `const { results = [] }`: the response's results, or no items when it has none; `MissingResultsIsEmpty` states the consequence |
| Fetch.MissingResultsIsEmpty | src/components/pokemonPage/hooks/useFetch.tsx:60 | a list response without `results` publishes an empty page with its count and links |
| Fetch.PublishedExactly | src/components/pokemonPage/hooks/useFetch.tsx:60-64 | an item is published exactly when it is the enrichment of a listed item and has a front photo |
| Fetch.FetchHook.constructor | src/components/pokemonPage/hooks/useFetch.tsx:47-53 | the hook starts with an empty page (count 0, no links) and not loading |
| Fetch.FetchHook.Begin | src/components/pokemonPage/hooks/useFetch.tsx:58 | loading is set and the page is kept |
| Fetch.FetchHook.Complete | src/components/pokemonPage/hooks/useFetch.tsx:59-74 | on success the page is replaced by the cycle's result, on failure it is kept; loading is cleared in both cases |
| Fetch.FetchHook.Run | src/components/pokemonPage/hooks/useFetch.tsx:55-76 | one whole cycle, with the same outcome as `Complete` |
| Card.SelectFaces | src/components/pokemonPage/components/pokemonItem.tsx:35-42 | the shiny flag picks the shiny or plain candidates; the shown URL is the front one when face-up and the back one otherwise; the preloaded URL is always the back one; a missing candidate is "" |
| Card.Flip | src/components/pokemonPage/components/pokemonItem.tsx:17-20 | an empty back URL leaves the face as it is; otherwise the face turns |
| Card.FlipTwiceRestores | src/components/pokemonPage/components/pokemonItem.tsx:17-20 | a click does not change the back URL, so two clicks restore the face |
| Card.PublishedFrontShown | src/components/pokemonPage/components/pokemonItem.tsx:36-38 | every card of a published page shows a non-empty front image when shiny is off |
| Card.HookFrontShown | src/components/pokemonPage/components/pokemonItem.tsx:36-38 | under the hook's invariant, every card of the page the hook holds shows a non-empty front image when shiny is off |
| Card.ItemCard.constructor | src/components/pokemonPage/components/pokemonItem.tsx:12-15 | a card starts front-up and not loaded, with the URLs of its first effect run |
| Card.ItemCard.SyncFaces | src/components/pokemonPage/components/pokemonItem.tsx:35-42 | the two URLs become those chosen for the props and the face |
| Card.ItemCard.Click | src/components/pokemonPage/components/pokemonItem.tsx:17-20 | the face follows `Flip`; the back URL, props and loaded flag do not change |
| Card.ItemCard.Rerender | src/components/pokemonPage/components/pokemonItem.tsx:35-42 | new props update the URLs; the face and the loaded flag stay |
| Card.ItemCard.ImageLoaded | src/components/pokemonPage/components/pokemonItem.tsx:24-26 | the loaded flag becomes true; nothing sets it back |
| Debounce.ResolveDelay | src/common/DebouncedInput/debouncedInput.tsx:15 | the delay is 500 when not given |
| Debounce.Step | src/common/DebouncedInput/debouncedInput.tsx:18-39 | only an edit changes the display value (a new `value` prop does not); only time passing calls `onChange`; an unmounted input stays unmounted |
| Debounce.Due | src/common/DebouncedInput/debouncedInput.tsx:30-32 | the callbacks run at time t are exactly those of the pending timeouts whose deadline has passed, each with the value its closure captured |
| Debounce.MountArmed | src/common/DebouncedInput/debouncedInput.tsx:18 | mounting shows the `value` prop and arms one timer a full delay ahead, even with no edit |
| Debounce.RerunArms | src/common/DebouncedInput/debouncedInput.tsx:26-32 | a re-run of the effect clears the old timer and leaves exactly one, carrying the shown value, a full delay ahead |
| Debounce.StepValid | src/common/DebouncedInput/debouncedInput.tsx:26-38 | every event keeps the invariant: at most one pending timer, the one the ref names, carrying the shown value |
| Debounce.RunValid | src/common/DebouncedInput/debouncedInput.tsx:26-38 | the invariant holds after any sequence of events |
| Debounce.SilentAfterUnmount | src/common/DebouncedInput/debouncedInput.tsx:34-38 | after unmount, no sequence of events calls `onChange` |
| Debounce.BurstStaysArmed | src/common/DebouncedInput/debouncedInput.tsx:22-32 | a burst of changing edits, each within the delay, calls nothing and leaves one timer with the final value |
| Debounce.QuietPeriod | src/common/DebouncedInput/debouncedInput.tsx:30-32 | an armed timer calls nothing before the delay elapses, and calls `onChange` once with the shown value when it does |
| Debounce.Mount | src/common/DebouncedInput/debouncedInput.tsx:18-32 | `useState(value)` and the first run of the effect; `MountArmed` states what it leaves |
| Debounce.DebouncedOnce | src/common/DebouncedInput/debouncedInput.tsx:22-39 | a burst followed by a wait calls nothing while the wait is shorter than the delay, then exactly once with the final value, one delay after the last edit |
| Debounce.DebouncedAfterIdle | src/common/DebouncedInput/debouncedInput.tsx:22-39 | typing into an idle mounted input, after any pause, then a burst and a wait: nothing is called while the wait is shorter than the delay, then exactly one call with the final value, one delay after the last edit |
| Debounce.DebouncedInput.constructor | src/common/DebouncedInput/debouncedInput.tsx:18-20 | the component's state is `Mount` of the props, and it is valid |
| Debounce.DebouncedInput.CancelTimer | src/common/DebouncedInput/debouncedInput.tsx:27-29 | clears the timeout the ref names |
| Debounce.DebouncedInput.ArmTimer | src/common/DebouncedInput/debouncedInput.tsx:26-32 | clears the old timeout, schedules the new one and stores its id in the ref |
| Debounce.DebouncedInput.RunEffect | src/common/DebouncedInput/debouncedInput.tsx:26-38 | the previous run's cleanup followed by the effect's body |
| Debounce.DebouncedInput.HandleChange | src/common/DebouncedInput/debouncedInput.tsx:22-24 | a keystroke is `Step` with `Edited` |
| Debounce.DebouncedInput.SetOnChange | src/common/DebouncedInput/debouncedInput.tsx:39 | a new `onChange` re-arms the timer |
| Debounce.DebouncedInput.SetDelay | src/common/DebouncedInput/debouncedInput.tsx:39 | a changed resolved delay re-arms the timer |
| Debounce.DebouncedInput.SetValueProp | src/common/DebouncedInput/debouncedInput.tsx:18 | a new `value` prop changes nothing |
| Debounce.DebouncedInput.Tick | src/common/DebouncedInput/debouncedInput.tsx:30-32 | time passes and the due timeout calls `onChange` with the value it captured |
| Debounce.DebouncedInput.Unmount | src/common/DebouncedInput/debouncedInput.tsx:34-38 | the cleanup clears the pending timeout and the input is unmounted |

## Left out

- The network: `fetch` and `response.json` become the `Api` maps. A missing entry stands for any request that throws: a network error, bad JSON, a detail response without `forms`, or a sprite response without `sprites`. Which error is reported is not modelled, since the code only logs it.
- `console.error` on a failed cycle: it is output only.
- The `Promise.all` fan-out is sequential in the model. Its result order is the input order. When several items fail, the model reports the first one in list order. The real fan-out reports the first failure in time, which only reaches the log.
- Overlapping fetch cycles and the stale-response race: the model runs one cycle at a time. In particular, a page-size commit that arrives while a cycle is running is not modelled.
- Full URL parsing and serialisation: the part before the query is one opaque string. The model assumes that the round trip through `url.toString()` and `new URL(...)` preserves the query's pairs, and it does not model percent-encoding. `new URL` throwing on a string that is not a URL is not modelled: `next` and `previous` are valid URLs or empty.
- JsNumber.ToNumber: only "", digits, and a sign followed by digits convert. Whitespace, decimals, exponents, hexadecimal and "Infinity" all become NaN here, while JavaScript's `Number` accepts them. A digit string is read exactly, however long: JavaScript rounds it to a double and reads one of about 309 or more digits as Infinity, so a page size that long over offset 5 shows "0" in the program and "1" in the model.
- JsNumber.CeilQuotient: a zero result is always +0 in the model, where JavaScript gives -0 for a quotient in (-1, 0], such as `Math.ceil(-1 / 5)` or `0 / -5`, and a dividend -0 is divided as 0. Neither `String` nor the `!result` guard tells the two zeros apart, so the page number is the same.
- JsNumber.CeilDiv: exact integer ceiling division. It does not model floating-point rounding of large values.
- Rendering: JSX, styles, the loader, and showing the loader in place of the list while loading.
- Image preloading: the `Image` objects of both faces are not modelled, and neither is the timing of `onload`. The load is the external event `ItemCard.ImageLoaded`. Opacity follows `imgIsLoaded` and is not modelled.
- React scheduling: the model does not include the render that shows the card's empty URLs before its first effect, or batching. Effects run right after the change that triggers them. The fetch cycle that follows a `fetchUrl` change is started by the caller (`StartFetch`, then `FinishFetch`).
- Debounce.Step: a delivery does not record which `onChange` closure made it. The model only tracks that a new handler re-arms the timer.
- Debounce.Due: the browser fires due timeouts in deadline order; the model fires them in queue order. The two agree because at most one timeout is ever pending (`StepValid`).
- The `disabled` prop of the page-size input while loading is passed through to the text field. The model does not stop edits during a cycle.
- The unused default `pokemonsData = mockPokemonData` in the page: the hook always returns a page.
- A record key set to `undefined` by the spread is modelled as an absent key. It reads the same way, but `Object.keys` would still list it.
