# UFC fighter catalogue: client store, search pipeline and scraper parsers

This project models the two parts of the fighter catalogue that hold rules of
their own: the browser client's fighter store, and the scraper's field parsers.

The browser client is `web/assets/script.js`. It keeps two module-level lists,
`fighters` (the cards on screen) and `allFighters` (everything loaded), and a
debounce timer `searchTimeout`. Records from the fighter service are
normalised. The displayed name is built from `name`, `first_name` and
`last_name`. The image is `image_url || image`. Height and weight fall back to
the `cmToFeetInches` and `kgToLbs` conversions. On the full-load path only,
wins, losses and draws default to 0. A failed load installs four fixed demo
records. A search restores the full list for a blank query. Otherwise it shows
the service's answer, or, when the service fails, filters `allFighters` by a
case-insensitive substring match. `updateStats` derives three counters from
`allFighters`. `renderFighters` projects `fighters` onto cards, or shows the
"no results" notice.

The scraper is `scraper/scraper.py`. `parse_height_to_cm` matches
`(\d+)'\s*(\d+)` at the start of a height text, and `parse_weight_to_kg`
reads a leading run of digits. `scrape_fighter_row` assembles a record from a
row's column texts. Its win, loss and draw counts fall back to 0.

Layout, one module per file:

- `common.dfy` (`Common`): `Option`, decimal digits, the decimal text of integers.
- `jstext.dfy` (`JsText`): JavaScript `trim`, `toLowerCase` on ASCII letters, `includes`.
- `fighters.dfy` (`Fighters`): the record, the two conversion guards, both normalisation maps, the demo records.
- `search.dfy` (`Search`): service replies, the local filter, what `searchFighters` assigns.
- `stats.dfy` (`Stats`): `updateStats`.
- `render.dfy` (`Render`): `createFighterCard` and `renderFighters`, with cards as abstract tokens.
- `store.dfy` (`Store`): the class `FighterStore`, holding the module-level state and the handlers that change it.
- `pytext.dfy` (`PyText`): Python `str.strip`, the greedy `\d` and `\s` runs, the built-in `int` on a string.
- `scraper.dfy` (`Scraper`): the two parsers and `scrape_fighter_row`.

Behaviour worth noting:

- The clear button and the Escape key do not cancel a pending debounce timer.
  `EscapeThenTimerFires` shows the pending search still narrowing the list after the box was emptied.
- A late search reply is applied whatever was typed after it (see "Left out").
- wins, losses and draws are not forced to be non-negative.
  The scraper's `int` accepts `-3`, and a record can carry any number the service sends.
- The search map does not default wins, losses and draws.
  A searched record without wins shows "undefined" on its card (`MissingWinsOnCards`).
- A full load whose `data` is an empty array succeeds: it gives an empty list, not the demo records.

## Model

| member | source | states |
|---|---|---|
| `Fighters.CmToFeetInches` | web/assets/script.js:38-44 | "N/A" exactly when `cm` is falsy (missing or 0); otherwise the `feet'inches"` text of the converted value |
| `Fighters.KgToLbs` | web/assets/script.js:46-49 | "N/A" exactly when `kg` is falsy; otherwise the `<n> lbs` text of the converted value |
| `Fighters.DisplayName` | web/assets/script.js:88-90 | `name || trim(first + " " + last)`; its cases are stated by `DisplayNameRule`, its stability under the full-load map by `LoadedIsCanonical` |
| `Fighters.DisplayNameRule` | web/assets/script.js:88-90 | a non-empty `name` is kept; with neither name nor parts the name is ""; two unpadded parts give `first + " " + last` |
| `Fighters.ImageRule` | web/assets/script.js:91 | the image is `image_url` when non-empty, otherwise `image` unchanged |
| `Fighters.DisplayTextsNonEmpty` | web/assets/script.js:92-93 | the displayed height and weight are never empty strings |
| `Fighters.MappingsDiffer` | web/assets/script.js:94-96 | the search map keeps wins/losses/draws as they came; the full-load map defaults them to 0; otherwise the two maps agree |
| `Fighters.MappingsKeepRawFields` | web/assets/script.js:86-87 | both maps keep every field they do not override (the object spread) |
| `Fighters.NormalizedIsDisplayable` | web/assets/script.js:86-97 | normalisation is total: any record, even an empty one, gets a name, a height and a weight |
| `Fighters.NormalizeLoaded` | web/assets/script.js:86-97 | the full-load map; `CanonicalIffFixpoint`, `LoadedIsCanonical`, `MappingsDiffer` and `MappingsKeepRawFields` state what it yields |
| `Fighters.NormalizeSearched` | web/assets/script.js:185-193 | the search map; `SearchedIdempotent`, `MappingsDiffer`, `MappingsKeepRawFields` and `NormalizedIsDisplayable` state what it yields |
| `Fighters.CanonicalIffFixpoint` | web/assets/script.js:86-97 | a record is canonical exactly when the full-load map leaves it unchanged |
| `Fighters.LoadedIsCanonical` | web/assets/script.js:86-97 | the full-load map yields canonical records and is idempotent |
| `Fighters.SearchedIdempotent` | web/assets/script.js:185-193 | the search map applied twice is the search map applied once |
| `Fighters.NormalizeAllLoaded` | web/assets/script.js:86-97 | one normalised record per raw record, in the same order |
| `Fighters.NormalizeAllSearched` | web/assets/script.js:185-193 | one search-normalised record per raw record, in the same order |
| `Fighters.AllLoadedCanonical` | web/assets/script.js:85-99 | every record of a full load is canonical |
| `Fighters.AllSearchedDisplayable` | web/assets/script.js:185-193 | every record of a search answer can be shown |
| `Fighters.DemoIsCanonical` | web/assets/script.js:123-165 | there are four demo records, all canonical, and Jon Jones's height is the 6'4" text |
| `JsText.TrimEmptyIffAllSpace` | web/assets/script.js:172 | `query.trim()` is empty exactly when the query is all white space |
| `JsText.TrimIdempotent` | web/assets/script.js:90 | trimming twice is trimming once |
| `JsText.IncludesAt` | web/assets/script.js:209-211 | a string that occurs at some position is included |
| `JsText.IncludesWitness` | web/assets/script.js:209-211 | an included string occurs at some position |
| `JsText.LowerIdempotent` | web/assets/script.js:204-206 | lowercasing twice is lowercasing once |
| `Search.RemoteHits` | web/assets/script.js:178-200 | the service's records only for an ok response whose envelope has `success` and `data`; used by `RemoteAnswerReplaces` and `FallbackIsSubsequence` |
| `Search.LocalFilter` | web/assets/script.js:202-213 | the filter on the lowercased, untrimmed query; stated by `FilterByTerm`, `FilterIgnoresQueryCase` and `FallbackIsSubsequence` |
| `Search.SearchResult` | web/assets/script.js:171-213 | what `searchFighters` assigns; its three branches are stated by `BlankQueryRestoresAll`, `RemoteAnswerReplaces` and `FallbackIsSubsequence`, and `SearchResultDisplayable` bounds it |
| `Search.FilterByTerm` | web/assets/script.js:203-213 | a record is in the result exactly when it is in the full list and its lowercased name, first or last name contains the term |
| `Search.FilterIsSubsequence` | web/assets/script.js:203-213 | the filter result is a subsequence of the full list, in the original order |
| `Search.FilterAppend` | web/assets/script.js:203-213 | the filter distributes over concatenation |
| `Search.FilterSingle` | web/assets/script.js:208-212 | on one record the filter keeps it exactly when it matches |
| `Search.FilterNone` | web/assets/script.js:203-213 | when no record matches, the result is empty |
| `Search.BlankQueryRestoresAll` | web/assets/script.js:172-175 | a white-space query restores the full list, whatever the service would answer |
| `Search.FallbackIsSubsequence` | web/assets/script.js:178-213 | when the service fails, the result is the local filter on the lowercased, untrimmed query: a subsequence of matching records |
| `Search.RemoteAnswerReplaces` | web/assets/script.js:182-195 | an ok response with `success` replaces the list with its search-normalised records |
| `Search.SearchResultDisplayable` | web/assets/script.js:171-213 | every record a search can put on screen can be shown |
| `Search.FilterIgnoresQueryCase` | web/assets/script.js:202 | queries that lowercase alike select the same records |
| `Search.JonExample` | web/assets/script.js:202-213 | over Jon Jones and Daniel Cormier, "jon" and "JON" keep Jon Jones alone |
| `Search.DemoJon` | web/assets/script.js:202-213 | over the demo records, "jon" keeps Jon Jones alone |
| `Stats.SummaryOf` | web/assets/script.js:273-285 | the three counters; stated by `RoundDiv`, `TotalsAppend`, `DefaultAgesAverage30` and `DemoSummary` |
| `Stats.RoundDiv` | web/assets/script.js:281-284 | `Math.round(a / n)`: the integer nearest a / n, halves rounded up |
| `Stats.TotalsAppend` | web/assets/script.js:275-282 | the wins and age totals add up over concatenation |
| `Stats.DefaultAgesAverage30` | web/assets/script.js:279-285 | when no record gives an age, the average age is 30 |
| `Stats.DemoSummary` | web/assets/script.js:273-285 | for the demo records: 4 fighters, 92 wins, average age 30 |
| `Render.RenderGrid` | web/assets/script.js:252-271 | "no results" is shown exactly for an empty list; otherwise one card per fighter in list order, card i with delay index i |
| `Render.CreateFighterCard` | web/assets/script.js:218-250 | the texts a card interpolates; stated by `CardPicture`, `DisplayableCard` and `MissingWinsOnCards` |
| `Render.CardPicture` | web/assets/script.js:219-222 | the placeholder is used exactly when `image` is falsy |
| `Render.DisplayableCard` | web/assets/script.js:224-232 | a card for a displayable record shows its name and the `height • weight` line |
| `Render.MissingWinsOnCards` | web/assets/script.js:235 | a record without wins shows "0" after a full load and "undefined" after a search |
| `Store.LoadOutcomeOf` | web/assets/script.js:72-117 | how a full load ends; stated by `LoadSucceedsIff`, `ConnectMessageOnlyForNetworkFailure`, `FailedToFetchCannotConnect` and `LoadFailedIsGeneric` |
| `Store.LoadSucceedsIff` | web/assets/script.js:79-104 | a full load succeeds exactly when the response is ok and the envelope has `success` and `data` |
| `Store.ConnectMessageOnlyForNetworkFailure` | web/assets/script.js:105-114 | the "cannot connect" message is shown exactly for a rejected `fetch` whose text includes "fetch"; every other failure shows the "Failed to load fighters: " prefix |
| `Store.FailedToFetchCannotConnect` | web/assets/script.js:108-111 | a rejection with the text "Failed to fetch" shows the "cannot connect" message |
| `Store.LoadFailedIsGeneric` | web/assets/script.js:112-114 | a rejection with the text "Load failed" shows "Failed to load fighters: Load failed" |
| `Store.FighterStore.constructor` | web/assets/script.js:2-5 | both lists start empty, with no pending timer |
| `Store.FighterStore.UpdateStats` | web/assets/script.js:273-285 | the counters become the summary of the full list |
| `Store.FighterStore.LoadDemoData` | web/assets/script.js:123-169 | both lists become exactly the four demo records |
| `Store.FighterStore.FetchFighters` | web/assets/script.js:72-121 | on success both lists are the normalised records in service order; on any failure both are the demo records and the error is shown |
| `Store.FighterStore.Render` | web/assets/script.js:252-271 | the grid becomes the projection of the visible list |
| `Store.FighterStore.SearchFighters` | web/assets/script.js:171-216 | the visible list becomes the search result; the full list is untouched and the invariant is kept |
| `Store.FighterStore.Input` | web/assets/script.js:299-318 | the one pending search is for the latest input; the clear button shows exactly when there is text |
| `Store.FighterStore.FireTimeout` | web/assets/script.js:315-317 | the pending search runs for its query and no search is pending afterwards |
| `Store.FighterStore.ClearSearch` | web/assets/script.js:321-327 | the box empties and the visible list is the full list; a pending timer is kept |
| `Store.FighterStore.KeyDown` | web/assets/script.js:330-338 | Escape acts as the clear button; any other key changes nothing |
| `Store.FighterStore.Init` | web/assets/script.js:381-401 | after start-up the visible list is the full list (loaded or demo records), the counters summarise it and the error banner holds the failure's message or nothing |
| `Store.FighterStore.OnWindowFocus` | web/assets/script.js:407-411 | while the full list is non-empty nothing changes; while it is empty the state becomes what start-up gives: lists, counters, error and grid |
| `Store.EscapeThenTimerFires` | web/assets/script.js:299-338 | Escape restores the full list, but the timer of the last keystroke still narrows it afterwards |
| `Store.LoadTwice` | web/assets/script.js:85-116 | loading the same reply twice leaves the same lists as loading it once |
| `PyText.PyInt` | scraper/scraper.py:49-60 | `int(s)` on a column text; stated by `IntTextIsInt`, `PyIntAccepts` and `BlankIsNotInt` |
| `PyText.IntTextIsInt` | scraper/scraper.py:50 | `int` reads back the decimal text of every integer, sign included |
| `PyText.PyIntAccepts` | scraper/scraper.py:49-60 | whatever `int` accepts is digits and underscores after an optional sign |
| `PyText.BlankIsNotInt` | scraper/scraper.py:49-52 | an empty or white-space text is not an integer, so the count falls back to 0 |
| `Scraper.ParseHeightToCm` | scraper/scraper.py:14-19 | the height parser; both directions are stated by `ParsedHeightMatches` and `HeightMatchParses` |
| `Scraper.ParsedHeightMatches` | scraper/scraper.py:14-19 | when the height parser gives a value, the pattern matches at the start, and the value is feet * 12 + inches of the two groups |
| `Scraper.HeightMatchParses` | scraper/scraper.py:14-19 | wherever the pattern matches at the start, the parser gives the value of the greedy match |
| `Scraper.HeightRoundTrip` | scraper/scraper.py:18-19 | `<feet>'<spaces><inches><rest>` parses to feet * 12 + inches whatever non-digit text follows |
| `Scraper.SixFourIs76Inches` | scraper/scraper.py:18-19 | `6' 4"` is 76 inches |
| `Scraper.HeightMismatches` | scraper/scraper.py:15-17 | "--", `6'` and a text with leading white space give `None` |
| `Scraper.ParseWeightToKg` | scraper/scraper.py:21-26 | `None` exactly when the text does not start with a digit |
| `Scraper.WeightRoundTrip` | scraper/scraper.py:22-25 | `<n><rest>` parses to n pounds when `rest` does not start with a digit |
| `Scraper.WeightValue` | scraper/scraper.py:22-25 | for any text starting with a digit run, the pounds are the value of that whole run, leading zeros included |
| `Scraper.Weight155` | scraper/scraper.py:22-25 | "155 lbs." is 155 pounds |
| `Scraper.IntColumnOrZero` | scraper/scraper.py:49-60 | `try: int(cols[i]) except: 0`; stated by `IntColumnFallback` |
| `Scraper.IntColumnFallback` | scraper/scraper.py:49-60 | a missing column or a non-integer text gives 0; the text of n gives n |
| `Scraper.ScrapeFighterRow` | scraper/scraper.py:41-72 | no columns give `None`; one to four raise `IndexError`; otherwise names from columns 0 and 1, parsed height and weight from 3 and 4, counts from 7 to 9 |

## Left out

- Theme handling, `localStorage`, the DOM, `IntersectionObserver`, the retry button and the keyboard shortcuts (script.js lines 8-35 and 341-497) are browser UI.
- `fetch` is replaced by an explicit reply value (a network failure with the browser's message, or a status with a parsed body).
  The `setTimeout` delay is replaced by an explicit `FireTimeout` step.
- `FireTimeout` applies the search reply at once.
  Two searches in flight whose replies arrive out of order are not modelled.
  Without a staleness guard, a late reply of an older search would overwrite the newer one.
- `setupSearch` wiring its listeners again on every `init` is not modelled.
- `animateCounter`, the loading spinner and the 500 ms delay before the counters animate are timers and display only.
- `Fighters.CmToFeetInches` and `Fighters.KgToLbs` keep the floating-point conversion abstract, as a parameter `Units`.
  A `NaN` input, which is also falsy, has no counterpart among the reals.
- `Render.RenderGrid`: the card markup is an abstract token holding the texts it interpolates.
  The `index * 0.1` seconds delay is kept as the index, and the `alt` attribute and the browser's image-error fallback are not modelled.
- `Render.MissingWinsOnCards`: a JSON `null` in wins, losses or draws is treated as an absent field.
  A searched record with `"wins": null` shows "undefined" in the model where the page shows "null"; the full-load path is unaffected, since `null || 0` is 0.
- `Store.LoadOutcomeOf`: only a rejected `fetch` is taken to throw a `TypeError`.
  A `TypeError` raised elsewhere in the `try` block, such as `data.data.map` on a `data` that is not an array, is not modelled.
- `JsText.Lower` lowercases ASCII letters only. Unicode case mapping is not modelled.
- `Scraper.ParseHeightToCm` and `Scraper.ParseWeightToKg` keep the centimetre and kilogram values abstract, as the total inches and the pounds they are computed from.
  `\d` is taken as the ASCII digits.
- `PyText.PyInt` accepts ASCII digits only. Python's `int` also accepts other Unicode decimal digits.
- `Scraper.ScrapeFighterRow` takes the column texts that `get_text(strip=True)` returns, and the image lookup as an input function.
  `fetch_wikipedia_image`, `scrape_char`, the thread pool, `save_to_json` and the `__main__` loop are network, threads and file I/O.
- web/server.js and scraper/upload.py are thin database and HTTP wrappers and are not part of this model.
