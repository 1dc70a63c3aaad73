# Recipe Finder search and detail flow

A model of `App.js`, the single React component of a recipe search page.
The component keeps its state in hooks (the query, the chosen category, the
result list, the recipe open in the modal, a loading flag, an error message
and the category list), sends searches to a remote recipe service by
category or by name, opens a recipe's details in a modal, and renders each
result card with a short preview of its instructions and the modal with the
recipe's non-blank ingredients.

Layout:

- `options.dfy`, module `Options`: present-or-null values.
- `js_strings.dfy`, module `JsStrings`: the JavaScript string behaviour the
  component relies on: truthiness of a possibly missing string,
  `String.prototype.trim` (which code points count as whitespace follows
  sections 12.2 and 12.3 of ECMA-262) and `String.prototype.substring` with
  its index clamping.
- `recipes.dfy`, module `Recipes`: a meal record with its numbered
  ingredient/measure fields as a sequence of slots, the modal's ingredient
  list (build the pairs for slots 1..20, `filter`, `map`) and the card
  preview.
- `search_flow.dfy`, module `SearchFlow`: the state as a value, the dispatch
  rule as a function returning an endpoint choice
  (`Filter(category) | Search(query) | NoRequest`) and one transition per
  event. Each `async` handler is split at its `await` into a start and a
  completion transition. The network answer is an abstract `Response`: the
  `meals` field, absent or not, or a thrown error.
- `app.dfy`, module `RecipeApp`: class `App` with one field per hook except the
  dark-mode flag, and one method per handler. Each method calls the setters in the handler's order
  and is proved to yield exactly the `SearchFlow` transition. The class
  invariant says two things. `loading` is only true while some request is
  out, tracked by ghost counters of outstanding requests. A chosen category
  always comes with an empty query, because the search box is disabled
  while a category is chosen (App.js:90) and choosing one empties it. Two
  client methods run a category search after typing a query, and a name
  search followed by a detail lookup.

Three behaviours of the code are worth noting:

- A successful search completion does not clear `error` itself. The start
  of the search cleared it, so start followed by completion ends with no
  error (`SearchWithRequest`). A completion that lands after another
  handler set an error keeps that error (`CompletionsSettle`).
- A failed detail lookup sets an error but keeps the result list, so an
  error and a non-empty result list can be on screen together
  (`DetailsLookup`).
- The empty message is the same before any search and after a search that
  found nothing (`EmptyStateAmbiguous`).

## Model

| member | source | states |
|---|---|---|
| `JsStrings.TrimStart` | App.js:180 | the result is a suffix of the input that does not start with whitespace, and everything dropped is whitespace |
| `JsStrings.TrimEnd` | App.js:180 | the result is a prefix of the input that does not end with whitespace, and everything dropped is whitespace |
| `JsStrings.Trim` | App.js:180 | `trim()` neither starts nor ends with whitespace, and gives `""` exactly when every code point of the string is whitespace |
| `JsStrings.Clamp` | App.js:138 | a `substring` index is clamped into `0..length`: an index below 0 becomes 0, one beyond the length becomes the length, and one in range is kept |
| `JsStrings.Substring` | App.js:138 | `substring(0, n)` never fails and gives the prefix of length `min(n, length)` |
| `Recipes.Keep` | App.js:180 | a slot passes the filter exactly when its ingredient exists and has a non-whitespace code point |
| `Recipes.SlotPairs` | App.js:175-179 | exactly 20 pairs are built, and pair i holds the fields numbered i + 1 |
| `Recipes.Filter` | App.js:180 | the filtered list is no longer than the input and each kept element passes the predicate |
| `Recipes.Kept` | App.js:180 | every slot the ingredient filter keeps has a present, non-blank ingredient |
| `Recipes.Lines` | App.js:181-185 | one line per kept slot, in order, carrying that slot's ingredient and measure |
| `Recipes.Ingredients` | App.js:175-185 | the ingredient list has at most 20 entries |
| `Recipes.FilterPositions` | App.js:180 | filtering keeps exactly the passing elements, each once, in their original order |
| `Recipes.KeptSlotNumbersSound` | App.js:175-185 | entry k of the ingredient list comes from the k-th kept slot number, which lies in 1..20 and passes the filter |
| `Recipes.KeptSlotNumbersOrdered` | App.js:175-185 | the kept slot numbers are strictly increasing, so slot order is preserved |
| `Recipes.KeptSlotNumbersComplete` | App.js:175-185 | every slot number in 1..20 whose ingredient passes the filter is kept |
| `Recipes.IngredientsExact` | App.js:175-185 | the ingredient list holds exactly the kept slots among 1..20, once each, in slot order, at most 20 |
| `Recipes.IngredientsOnlyFirstTwenty` | App.js:175 | meals that agree on slots 1..20 have the same ingredient list; later slots are never read |
| `Recipes.Preview` | App.js:137-139 | non-empty instructions give their first `min(80, length)` code points plus `"..."` (the whole text plus `"..."` when short); missing or empty instructions give "Click to see details" |
| `SearchFlow.Initial` | App.js:5-12 | every hook starts empty, null or false |
| `SearchFlow.Dispatch` | App.js:28-37 | the filter endpoint exactly when a category is chosen, whatever the query; the name search exactly when no category is chosen and the query is non-empty, blank queries included; no request exactly when both are empty |
| `SearchFlow.QueryTyped` | App.js:87-90 | typing is only possible with no category chosen; it sets the query and nothing else, keeping the invariant that a chosen category comes with an empty query |
| `SearchFlow.CategoryChosen` | App.js:95-100 | choosing sets the category, empties query and results, closes the modal, keeps `loading`, `error` and the category list |
| `SearchFlow.SearchStarted` | App.js:23-37 | clears `error`; `loading` stays raised exactly when a request goes out; with no request the results are emptied; nothing else changes |
| `SearchFlow.SearchCompleted` | App.js:39-51 | `loading` ends false; results become the returned meals (empty for a missing `meals`) or empty on failure; failure sets the fixed message, success keeps `error`; nothing else changes |
| `SearchFlow.DetailsStarted` | App.js:54-56 | raises `loading` and clears `error`, nothing else |
| `SearchFlow.DetailsCompleted` | App.js:57-66 | `loading` ends false; the first meal is selected only when `meals` is non-empty, else the selection is kept; failure sets its own message; results and everything else are kept |
| `SearchFlow.Dismissed` | App.js:146-160 | the open recipe is cleared and nothing else changes |
| `SearchFlow.CategoriesLoaded` | App.js:16-21 | a loaded list replaces the category list, a failure keeps it; nothing else changes |
| `SearchFlow.SearchWithoutRequest` | App.js:23-37 | with neither category nor query, a search ends with empty results, `loading` false, `error` null and the empty message shown |
| `SearchFlow.SearchWithRequest` | App.js:23-51 | a search that sends a request shows the spinner until it completes; success clears `error` and stores `meals`, with a missing `meals` as an empty list and no error; failure sets the fixed message and empties the results; either way `loading` ends false |
| `SearchFlow.CompletionsSettle` | App.js:41-66 | every completion of either lookup leaves `loading` false; a successful search completion keeps whatever `error` holds; a failed one empties the results |
| `SearchFlow.CategoryThenSearch` | App.js:95-100 | choosing a category sets it, empties query and results and closes the modal, keeps `loading` and `error`; the next search is `Filter(category)`, or no request for "All Categories" |
| `SearchFlow.DetailsLookup` | App.js:54-67 | a lookup replaces the open recipe only when `meals` is non-empty, sets its own message on failure, always ends with `loading` false and never touches the results |
| `SearchFlow.FailureHidesEmptyState` | App.js:117-122 | after a failed search or a failed detail lookup the error message shows and the empty message `EmptyStateShown` (the App.js:120 condition) does not |
| `SearchFlow.EmptyStateAmbiguous` | App.js:120 | the empty message shows both initially and after a search answered without meals |
| `RecipeApp.App.constructor` | App.js:5-12 | the fields start in the initial state, with no request outstanding |
| `RecipeApp.App.LoadCategories` | App.js:16-21 | a loaded category list replaces the list; a failed load changes nothing |
| `RecipeApp.App.TypeQuery` | App.js:87-90 | typing, possible only while no category is chosen, changes the query and nothing else |
| `RecipeApp.App.ChooseCategory` | App.js:95-100 | the handler yields the category-choice transition: the category is set, query, results and open recipe are cleared, `loading` and `error` are unchanged |
| `RecipeApp.App.StartSearch` | App.js:23-37 | returns the dispatch rule's request; clears `error`; without a request settles with empty results and `loading` false, otherwise raises `loading` with one more search outstanding |
| `RecipeApp.App.CompleteSearch` | App.js:39-51 | for an outstanding search: results become the returned meals, or an empty list for a missing `meals`; on failure the fixed message is set and the results are emptied; `loading` ends false |
| `RecipeApp.App.StartDetails` | App.js:54-56 | raises `loading`, clears `error`, one more lookup outstanding |
| `RecipeApp.App.CompleteDetails` | App.js:57-66 | for an outstanding lookup: the first returned meal opens only when `meals` is non-empty; failure sets its message; results kept; `loading` ends false |
| `RecipeApp.App.Dismiss` | App.js:148-156 | closing the modal clears the open recipe and nothing else |
| `RecipeApp.SeafoodScenario` | App.js:87-111 | typing a query, choosing "Seafood" and searching asks the filter endpoint for "Seafood" |
| `RecipeApp.ArrabiataScenario` | App.js:23-67 | a name search for "Arrabiata" answered with one meal shows that meal; opening it shows it in the modal |

## Left out

- The `fetch` calls and `res.json()` parsing (App.js:17-19, 39-40, 58-59) are network and foreign calls. A completion receives their outcome as a `Response`. Any thrown error, including a response without a usable body, is `Threw`.
- Overlapping requests are left out. A stale response that completes after a newer search still overwrites it. Each completion is one atomic event, and the ghost counters only record that some request is outstanding. The converse of the `loading` invariant therefore does not hold, and the model does not claim it.
- Request URLs and their unencoded interpolation of the query and category are not modelled. The endpoint choice `SearchRequest` stands for them. The meal id of a detail lookup only enters its URL, so `StartDetails` takes no argument.
- JSX rendering, CSS classes, images, the source link and `stopPropagation` are presentation only (App.js:69-200). The modal's "No instructions available." fallback at App.js:170 falls in this group too.
- The dark-mode toggle (App.js:14, 74) is a display-only flag.
- A startup response whose `categories` field is missing would store `undefined`. `LoadCategories` only takes a list or a failure.
- `JsStrings.Substring`, `Recipes.Preview`: lengths count code points. JavaScript counts UTF-16 code units, so the two differ for characters outside the Basic Multilingual Plane.
