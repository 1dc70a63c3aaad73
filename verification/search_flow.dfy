/**
 * The component's state and the transitions its event handlers make, as
 * values.  Each `async` handler is split at its `await`: a start transition
 * (what happens before the request goes out) and a completion transition
 * (what happens when the abstract response arrives).
 */
module SearchFlow {
  import opened Options
  import opened Recipes

  /** An entry of the category list loaded at startup; its name is the filter value. */
  datatype Category = Category(id: string, name: string)

  /** The component's state hooks. `selectedCategory == ""` means no filter. */
  datatype AppState = AppState(
    query: string,
    recipes: seq<Meal>,
    selectedRecipe: Option<Meal>,
    loading: bool,
    error: Option<string>,
    categories: seq<Category>,
    selectedCategory: string)

  /** Which endpoint a search goes to, in place of the URL it builds. */
  datatype SearchRequest = Filter(category: string) | Search(query: string) | NoRequest

  /**
   * What awaiting `fetch` and `res.json()` produced: the response's `meals`
   * field (`None` when it is null or absent), or a thrown error of any cause.
   */
  datatype Response = Answered(meals: Option<seq<Meal>>) | Threw

  const SearchFailedMessage: string := "Failed to fetch recipes. Please try again."
  const DetailsFailedMessage: string := "Failed to fetch recipe details."

  /** The state every hook starts with. */
  function Initial(): (s: AppState)
    ensures s.recipes == [] && s.selectedRecipe == None && !s.loading && s.error == None
    ensures s.query == "" && s.selectedCategory == "" && s.categories == []
    ensures QueryClearedWhileFiltering(s)
  {
    AppState("", [], None, false, None, [], "")
  }

  /**
   * The search dispatch rule: a chosen category always selects the filter
   * endpoint, whatever the query; otherwise any non-empty query (blank ones
   * included) selects the name search; otherwise nothing is requested.
   */
  function Dispatch(category: string, query: string): (r: SearchRequest)
    ensures r.Filter? <==> category != ""
    ensures r.Search? <==> category == "" && query != ""
    ensures r.NoRequest? <==> category == "" && query == ""
    ensures r.Filter? ==> r.category == category
    ensures r.Search? ==> r.query == query
  {
    if category != "" then Filter(category)
    else if query != "" then Search(query)
    else NoRequest
  }

  /** The request a search triggered in state `s` makes. */
  function RequestOf(s: AppState): SearchRequest {
    Dispatch(s.selectedCategory, s.query)
  }

  /** The results a successful response stands for: a missing `meals` is an empty list. */
  function MealsOrEmpty(meals: Option<seq<Meal>>): seq<Meal> {
    if meals.Some? then meals.value else []
  }

  /** The "No recipes found yet." message is on screen. */
  predicate EmptyStateShown(s: AppState) {
    s.recipes == [] && !s.loading && s.error.None?
  }

  /**
   * The search box is disabled while a category is chosen, and choosing a
   * category empties it, so a chosen category always comes with an empty
   * query.
   */
  predicate QueryClearedWhileFiltering(s: AppState) {
    s.selectedCategory != "" ==> s.query == ""
  }

  /** Typing into the search box, which only accepts input while no category is chosen. */
  function QueryTyped(s: AppState, text: string): (r: AppState)
    requires s.selectedCategory == ""
    ensures r.query == text && r.(query := s.query) == s
    ensures QueryClearedWhileFiltering(r)
  {
    s.(query := text)
  }

  /** Choosing an entry of the category drop-down (`""` is "All Categories"). */
  function CategoryChosen(s: AppState, value: string): (r: AppState)
    ensures r.selectedCategory == value && r.query == "" && r.recipes == [] && r.selectedRecipe == None
    ensures r.loading == s.loading && r.error == s.error && r.categories == s.categories
    ensures QueryClearedWhileFiltering(r)
  {
    s.(selectedCategory := value, query := "", recipes := [], selectedRecipe := None)
  }

  /** `searchRecipes` up to its `await`, or to its early return when nothing is requested. */
  function SearchStarted(s: AppState): (r: AppState)
    ensures r.error == None
    ensures r.loading <==> !RequestOf(s).NoRequest?
    ensures RequestOf(s).NoRequest? ==> r.recipes == []
    ensures r.(loading := s.loading, error := s.error, recipes := s.recipes) == s
    ensures QueryClearedWhileFiltering(s) ==> QueryClearedWhileFiltering(r)
  {
    if RequestOf(s).NoRequest? then s.(loading := false, error := None, recipes := [])
    else s.(loading := true, error := None)
  }

  /** `searchRecipes` after its `await`. */
  function SearchCompleted(s: AppState, resp: Response): (r: AppState)
    ensures !r.loading
    ensures r.recipes == (if resp.Threw? then [] else MealsOrEmpty(resp.meals))
    ensures r.error == (if resp.Threw? then Some(SearchFailedMessage) else s.error)
    ensures r.(loading := s.loading, error := s.error, recipes := s.recipes) == s
    ensures QueryClearedWhileFiltering(s) ==> QueryClearedWhileFiltering(r)
  {
    match resp
    case Answered(meals) => s.(recipes := MealsOrEmpty(meals), loading := false)
    case Threw => s.(error := Some(SearchFailedMessage), recipes := [], loading := false)
  }

  /** `fetchRecipeDetails` up to its `await`. */
  function DetailsStarted(s: AppState): (r: AppState)
    ensures r.loading && r.error == None
    ensures r.(loading := s.loading, error := s.error) == s
    ensures QueryClearedWhileFiltering(s) ==> QueryClearedWhileFiltering(r)
  {
    s.(loading := true, error := None)
  }

  /** `fetchRecipeDetails` after its `await`: only a non-empty `meals` replaces the selection. */
  function DetailsCompleted(s: AppState, resp: Response): (r: AppState)
    ensures !r.loading && r.recipes == s.recipes
    ensures r.selectedRecipe == (if resp.Answered? && resp.meals.Some? && |resp.meals.value| > 0
                                 then Some(resp.meals.value[0]) else s.selectedRecipe)
    ensures r.error == (if resp.Threw? then Some(DetailsFailedMessage) else s.error)
    ensures r.(loading := s.loading, error := s.error, selectedRecipe := s.selectedRecipe) == s
    ensures QueryClearedWhileFiltering(s) ==> QueryClearedWhileFiltering(r)
  {
    match resp
    case Answered(meals) =>
      if meals.Some? && |meals.value| > 0 then s.(selectedRecipe := Some(meals.value[0]), loading := false)
      else s.(loading := false)
    case Threw => s.(error := Some(DetailsFailedMessage), loading := false)
  }

  /** Closing the modal, by its close button or by a click on the backdrop. */
  function Dismissed(s: AppState): (r: AppState)
    ensures r.selectedRecipe == None && r.(selectedRecipe := s.selectedRecipe) == s
    ensures QueryClearedWhileFiltering(s) ==> QueryClearedWhileFiltering(r)
  {
    s.(selectedRecipe := None)
  }

  /** The startup category load: its result when it arrives, nothing on failure. */
  function CategoriesLoaded(s: AppState, loaded: Option<seq<Category>>): (r: AppState)
    ensures r.categories == (if loaded.Some? then loaded.value else s.categories)
    ensures r.(categories := s.categories) == s
    ensures QueryClearedWhileFiltering(s) ==> QueryClearedWhileFiltering(r)
  {
    if loaded.Some? then s.(categories := loaded.value) else s
  }

  /**
   * A search with neither category nor query makes no request and leaves
   * the results empty, `loading` false and `error` cleared, so the empty
   * message shows; nothing else changes.
   */
  lemma SearchWithoutRequest(s: AppState)
    requires s.selectedCategory == "" && s.query == ""
    ensures var t := SearchStarted(s);
      t.recipes == [] && !t.loading && t.error == None && EmptyStateShown(t)
      && t.query == s.query && t.selectedCategory == s.selectedCategory
      && t.selectedRecipe == s.selectedRecipe && t.categories == s.categories
  {
  }

  /**
   * A search that makes a request shows the spinner until it completes; its
   * completion always clears `loading`.  A response with meals (possibly
   * none) clears the error and replaces the results, and an absent `meals`
   * is no error; a failure sets the fixed message and empties the results.
   * The query, the category, the open recipe and the category list are
   * untouched.
   */
  lemma SearchWithRequest(s: AppState, resp: Response)
    requires !RequestOf(s).NoRequest?
    ensures SearchStarted(s).loading && SearchStarted(s).error == None
    ensures var u := SearchCompleted(SearchStarted(s), resp);
      !u.loading
      && (resp.Answered? ==> u.error == None && u.recipes == MealsOrEmpty(resp.meals))
      && (resp.Answered? && resp.meals.None? ==> EmptyStateShown(u))
      && (resp.Threw? ==> u.error == Some(SearchFailedMessage) && u.recipes == [])
      && u.query == s.query && u.selectedCategory == s.selectedCategory
      && u.selectedRecipe == s.selectedRecipe && u.categories == s.categories
  {
  }

  /**
   * Whatever state it lands in, a completion leaves `loading` false; a
   * successful search completion does not itself touch `error` (the start
   * cleared it), and a failed one empties the results.
   */
  lemma CompletionsSettle(s: AppState, resp: Response)
    ensures !SearchCompleted(s, resp).loading && !DetailsCompleted(s, resp).loading
    ensures resp.Answered? ==> SearchCompleted(s, resp).error == s.error
    ensures resp.Threw? ==> SearchCompleted(s, resp).recipes == []
  {
  }

  /**
   * After choosing a category, a search goes to the filter endpoint for that
   * category, or nowhere for "All Categories": the choice cleared the query,
   * so it is never a name search.  The choice empties the results and closes
   * the modal but leaves `loading` and `error` as they were.
   */
  lemma CategoryThenSearch(s: AppState, value: string)
    ensures var t := CategoryChosen(s, value);
      t.selectedCategory == value && t.query == "" && t.recipes == [] && t.selectedRecipe == None
      && t.loading == s.loading && t.error == s.error && t.categories == s.categories
      && RequestOf(t) == (if value != "" then Filter(value) else NoRequest)
  {
  }

  /**
   * A detail lookup selects the first returned meal when `meals` is
   * non-empty and otherwise keeps the current selection; a failure sets its
   * own message.  The results are kept even on failure, so an error and a
   * non-empty result list can be shown together.
   */
  lemma DetailsLookup(s: AppState, resp: Response)
    ensures DetailsStarted(s).loading && DetailsStarted(s).error == None
    ensures var u := DetailsCompleted(DetailsStarted(s), resp);
      !u.loading && u.recipes == s.recipes
      && u.selectedRecipe == (if resp.Answered? && resp.meals.Some? && |resp.meals.value| > 0
                              then Some(resp.meals.value[0]) else s.selectedRecipe)
      && u.error == (if resp.Threw? then Some(DetailsFailedMessage) else None)
      && u.query == s.query && u.selectedCategory == s.selectedCategory
  {
  }

  /**
   * A failed lookup of either kind shows its error message instead of the
   * empty message, whatever state it lands in.
   */
  lemma FailureHidesEmptyState(s: AppState)
    ensures SearchCompleted(s, Threw).error.Some? && !EmptyStateShown(SearchCompleted(s, Threw))
    ensures DetailsCompleted(s, Threw).error.Some? && !EmptyStateShown(DetailsCompleted(s, Threw))
  {
  }

  /**
   * The empty message does not tell "never searched" from "searched and
   * found nothing": it shows in the initial state and after any search
   * whose response had no meals.
   */
  lemma EmptyStateAmbiguous(s: AppState)
    requires !RequestOf(s).NoRequest?
    ensures EmptyStateShown(Initial())
    ensures EmptyStateShown(SearchCompleted(SearchStarted(s), Answered(None)))
  {
  }
}
