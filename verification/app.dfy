/**
 * The `App` component as an object: one field per state hook, one method
 * per event handler, each changing the fields in the order the handler
 * calls its setters.  Every method is proved to produce exactly the
 * corresponding transition of `SearchFlow`.
 */
module RecipeApp {
  import opened Options
  import opened Recipes
  import opened SearchFlow

  class App {
    var query: string
    var recipes: seq<Meal>
    var selectedRecipe: Option<Meal>
    var loading: bool
    var error: Option<string>
    var categories: seq<Category>
    var selectedCategory: string

    /** Searches and detail lookups whose request went out and whose completion has not run. */
    ghost var searchesInFlight: nat
    ghost var lookupsInFlight: nat

    /**
     * The spinner is only shown while some request is outstanding, and a
     * chosen category always comes with an empty query.
     */
    ghost predicate Valid()
      reads this
    {
      (loading ==> searchesInFlight + lookupsInFlight > 0)
      && QueryClearedWhileFiltering(State())
    }

    /** The fields as one state value. */
    function State(): AppState
      reads this
    {
      AppState(query, recipes, selectedRecipe, loading, error, categories, selectedCategory)
    }

    constructor ()
      ensures Valid() && State() == Initial()
      ensures searchesInFlight == 0 && lookupsInFlight == 0
    {
      query, recipes, selectedRecipe := "", [], None;
      loading, error := false, None;
      categories, selectedCategory := [], "";
      searchesInFlight, lookupsInFlight := 0, 0;
    }

    /** The startup effect's completion; a failed load is swallowed. */
    method LoadCategories(loaded: Option<seq<Category>>)
      requires Valid()
      modifies this
      ensures Valid() && State() == CategoriesLoaded(old(State()), loaded)
      ensures searchesInFlight == old(searchesInFlight) && lookupsInFlight == old(lookupsInFlight)
    {
      if loaded.Some? {
        categories := loaded.value;
      }
    }

    /** The search box's change handler; the box is disabled while a category is chosen. */
    method TypeQuery(text: string)
      requires Valid() && selectedCategory == ""
      modifies this
      ensures Valid() && State() == QueryTyped(old(State()), text)
      ensures searchesInFlight == old(searchesInFlight) && lookupsInFlight == old(lookupsInFlight)
    {
      query := text;
    }

    /** The category drop-down's change handler. */
    method ChooseCategory(value: string)
      requires Valid()
      modifies this
      ensures Valid() && State() == CategoryChosen(old(State()), value)
      ensures selectedCategory == value && query == "" && recipes == [] && selectedRecipe == None
      ensures loading == old(loading) && error == old(error)
      ensures searchesInFlight == old(searchesInFlight) && lookupsInFlight == old(lookupsInFlight)
    {
      selectedCategory := value;
      query := "";
      recipes := [];
      selectedRecipe := None;
    }

    /**
     * `searchRecipes` up to its `await`: returns the request it sends, which
     * follows the dispatch rule; without a request it settles at once.
     */
    method StartSearch() returns (req: SearchRequest)
      requires Valid()
      modifies this
      ensures Valid() && State() == SearchStarted(old(State()))
      ensures req == Dispatch(old(selectedCategory), old(query))
      ensures error == None
      ensures req.NoRequest? ==> !loading && recipes == [] && searchesInFlight == old(searchesInFlight)
      ensures !req.NoRequest? ==> loading && searchesInFlight == old(searchesInFlight) + 1
      ensures lookupsInFlight == old(lookupsInFlight)
    {
      loading := true;
      error := None;
      if selectedCategory != "" {
        req := Filter(selectedCategory);
      } else if query != "" {
        req := Search(query);
      } else {
        loading := false;
        recipes := [];
        req := NoRequest;
        return;
      }
      searchesInFlight := searchesInFlight + 1;
    }

    /** `searchRecipes` after its `await`, for one outstanding search. */
    method CompleteSearch(resp: Response)
      requires Valid() && searchesInFlight > 0
      modifies this
      ensures Valid() && State() == SearchCompleted(old(State()), resp)
      ensures !loading
      ensures resp.Answered? ==> recipes == MealsOrEmpty(resp.meals) && error == old(error)
      ensures resp.Threw? ==> recipes == [] && error == Some(SearchFailedMessage)
      ensures searchesInFlight == old(searchesInFlight) - 1 && lookupsInFlight == old(lookupsInFlight)
    {
      match resp {
        case Answered(meals) =>
          if meals.Some? {
            recipes := meals.value;
          } else {
            recipes := [];
          }
        case Threw =>
          error := Some(SearchFailedMessage);
          recipes := [];
      }
      loading := false;
      searchesInFlight := searchesInFlight - 1;
    }

    /**
     * `fetchRecipeDetails` up to its `await`, started by a click on a
     * result card; the meal id only enters the request URL.
     */
    method StartDetails()
      requires Valid()
      modifies this
      ensures Valid() && State() == DetailsStarted(old(State()))
      ensures loading && error == None
      ensures lookupsInFlight == old(lookupsInFlight) + 1 && searchesInFlight == old(searchesInFlight)
    {
      loading := true;
      error := None;
      lookupsInFlight := lookupsInFlight + 1;
    }

    /** `fetchRecipeDetails` after its `await`, for one outstanding lookup. */
    method CompleteDetails(resp: Response)
      requires Valid() && lookupsInFlight > 0
      modifies this
      ensures Valid() && State() == DetailsCompleted(old(State()), resp)
      ensures !loading && recipes == old(recipes)
      ensures selectedRecipe == (if resp.Answered? && resp.meals.Some? && |resp.meals.value| > 0
                                 then Some(resp.meals.value[0]) else old(selectedRecipe))
      ensures error == (if resp.Threw? then Some(DetailsFailedMessage) else old(error))
      ensures lookupsInFlight == old(lookupsInFlight) - 1 && searchesInFlight == old(searchesInFlight)
    {
      match resp {
        case Answered(meals) =>
          if meals.Some? && |meals.value| > 0 {
            selectedRecipe := Some(meals.value[0]);
          }
        case Threw =>
          error := Some(DetailsFailedMessage);
      }
      loading := false;
      lookupsInFlight := lookupsInFlight - 1;
    }

    /** The modal's close button and its backdrop click handler. */
    method Dismiss()
      requires Valid()
      modifies this
      ensures Valid() && State() == Dismissed(old(State()))
      ensures selectedRecipe == None
      ensures searchesInFlight == old(searchesInFlight) && lookupsInFlight == old(lookupsInFlight)
    {
      selectedRecipe := None;
    }
  }

  /**
   * A user types a query, then picks "Seafood" and presses Search: the
   * filter endpoint is asked for "Seafood", never the name search.
   */
  method SeafoodScenario(typed: string) returns (req: SearchRequest)
    ensures req == Filter("Seafood")
  {
    var app := new App();
    app.TypeQuery(typed);
    app.ChooseCategory("Seafood");
    req := app.StartSearch();
  }

  /**
   * A name search for "Arrabiata" answered with one meal shows that meal as
   * the only result with no error and no spinner; clicking it and receiving
   * its details opens it in the modal, with the result list unchanged.
   */
  method ArrabiataScenario(meal: Meal) returns (req: SearchRequest, shown: seq<Meal>, modal: Option<Meal>)
    ensures req == Search("Arrabiata")
    ensures shown == [meal]
    ensures modal == Some(meal)
  {
    var app := new App();
    app.TypeQuery("Arrabiata");
    req := app.StartSearch();
    app.CompleteSearch(Answered(Some([meal])));
    assert !app.loading && app.error == None && app.recipes == [meal];
    app.StartDetails();
    app.CompleteDetails(Answered(Some([meal])));
    shown, modal := app.recipes, app.selectedRecipe;
  }
}
