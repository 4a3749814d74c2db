/** `HomeListViewModel`: the list of dessert summaries on the home screen. */
module HomeList {
  import opened Wrappers
  import opened Models
  import opened Service
  import opened ViewStates

  class HomeListViewModel {
    var recipes: seq<Recipe>
    var viewState: ViewState
    /** Every value `viewState` has held, oldest first. */
    ghost var states: seq<ViewState>

    ghost predicate Valid()
      reads this
    {
      IsRun(states) && states[|states| - 1] == viewState
    }

    constructor()
      ensures Valid()
      ensures recipes == [] && viewState == Idle && states == [Idle]
    {
      recipes := [];
      viewState := Idle;
      states := [Idle];
    }

    /** `getRecipes()`, with `response` the outcome of the service's `fetchRecipes()`: the
        state is `loading` while the service is asked, then `loaded` with the response's
        recipes, or `error` with the previous recipes kept. */
    method GetRecipes(response: Result<DessertRecipesResponse, FetchError>)
      requires Valid()
      modifies this
      ensures Valid()
      ensures states == old(states) + [Loading, viewState]
      ensures viewState == Loaded || viewState == Error
      ensures response.Success? ==> viewState == Loaded && recipes == response.value.recipes
      ensures response.Failure? ==> viewState == Error && recipes == old(recipes)
    {
      viewState := Loading;
      states := states + [viewState];
      match response {
        case Success(recipesResponse) =>
          recipes := recipesResponse.recipes;
          viewState := Loaded;
        case Failure(_) =>
          viewState := Error;
      }
      FetchExtendsRun(old(states), viewState);
      states := states + [viewState];
    }
  }
}
