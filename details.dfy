/** `RecipeDetailsViewModel`: the details screen of one recipe. */
module Details {
  import opened Wrappers
  import opened Text
  import opened Models
  import opened Service
  import opened ViewStates

  /** Ascending by name under `<` on strings. */
  predicate SortedByName(s: seq<Ingredient>)
  {
    forall i, j :: 0 <= i < j < |s| ==> !Less(s[j].name, s[i].name)
  }

  /** Places `x` before the first ingredient whose name is not less than its own. */
  function InsertByName(x: Ingredient, s: seq<Ingredient>): (r: seq<Ingredient>)
    requires SortedByName(s)
    ensures SortedByName(r) && multiset(r) == multiset(s) + multiset{x}
    decreases |s|
  {
    if s == [] then [x]
    else if !Less(s[0].name, x.name) then
      InsertFirst(x, s);
      [x] + s
    else
      var rest := InsertByName(x, s[1..]);
      InsertAfter(x, s, rest);
      [s[0]] + rest
  }

  lemma InsertFirst(x: Ingredient, s: seq<Ingredient>)
    requires SortedByName(s) && s != [] && !Less(s[0].name, x.name)
    ensures SortedByName([x] + s)
  {
    var r := [x] + s;
    forall i, j | 0 <= i < j < |r| ensures !Less(r[j].name, r[i].name) {
      if i == 0 {
        if j > 1 {
          NotLessTransitive(x.name, s[0].name, s[j - 1].name);
        }
      } else {
        assert r[i] == s[i - 1] && r[j] == s[j - 1];
      }
    }
  }

  lemma InsertAfter(x: Ingredient, s: seq<Ingredient>, rest: seq<Ingredient>)
    requires SortedByName(s) && s != [] && Less(s[0].name, x.name)
    requires SortedByName(rest) && multiset(rest) == multiset(s[1..]) + multiset{x}
    ensures SortedByName([s[0]] + rest) && multiset([s[0]] + rest) == multiset(s) + multiset{x}
  {
    var r := [s[0]] + rest;
    forall j | 0 <= j < |rest| ensures !Less(rest[j].name, s[0].name) {
      assert rest[j] in multiset(rest);
      if rest[j] == x {
        LessAsymmetric(s[0].name, x.name);
      } else {
        assert rest[j] in multiset(s[1..]);
        var k :| 0 <= k < |s[1..]| && s[1..][k] == rest[j];
        assert s[k + 1] == rest[j];
      }
    }
    forall i, j | 0 <= i < j < |r| ensures !Less(r[j].name, r[i].name) {
      if i > 0 {
        assert r[i] == rest[i - 1] && r[j] == rest[j - 1];
      } else {
        assert r[j] == rest[j - 1];
      }
    }
    assert s == [s[0]] + s[1..];
  }

  /** `sorted { $0.name < $1.name }`: ascending by name, and a permutation of `s`. */
  function SortByName(s: seq<Ingredient>): (r: seq<Ingredient>)
    ensures SortedByName(r) && multiset(r) == multiset(s)
  {
    if s == [] then []
    else
      assert s == [s[0]] + s[1..];
      InsertByName(s[0], SortByName(s[1..]))
  }

  class RecipeDetailsViewModel {
    var recipeDetails: Option<RecipeDetails>
    var viewState: ViewState
    const recipe: Recipe
    /** Every value `viewState` has held, oldest first. */
    ghost var states: seq<ViewState>

    ghost predicate Valid()
      reads this
    {
      IsRun(states) && states[|states| - 1] == viewState
    }

    /** `imageURLString`: the summary's thumbnail, whatever has been fetched. */
    function ImageURLString(): (r: string)
      ensures r == recipe.thumbnail
    {
      recipe.thumbnail
    }

    /** `ingredients`: the stored details' ingredients sorted by name, or none before any
        details arrive. */
    function Ingredients(): (r: seq<Ingredient>)
      reads this
      ensures recipeDetails.None? ==> r == []
      ensures recipeDetails.Some? ==> SortedByName(r) && multiset(r) == multiset(recipeDetails.value.ingredients)
    {
      if recipeDetails.None? then [] else SortByName(recipeDetails.value.ingredients)
    }

    /** `instructions`, empty before any details arrive. */
    function Instructions(): (r: string)
      reads this
      ensures recipeDetails.None? ==> r == ""
      ensures recipeDetails.Some? ==> r == recipeDetails.value.instructions
    {
      if recipeDetails.None? then "" else recipeDetails.value.instructions
    }

    /** `name`, empty before any details arrive. */
    function Name(): (r: string)
      reads this
      ensures recipeDetails.None? ==> r == ""
      ensures recipeDetails.Some? ==> r == recipeDetails.value.name
    {
      if recipeDetails.None? then "" else recipeDetails.value.name
    }

    constructor(recipe: Recipe)
      ensures Valid()
      ensures this.recipe == recipe && recipeDetails == None && viewState == Idle && states == [Idle]
      ensures Ingredients() == [] && Instructions() == "" && Name() == "" && ImageURLString() == recipe.thumbnail
    {
      this.recipe := recipe;
      recipeDetails := None;
      viewState := Idle;
      states := [Idle];
    }

    /** `getRecipeDetails()`, with `fetchRecipeDetails` the service: the details asked for
        are this recipe's, by its id. The state is `loading` while the service is asked; on
        success the details are replaced wholesale and the state is `loaded`; on failure the
        previous details stay and the state is `error`. */
    method GetRecipeDetails(fetchRecipeDetails: string -> Result<RecipeDetails, FetchError>)
      requires Valid()
      modifies this
      ensures Valid()
      ensures states == old(states) + [Loading, viewState]
      ensures var response := fetchRecipeDetails(recipe.id);
        && (response.Success? ==>
              && viewState == Loaded && recipeDetails == Some(response.value)
              && Name() == response.value.name && Instructions() == response.value.instructions)
        && (response.Failure? ==> viewState == Error && recipeDetails == old(recipeDetails))
      ensures ImageURLString() == recipe.thumbnail
    {
      viewState := Loading;
      states := states + [viewState];
      var detailsResponse := fetchRecipeDetails(recipe.id);
      match detailsResponse {
        case Success(details) =>
          recipeDetails := Some(details);
          viewState := Loaded;
        case Failure(_) =>
          viewState := Error;
      }
      FetchExtendsRun(old(states), viewState);
      states := states + [viewState];
    }
  }
}
