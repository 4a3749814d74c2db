# DessertRecipes core, modelled in Dafny

DessertRecipes is an iOS app that lists dessert recipes from TheMealDB and shows the details
of one recipe. This project models the app's logic under its SwiftUI views and proves
properties of that model:

- **The recipe model and its JSON decoding** (`Models.swift`), in module `Models`.
  - The summary `Recipe` is read from its three fixed coding keys.
  - The `meals` envelopes: the listing keeps every summary, and the lookup keeps the first
    element of the array.
  - The dynamic-key decoder of `RecipeDetails` walks every key of the object. It recognises
    `strIngredient<digits>` and `strMeasure<digits>` keys and fills a map of
    `Ingredient.Builder` drafts, one slot at a time. It then keeps the drafts whose two halves
    are both non-blank.
  - `RecipeDetails.init(from:)` is a method with a loop over the keys, mutating `Builder`
    objects held in a `map<string, Builder>`.
  - Key order and dictionary order are arbitrary choices (`:|`). The result is characterised
    against an order-free draft map, `Drafts`, and proved independent of the order taken up
    to the order of the ingredients.
- **The fetch pipeline** (`RecipesService.swift`, `Extensions.swift`), in modules `Service`
  and `Extensions`.
  - `constructURL` fills a `URLComponents` record field by field.
  - `fetchValue` runs its guard chain: transport error, then HTTP status 200...299, then
    decode. Each failure maps to its error.
  - The transport is a `NetworkSession` object with a fixed answer per URL and a log of the
    URLs asked for.
- **The view models** (`HomeListViewModel.swift`, `RecipeDetailsViewModel.swift`,
  `ViewState.swift`), in modules `HomeList`, `Details` and `ViewStates`.
  - Both are classes whose fetch methods move `viewState` through idle, loading, then loaded
    or error. Every value the field takes is appended to a ghost history, so the history
    shows the field was `loading` while the service was asked.
  - The details screen's `ingredients` getter sorts by name. Its result is proved sorted and
    a permutation of the stored ingredients.

Supporting modules:

- `Wrappers`: Option and Result.
- `Json`: parsed JSON values and response bodies.
- `Text`:
  - `whitespacesAndNewlines` and trimming;
  - digits and `hasPrefix`;
  - the string order `<`, with lemmas that it is a strict total order.
- `Seqs`: facts about sequences without repetitions and about permutations, used for the
  order-independence proofs.

Where the app's own documentation and its code differ, the model follows the code:

- There is no "not found" error. An empty `meals` array gives `failedToDecode`.
- `RecipeDetails` has no area or video fields.
- A `meals` value that is null or missing makes the listing decode fail.
- The error `failedToFetchData`, used by one test double, does not exist in
  `RecipesService.swift`. A transport error is passed on as the transport's own error.

## Model

| member | source | states |
|---|---|---|
| Models.DecodeRecipe | DessertRecipes/Networking/Models.swift:15-31 | a summary decodes iff the value is an object whose `strMeal`, `strMealThumb` and `idMeal` are all strings; the object then agrees with the summary's encoding on those three keys |
| Models.EncodeRecipe | DessertRecipes/Networking/Models.swift:15-31 | a summary is written as an object with exactly the three coding keys, each holding a string |
| Models.RecipeRoundTrip | DessertRecipes/Networking/Models.swift:15-31 | a summary encoded under `strMeal`, `strMealThumb` and `idMeal` decodes back to itself |
| Models.RecipeIgnoresOtherKeys | DessertRecipes/Networking/Models.swift:26-30 | adding or changing any key other than the three coding keys leaves the decoded summary unchanged |
| Models.DecodeRecipes | DessertRecipes/Networking/Models.swift:7 | a `[Recipe]` array decodes iff every element does; then the result has the same length and the summary of element i at position i |
| Models.DecodeDessertRecipesResponse | DessertRecipes/Networking/Models.swift:4-12 | the listing decodes iff `meals` is an array whose elements all decode; the recipes are those summaries, one for one, in order |
| Models.EncodeDessertRecipesResponse | DessertRecipes/Networking/Models.swift:4-12 | a listing is written as an object whose only key is `meals`, an array with one encoded summary per recipe, in order |
| Models.DessertRecipesResponseRoundTrip | DessertRecipes/Networking/Models.swift:4-12 | encoding a listing and decoding it gives back the same recipes in the same order |
| Models.GetIDFromIngredient | DessertRecipes/Networking/Models.swift:160-175 | returns `Some(t)` exactly when the key is the component's prefix followed by the non-empty digit string `t`, and nothing else |
| Models.ClassifyKey | DessertRecipes/Networking/Models.swift:117-136 | a key is a name slot `t` iff it is `strIngredient` + digits `t`, a measurement slot `t` iff it is `strMeasure` + digits `t`, and otherwise no slot |
| Models.SlotTokensAreVerbatim | DessertRecipes/Networking/Models.swift:165-171 | `strIngredient1` and `strIngredient01` are slots `1` and `01`; `strIngredientX`, `strIngredient`, `strMeasure1a` and `idMeal` are no slot |
| Models.NameAndMeasureKeysDiffer | DessertRecipes/Networking/Models.swift:120-128 | no key is both a name key and a measurement key, so the `if` / `else if` never has to choose |
| Models.SlotKeyInjective | DessertRecipes/Networking/Models.swift:160-175 | a slot key determines its component and its token |
| Models.BuildIngredient | DessertRecipes/Networking/Models.swift:227-237 | an ingredient is built only from a draft with both halves, and holds the two strings untrimmed |
| Models.BuildIngredientSpec | DessertRecipes/Networking/Models.swift:227-237 | a draft builds iff both halves are present and each has a non-whitespace character |
| Models.Builder.constructor | DessertRecipes/Networking/Models.swift:205-208 | a new builder holds the given halves |
| Models.Builder.SetName | DessertRecipes/Networking/Models.swift:213-215 | replaces the name and leaves the measurement as it was |
| Models.Builder.SetMeasurement | DessertRecipes/Networking/Models.swift:220-222 | replaces the measurement and leaves the name as it was |
| Models.Builder.Build | DessertRecipes/Networking/Models.swift:227-237 | the builder yields an ingredient iff both halves are set and have content, and it is made of those two halves |
| Models.TokensMembership | DessertRecipes/Networking/Models.swift:117-136 | the draft map has a slot `t` iff `t` is a digit string and `strIngredient` + `t` or `strMeasure` + `t` is a key of the object |
| Models.DraftsIgnoreOtherKeys | DessertRecipes/Networking/Models.swift:117-136 | a key that is no slot adds no draft and changes none, whatever its value |
| Models.DraftsAssignSlot | DessertRecipes/Networking/Models.swift:120-134 | a new slot key sets its half of its slot's draft, creating the draft if needed, and changes no other draft |
| Models.DraftsStep | DessertRecipes/Networking/Models.swift:117-136 | one more key changes the draft map exactly as one iteration of the loop does |
| Models.NonStringHalfIsAbsent | DessertRecipes/Networking/Models.swift:121-129 | a slot key whose value is not a string (a null, say) still names its slot, but leaves that half absent instead of failing |
| Models.AssignHalf | DessertRecipes/Networking/Models.swift:123-134 | the builders afterwards hold the assigned draft map: the existing builder is updated in place, or one fresh builder is added |
| Models.ScanKey | DessertRecipes/Networking/Models.swift:117-136 | after one key, the builders hold the draft map of the keys seen so far plus that key |
| Models.PromoteOne | DessertRecipes/Networking/Models.swift:138 | visiting one more builder in `compactMap` appends its ingredient exactly when it builds |
| Models.BuildAll | DessertRecipes/Networking/Models.swift:138 | the ingredients are what the drafts build, one per building slot, in the order the slots were visited, without repetition |
| Models.DecodeRecipeDetails | DessertRecipes/Networking/Models.swift:106-139 | decoding succeeds iff the object has `idMeal`, `strInstructions` and `strMeal` as strings; then those fields are copied verbatim and the ingredients are the drafts of all keys promoted in some order |
| Models.DecodeRecipeDetailsResponse | DessertRecipes/Networking/Models.swift:42-51 | succeeds iff `meals` is a non-empty array whose every element decodes; the result is the decoding of the first element |
| Models.PromotionSize | DessertRecipes/Networking/Models.swift:115-138 | there are never more ingredients than slots |
| Models.PromotionLabels | DessertRecipes/Networking/Models.swift:138 | the slots of a promotion are distinct and exactly the building ones, and its ingredients are what they build, in slot order |
| Models.PromotionsAgree | DessertRecipes/Networking/Models.swift:115-138 | any two visiting orders give the same ingredients, each as often |
| Models.DecodingIsOrderIndependent | DessertRecipes/Networking/Models.swift:106-139 | two decodings of one object agree on id, instructions and name, and on the ingredients up to order |
| Models.IngredientFromSlotKeys | DessertRecipes/Networking/Models.swift:117-138 | each ingredient's name and measurement are the string values of its slot's two keys, both with content, and its slot is a digit string |
| Models.CompleteSlotIsKept | DessertRecipes/Networking/Models.swift:117-138 | a slot whose two keys both hold strings with content yields exactly that ingredient |
| Models.OnlySlot | DessertRecipes/Networking/Models.swift:138 | when one complete slot is the only candidate, its ingredient is the whole list |
| Models.FlourAndSugarExample | DessertRecipes/Networking/Models.swift:117-138 | `strIngredient1="Flour"`, `strMeasure1="2 cups"`, `strIngredient2="Sugar"` decode to the single ingredient Flour / 2 cups |
| Models.BlankNameExample | DessertRecipes/Networking/Models.swift:227-237 | `strIngredient3=""` with `strMeasure3="1 tsp"` decodes to no ingredient |
| Text.Trimmed | DessertRecipes/Networking/Models.swift:229-231 | the result is a run of the input with only whitespace before and after it, and it neither starts nor ends with whitespace |
| Text.TrimLeading | DessertRecipes/Networking/Models.swift:229-231 | the result is a suffix of the input; every character dropped is whitespace; the result does not start with whitespace |
| Text.TrimTrailing | DessertRecipes/Networking/Models.swift:229-231 | the result is a prefix of the input; every character dropped is whitespace; the result does not end with whitespace |
| Text.TrimmedEmptyIffBlank | DessertRecipes/Networking/Models.swift:229-231 | trimming gives `""` iff the string has no character outside `whitespacesAndNewlines` |
| Text.Less | DessertRecipes/Views/RecipeDetailsViewModel.swift:26 | `a < b` iff `a` is a proper prefix of `b`, or has the smaller character where the two first differ |
| Text.LessIrreflexive | DessertRecipes/Views/RecipeDetailsViewModel.swift:26 | no name sorts before itself |
| Text.LessTransitive | DessertRecipes/Views/RecipeDetailsViewModel.swift:26 | the name order is transitive |
| Text.LessAsymmetric | DessertRecipes/Views/RecipeDetailsViewModel.swift:26 | of two names, at most one sorts before the other |
| Text.LessTotal | DessertRecipes/Views/RecipeDetailsViewModel.swift:26 | of two different names, one sorts before the other |
| Extensions.IsHttpResponseValid | DessertRecipes/Helpers/Extensions.swift:7-9 | a response is valid iff its status code is in the 2xx class, that is 200 <= code <= 299 |
| Extensions.RangeBounds | DessertRecipes/Helpers/Extensions.swift:8 | 200 and 299 are accepted; 199, 300 and 404 are rejected |
| Extensions.DependsOnStatusOnly | DessertRecipes/Helpers/Extensions.swift:8 | two responses with the same status code are valid alike, whatever their headers |
| Service.RawValue | DessertRecipes/Networking/RecipesService.swift:117-120 | the listing's page is `filter` and the lookup's is `lookup`, so the two paths never share a page |
| Service.ComponentsURL | DessertRecipes/Networking/RecipesService.swift:113 | a URL, when one is formed, carries the components exactly |
| Service.ConstructURL | DessertRecipes/Networking/RecipesService.swift:96-120 | a built URL is https, host `www.themealdb.com`, path `/api/json/v1/1/` + `filter` or `lookup` + `.php`, with the one query item `c` or `i` holding the query as given |
| Service.EndpointDeterminesRequest | DessertRecipes/Networking/RecipesService.swift:102-120 | one URL is the endpoint of only one path and one query |
| Service.NetworkSession.constructor | DessertRecipes/Helpers/URLSessionExtension.swift:4-11 | a new session has been asked nothing yet |
| Service.NetworkSession.GetData | DessertRecipes/Helpers/URLSessionExtension.swift:4-11 | each call logs its URL and returns the session's answer for it |
| Service.Decode | DessertRecipes/Networking/RecipesService.swift:83 | the value decoded from a body is nil unless the body is JSON that decodes as the requested type, and then it is that decoding |
| Service.IsValidHttpResponse | DessertRecipes/Networking/RecipesService.swift:79 | a response that is not HTTP is never valid; an HTTP one is valid iff its status is 200...299 |
| Service.RecipesGuardsDetermineResult | DessertRecipes/Networking/RecipesService.swift:76-88 | for the listing, the guards admit exactly one result per transport outcome |
| Service.GuardErrors | DessertRecipes/Networking/RecipesService.swift:76-88 | a transport error comes back as itself; `invalidHttpResponse` iff the response is not HTTP or not 2xx, whatever the body; `failedToDecode` only after the status passed; never `invalidURL` |
| Service.RecipesService.constructor | DessertRecipes/Networking/RecipesService.swift:36-38 | the service uses the session it is given |
| Service.RecipesService.FetchValue | DessertRecipes/Networking/RecipesService.swift:76-88 | asks the session for the URL exactly once, and the result follows the guard chain: transport, then status, then decode |
| Service.RecipesService.FetchRecipes | DessertRecipes/Networking/RecipesService.swift:44-52 | without a URL, `invalidURL` and no request; otherwise one request for the `filter` endpoint with `c=Dessert`, and a result that follows the guard chain |
| Service.RecipesService.FetchRecipeDetails | DessertRecipes/Networking/RecipesService.swift:59-67 | without a URL, `invalidURL` and no request; otherwise one request for the `lookup` endpoint with `i` = the id unchanged, and on success the envelope's first element |
| ViewStates.FetchExtendsRun | DessertRecipes/Views/ViewState.swift:4-17 | a fetch extends a valid history by `loading` and then `loaded` or `error` |
| ViewStates.RunEndsSettled | DessertRecipes/Views/ViewState.swift:4-17 | a valid history ends in `idle` before any fetch and in `loaded` or `error` after one, never in `loading` |
| HomeList.HomeListViewModel.constructor | DessertRecipes/Views/HomeListViewModel.swift:7-20 | a new view model has no recipes and is idle |
| HomeList.HomeListViewModel.GetRecipes | DessertRecipes/Views/HomeListViewModel.swift:23-32 | goes through `loading` while the service is asked; on success the recipes are the response's exactly and the state is `loaded`; on error the recipes are kept and the state is `error` |
| Details.InsertByName | DessertRecipes/Views/RecipeDetailsViewModel.swift:26 | inserting into a list sorted by name keeps it sorted and adds exactly that ingredient |
| Details.SortByName | DessertRecipes/Views/RecipeDetailsViewModel.swift:24-27 | the result is sorted ascending by name and is a permutation of the input |
| Details.RecipeDetailsViewModel.ImageURLString | DessertRecipes/Views/RecipeDetailsViewModel.swift:19-21 | the image URL is the summary's thumbnail, whatever details have been fetched |
| Details.RecipeDetailsViewModel.Instructions | DessertRecipes/Views/RecipeDetailsViewModel.swift:30-32 | the fetched details' instructions, or empty before any details arrive |
| Details.RecipeDetailsViewModel.Name | DessertRecipes/Views/RecipeDetailsViewModel.swift:35-37 | the fetched details' name, or empty before any details arrive |
| Details.RecipeDetailsViewModel.Ingredients | DessertRecipes/Views/RecipeDetailsViewModel.swift:24-27 | the stored details' ingredients, sorted ascending by name and a permutation of them; empty before any details arrive |
| Details.RecipeDetailsViewModel.constructor | DessertRecipes/Views/RecipeDetailsViewModel.swift:7-47 | a new view model is idle with no details: no ingredients, empty instructions and name, and the summary's thumbnail as image URL |
| Details.RecipeDetailsViewModel.GetRecipeDetails | DessertRecipes/Views/RecipeDetailsViewModel.swift:49-59 | goes through `loading`, asks for exactly this recipe's id; on success the details are replaced wholesale, `loaded`, and name and instructions reflect them; on failure the old details stay and the state is `error`; the image URL is still the thumbnail |

## Left out

- Parsing JSON text (`JSONDecoder`) is not modelled. A body is either not JSON at all, or an
  already parsed value. Numbers are kept as their literal text.
- The order of `container.allKeys` and the iteration order of the draft dictionary are not
  modelled. Both are arbitrary choices, so the order of `RecipeDetails.ingredients` is left
  open, as it is in the app.
- Models.DecodeRecipeDetails: the ingredients are pinned down only up to their order, because
  the app's order depends on hashing.
- The random `UUID` of each `Ingredient` is not modelled. An ingredient is its name and
  measurement.
- Text.IsDigit: `\d` is taken as the ASCII digits 0-9, while Swift `Regex` also accepts other
  Unicode decimal digits.
- Models.GetIDFromIngredient: a match is only a key whose whole text is the prefix followed by
  digits. The `$` anchor's treatment of a trailing line break is not modelled.
- Text.IsWhitespaceOrNewline: `whitespacesAndNewlines` is a fixed list of Unicode scalars.
  Strings are sequences of Unicode scalars, not of grapheme clusters.
- Text.Less: Swift's `String <` compares by Unicode canonical equivalence. The model compares
  Unicode scalars lexicographically.
- Service.ComponentsURL: when `URLComponents.url` gives nil is left open, since that is
  library validation. Percent-encoding is not modelled, and a URL is the record of its
  components.
- The real transport, `URLSession.shared.data(from:)` behind the `NetworkSession` protocol,
  is not modelled. The `NetworkSession` class stands in for that protocol: it gives a fixed
  answer per URL and logs each request. A thrown transport error is an opaque code.
- `async`/`await`, `@MainActor` and `@Published` observation are not modelled. Calls run one
  after another.
- The `RecipesServiceable` protocol is not modelled. The view models receive the service's
  outcome as a parameter: the listing response for the home list, and a function of the
  recipe id for the details screen.
- The SwiftUI views, the app entry point, the test doubles and the tests are not part of this
  model.
- Encoding `RecipeDetails` and `Ingredient` back to JSON is not modelled. The app never does
  it. Only the summary listing's encoding is modelled, for its round trip.
