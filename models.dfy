/** The recipe data model and its JSON decoding: the fixed-key summary `Recipe`, the
    `meals` envelopes, and the dynamic-key decoder of `RecipeDetails` that pairs the
    numbered `strIngredient<n>` / `strMeasure<n>` fields into ingredients. */
module Models {
  import opened Wrappers
  import opened Json
  import opened Text
  import opened Seqs

  // ----- Coding keys --------------------------------------------------------------------

  const MealsKey := "meals"
  const MealNameKey := "strMeal"
  const ThumbnailKey := "strMealThumb"
  const MealIdKey := "idMeal"
  const InstructionsKey := "strInstructions"

  // ----- Entities -----------------------------------------------------------------------

  /** A recipe summary of the category listing. */
  datatype Recipe = Recipe(name: string, thumbnail: string, id: string)

  /** The listing envelope `{"meals": [...]}`. */
  datatype DessertRecipesResponse = DessertRecipesResponse(recipes: seq<Recipe>)

  /** An ingredient line: a name and its measurement. The random `UUID` the app attaches
      for list identity is not part of the model. */
  datatype Ingredient = Ingredient(name: string, measurement: string)

  /** The full details of one recipe. */
  datatype RecipeDetails = RecipeDetails(
    id: string, ingredients: seq<Ingredient>, instructions: string, name: string)

  /** The lookup envelope, which keeps the first element of `meals`. */
  datatype RecipeDetailsResponse = RecipeDetailsResponse(details: RecipeDetails)

  // ----- Recipe summaries (synthesised Decodable) ---------------------------------------

  /** `Recipe.init(from:)`: an object with the three coding keys as strings; any other key is
      ignored. */
  function DecodeRecipe(v: JsonValue): (r: Option<Recipe>)
    ensures r.Some? <==>
      v.JObject? && StringField(v.fields, MealNameKey).Some?
      && StringField(v.fields, ThumbnailKey).Some? && StringField(v.fields, MealIdKey).Some?
    ensures r.Some? ==> forall k :: k in EncodeRecipe(r.value).fields ==>
      k in v.fields && v.fields[k] == EncodeRecipe(r.value).fields[k]
  {
    if !v.JObject? then None
    else
      var name := StringField(v.fields, MealNameKey);
      var thumbnail := StringField(v.fields, ThumbnailKey);
      var id := StringField(v.fields, MealIdKey);
      if name.Some? && thumbnail.Some? && id.Some? then Some(Recipe(name.value, thumbnail.value, id.value))
      else None
  }

  /** `Recipe.encode(to:)`: the three coding keys and nothing else. */
  function EncodeRecipe(r: Recipe): (v: JsonValue)
    ensures v.JObject? && v.fields.Keys == {MealNameKey, ThumbnailKey, MealIdKey}
    ensures forall k :: k in v.fields ==> v.fields[k].JString?
  {
    JObject(map[MealNameKey := JString(r.name), ThumbnailKey := JString(r.thumbnail), MealIdKey := JString(r.id)])
  }

  lemma RecipeRoundTrip(r: Recipe)
    ensures DecodeRecipe(EncodeRecipe(r)) == Some(r)
  {
  }

  /** Keys other than the three coding keys do not affect the decoded summary. */
  lemma RecipeIgnoresOtherKeys(fields: map<string, JsonValue>, key: string, v: JsonValue)
    requires key != MealNameKey && key != ThumbnailKey && key != MealIdKey
    ensures DecodeRecipe(JObject(fields[key := v])) == DecodeRecipe(JObject(fields))
  {
  }

  /** Decoding `[Recipe]`: every element must decode, and then the list keeps the
      elements' order one for one. */
  function DecodeRecipes(items: seq<JsonValue>): (r: Option<seq<Recipe>>)
    ensures r.Some? <==> forall i :: 0 <= i < |items| ==> DecodeRecipe(items[i]).Some?
    ensures r.Some? ==> |r.value| == |items|
    ensures r.Some? ==> forall i :: 0 <= i < |items| ==> DecodeRecipe(items[i]) == Some(r.value[i])
  {
    if items == [] then Some([])
    else
      match DecodeRecipe(items[0])
      case None => None
      case Some(first) =>
        match DecodeRecipes(items[1..])
        case None => None
        case Some(rest) => Some([first] + rest)
  }

  /** The elements of the `meals` array of an envelope, when `meals` is present as an array. */
  function MealsArray(v: JsonValue): Option<seq<JsonValue>>
  {
    if v.JObject? && MealsKey in v.fields && v.fields[MealsKey].JArray? then Some(v.fields[MealsKey].items)
    else None
  }

  /** `DessertRecipesResponse.init(from:)`: `meals` must be an array (a null or missing list
      fails) whose every element is a summary. */
  function DecodeDessertRecipesResponse(v: JsonValue): (r: Option<DessertRecipesResponse>)
    ensures r.Some? <==> MealsArray(v).Some? && forall i :: 0 <= i < |MealsArray(v).value| ==> DecodeRecipe(MealsArray(v).value[i]).Some?
    ensures r.Some? ==> |r.value.recipes| == |MealsArray(v).value|
    ensures r.Some? ==> forall i :: 0 <= i < |r.value.recipes| ==> DecodeRecipe(MealsArray(v).value[i]) == Some(r.value.recipes[i])
  {
    match MealsArray(v)
    case None => None
    case Some(items) =>
      match DecodeRecipes(items)
      case None => None
      case Some(recipes) => Some(DessertRecipesResponse(recipes))
  }

  /** `DessertRecipesResponse.encode(to:)`. */
  function EncodeDessertRecipesResponse(resp: DessertRecipesResponse): (v: JsonValue)
    ensures v.JObject? && v.fields.Keys == {MealsKey}
    ensures MealsArray(v).Some? && |MealsArray(v).value| == |resp.recipes|
    ensures forall i :: 0 <= i < |resp.recipes| ==> MealsArray(v).value[i] == EncodeRecipe(resp.recipes[i])
  {
    JObject(map[MealsKey := JArray(seq(|resp.recipes|, i requires 0 <= i < |resp.recipes| => EncodeRecipe(resp.recipes[i])))])
  }

  /** Encoding a listing and decoding it again gives back the same recipes in the same order. */
  lemma DessertRecipesResponseRoundTrip(resp: DessertRecipesResponse)
    ensures DecodeDessertRecipesResponse(EncodeDessertRecipesResponse(resp)) == Some(resp)
  {
    var items := MealsArray(EncodeDessertRecipesResponse(resp)).value;
    forall i | 0 <= i < |items| ensures DecodeRecipe(items[i]) == Some(resp.recipes[i]) {
      RecipeRoundTrip(resp.recipes[i]);
    }
    var r := DecodeDessertRecipesResponse(EncodeDessertRecipesResponse(resp));
    assert r.value.recipes == resp.recipes;
  }

  // ----- Slot keys (getIDFromIngredient) ------------------------------------------------

  /** The two halves of an ingredient, each read from its own numbered key. */
  datatype IngredientComponentType = IngredientName | Measurement

  /** The prefix of the regular expressions `^strIngredient(\d+)$` and `^strMeasure(\d+)$`. */
  function Prefix(component: IngredientComponentType): string
  {
    match component
    case IngredientName => "strIngredient"
    case Measurement => "strMeasure"
  }

  /** `key` is the component's prefix followed by the slot token `token`, a non-empty run of
      digits. This is the whole-key match of the source's regular expression. */
  predicate IsSlotKey(key: string, component: IngredientComponentType, token: string)
  {
    IsToken(token) && key == Prefix(component) + token
  }

  /** `getIDFromIngredient(with:type:)`: the digits after the prefix, verbatim, when the key
      is the prefix followed by one or more digits and nothing else. */
  function GetIDFromIngredient(key: string, component: IngredientComponentType): (r: Option<string>)
    ensures forall token :: IsSlotKey(key, component, token) <==> r == Some(token)
  {
    var p := Prefix(component);
    if |key| > |p| && key[..|p|] == p && AllDigits(key[|p|..]) then
      assert key == p + key[|p|..];
      Some(key[|p|..])
    else
      None
  }

  /** What one key of the details object contributes to the draft map. */
  datatype SlotKey = NameKey(token: string) | MeasureKey(token: string) | OtherKey

  /** The `if` / `else if` that dispatches one key of `container.allKeys`. */
  function ClassifyKey(key: string): (r: SlotKey)
    ensures forall token :: r == NameKey(token) <==> IsSlotKey(key, IngredientName, token)
    ensures forall token :: r == MeasureKey(token) <==> IsSlotKey(key, Measurement, token)
  {
    var name := GetIDFromIngredient(key, IngredientName);
    var measure := GetIDFromIngredient(key, Measurement);
    if HasPrefix(key, Prefix(IngredientName)) && name.Some? then
      assert forall t :: !IsSlotKey(key, Measurement, t) by {
        forall t { NameAndMeasureKeysDiffer(name.value, t); }
      }
      NameKey(name.value)
    else if HasPrefix(key, Prefix(Measurement)) && measure.Some? then
      assert forall t :: !IsSlotKey(key, IngredientName, t) by {
        forall t { NameAndMeasureKeysDiffer(t, measure.value); }
      }
      MeasureKey(measure.value)
    else
      OtherKey
  }

  /** The slot token is the digit string verbatim: `1` and `01` are different slots, and a
      key with anything but digits after the prefix is no slot at all. */
  lemma SlotTokensAreVerbatim()
    ensures ClassifyKey("strIngredient1") == NameKey("1")
    ensures ClassifyKey("strIngredient01") == NameKey("01")
    ensures ClassifyKey("strMeasure01") == MeasureKey("01")
    ensures ClassifyKey("strIngredientX").OtherKey?
    ensures ClassifyKey("strIngredient").OtherKey?
    ensures ClassifyKey("strMeasure1a").OtherKey?
    ensures ClassifyKey(MealIdKey).OtherKey?
  {
    assert IsSlotKey("strIngredient1", IngredientName, "1");
    assert IsSlotKey("strIngredient01", IngredientName, "01");
    assert IsSlotKey("strMeasure01", Measurement, "01");
    assert !IsDigit("X"[0]) && !IsDigit("1a"[1]);
    forall t ensures !IsSlotKey("strIngredient", IngredientName, t) && !IsSlotKey("strIngredient", Measurement, t) {
      assert "strIngredient" == Prefix(IngredientName) + "";
      NameAndMeasureKeysDiffer("", t);
    }
  }

  // ----- Drafts and Ingredient.Builder --------------------------------------------------

  /** The value held by an `Ingredient.Builder`: two optional halves. */
  datatype Draft = Draft(name: Option<string>, measurement: Option<string>)

  /** `Builder.build()`: promote a draft whose halves are both present and non-empty after
      trimming; the ingredient carries the two strings as they were, untrimmed. */
  function BuildIngredient(d: Draft): (r: Option<Ingredient>)
    ensures r.Some? ==> d.name.Some? && d.measurement.Some?
    ensures r.Some? ==> r.value == Ingredient(d.name.value, d.measurement.value)
  {
    if d.name.Some? && Trimmed(d.name.value) != "" && d.measurement.Some? && Trimmed(d.measurement.value) != "" then
      Some(Ingredient(d.name.value, d.measurement.value))
    else
      None
  }

  /** A draft builds exactly when both halves are present and each has a character that is
      not whitespace. */
  lemma BuildIngredientSpec(d: Draft)
    ensures BuildIngredient(d).Some? <==>
      d.name.Some? && HasContent(d.name.value) && d.measurement.Some? && HasContent(d.measurement.value)
  {
    if d.name.Some? {
      TrimmedEmptyIffBlank(d.name.value);
    }
    if d.measurement.Some? {
      TrimmedEmptyIffBlank(d.measurement.value);
    }
  }

  /** `Ingredient.Builder`, the mutable draft of one slot. */
  class Builder {
    var name: Option<string>
    var measurement: Option<string>

    /** `init(name:measurement:)`; the source's defaults for an omitted half are `nil`. */
    constructor (name: Option<string>, measurement: Option<string>)
      ensures this.name == name && this.measurement == measurement
    {
      this.name := name;
      this.measurement := measurement;
    }

    method SetName(name: Option<string>)
      modifies this
      ensures this.name == name && measurement == old(measurement)
    {
      this.name := name;
    }

    method SetMeasurement(measurement: Option<string>)
      modifies this
      ensures this.measurement == measurement && name == old(name)
    {
      this.measurement := measurement;
    }

    function Contents(): Draft
      reads this
    {
      Draft(name, measurement)
    }

    /** `build()`: an ingredient exactly when both halves are set and have content. */
    function Build(): (r: Option<Ingredient>)
      reads this
      ensures r.Some? ==> name.Some? && measurement.Some? && r.value == Ingredient(name.value, measurement.value)
      ensures r.Some? <==> name.Some? && HasContent(name.value) && measurement.Some? && HasContent(measurement.value)
    {
      BuildIngredientSpec(Contents());
      BuildIngredient(Contents())
    }
  }

  // ----- The draft map, independent of key order ----------------------------------------

  /** The slot tokens named by a set of keys. */
  function Tokens(keys: set<string>): set<string>
  {
    set k | k in keys && !ClassifyKey(k).OtherKey? :: ClassifyKey(k).token
  }

  /** The half of slot `token` of the given component that the object supplies: absent when
      the key is missing or its value is not a string. */
  function Half(fields: map<string, JsonValue>, component: IngredientComponentType, token: string): Option<string>
  {
    StringField(fields, Prefix(component) + token)
  }

  /** The draft map that scanning every key of `fields` produces, in whatever order: one
      draft per slot token named by some key, holding the string values of that slot's two
      keys. */
  function Drafts(fields: map<string, JsonValue>): map<string, Draft>
  {
    map token | token in Tokens(fields.Keys) :: Draft(Half(fields, IngredientName, token), Half(fields, Measurement, token))
  }

  /** A value of a slot token's key: a non-empty run of digits. */
  predicate IsToken(token: string)
  {
    token != "" && AllDigits(token)
  }

  /** No key is both a name key and a measurement key. */
  lemma NameAndMeasureKeysDiffer(t1: string, t2: string)
    ensures Prefix(IngredientName) + t1 != Prefix(Measurement) + t2
  {
    assert (Prefix(IngredientName) + t1)[3] == 'I';
    assert (Prefix(Measurement) + t2)[3] == 'M';
  }

  /** A slot key names its component and its token unambiguously. */
  lemma SlotKeyInjective(c1: IngredientComponentType, t1: string, c2: IngredientComponentType, t2: string)
    requires IsToken(t1) && IsToken(t2) && Prefix(c1) + t1 == Prefix(c2) + t2
    ensures c1 == c2 && t1 == t2
  {
    NameAndMeasureKeysDiffer(t1, t2);
    NameAndMeasureKeysDiffer(t2, t1);
    var k := Prefix(c1) + t1;
    assert t1 == k[|Prefix(c1)|..] == t2;
  }

  /** A token is in `Tokens(keys)` exactly when one of its two slot keys is. */
  lemma TokensMembership(keys: set<string>, token: string)
    ensures token in Tokens(keys) <==>
      IsToken(token) && (Prefix(IngredientName) + token in keys || Prefix(Measurement) + token in keys)
  {
    if token in Tokens(keys) {
      var k :| k in keys && !ClassifyKey(k).OtherKey? && ClassifyKey(k).token == token;
      if ClassifyKey(k).NameKey? {
        assert IsSlotKey(k, IngredientName, token);
      } else {
        assert IsSlotKey(k, Measurement, token);
      }
    } else if IsToken(token) {
      var n, m := Prefix(IngredientName) + token, Prefix(Measurement) + token;
      assert IsSlotKey(n, IngredientName, token) && IsSlotKey(m, Measurement, token);
      assert ClassifyKey(n) == NameKey(token) && ClassifyKey(m) == MeasureKey(token);
    }
  }

  /** A builder that has seen neither of its keys. */
  const EmptyDraft := Draft(None, None)

  /** The draft with one half replaced. */
  function WithHalf(d: Draft, component: IngredientComponentType, x: Option<string>): Draft
  {
    match component
    case IngredientName => d.(name := x)
    case Measurement => d.(measurement := x)
  }

  /** The body of the loop over `container.allKeys` for a slot key: `setName` /
      `setMeasurement` on the slot's builder if there is one, otherwise a new builder holding
      only this half. */
  function Assign(drafts: map<string, Draft>, token: string, component: IngredientComponentType, x: Option<string>): map<string, Draft>
  {
    drafts[token := WithHalf(if token in drafts then drafts[token] else EmptyDraft, component, x)]
  }

  /** Adding a key with no slot changes no draft. */
  lemma DraftsIgnoreOtherKeys(fields: map<string, JsonValue>, key: string, v: JsonValue)
    requires ClassifyKey(key).OtherKey?
    ensures Drafts(fields[key := v]) == Drafts(fields)
  {
    var fields' := fields[key := v];
    forall u ensures u in Tokens(fields'.Keys) <==> u in Tokens(fields.Keys) {
      TokensMembership(fields'.Keys, u);
      TokensMembership(fields.Keys, u);
      if IsToken(u) {
        assert !IsSlotKey(key, IngredientName, u) && !IsSlotKey(key, Measurement, u);
      }
    }
    forall u | u in Tokens(fields.Keys)
      ensures Half(fields', IngredientName, u) == Half(fields, IngredientName, u)
      ensures Half(fields', Measurement, u) == Half(fields, Measurement, u)
    {
      TokensMembership(fields.Keys, u);
      assert !IsSlotKey(key, IngredientName, u) && !IsSlotKey(key, Measurement, u);
    }
  }

  /** Adding the key of half `component` of slot `token`, not seen before, assigns that half
      of that slot and changes no other draft. */
  lemma DraftsAssignSlot(fields: map<string, JsonValue>, key: string, v: JsonValue, component: IngredientComponentType, token: string)
    requires key !in fields && IsSlotKey(key, component, token)
    ensures Drafts(fields[key := v]) == Assign(Drafts(fields), token, component, StringValue(v))
  {
    var fields' := fields[key := v];
    var d, d' := Drafts(fields), Drafts(fields');
    var e := Assign(d, token, component, StringValue(v));
    forall u ensures u in d' <==> u in e {
      TokensMembership(fields'.Keys, u);
      TokensMembership(fields.Keys, u);
      if IsToken(u) && u != token {
        if Prefix(IngredientName) + u == key {
          SlotKeyInjective(IngredientName, u, component, token);
        }
        if Prefix(Measurement) + u == key {
          SlotKeyInjective(Measurement, u, component, token);
        }
      }
    }
    forall u | u in d' ensures d'[u] == e[u] {
      TokensMembership(fields.Keys, u);
      TokensMembership(fields'.Keys, u);
      if u == token {
        if token !in d {
          assert Prefix(IngredientName) + token !in fields && Prefix(Measurement) + token !in fields;
        }
        match component
        case IngredientName =>
          assert Prefix(Measurement) + token != key by {
            if Prefix(Measurement) + token == key {
              SlotKeyInjective(Measurement, token, component, token);
            }
          }
        case Measurement =>
          assert Prefix(IngredientName) + token != key by {
            if Prefix(IngredientName) + token == key {
              SlotKeyInjective(IngredientName, token, component, token);
            }
          }
      } else {
        assert Prefix(IngredientName) + u != key by {
          if Prefix(IngredientName) + u == key {
            SlotKeyInjective(IngredientName, u, component, token);
          }
        }
        assert Prefix(Measurement) + u != key by {
          if Prefix(Measurement) + u == key {
            SlotKeyInjective(Measurement, u, component, token);
          }
        }
      }
    }
    assert d' == e;
  }

  /** One iteration of the scan over `container.allKeys`, for a key not seen before: a name
      key assigns the name of its slot's draft, a measurement key its measurement, and any
      other key changes nothing. */
  lemma DraftsStep(fields: map<string, JsonValue>, key: string, v: JsonValue)
    requires key !in fields
    ensures Drafts(fields[key := v]) ==
      match ClassifyKey(key)
      case OtherKey => Drafts(fields)
      case NameKey(t) => Assign(Drafts(fields), t, IngredientName, StringValue(v))
      case MeasureKey(t) => Assign(Drafts(fields), t, Measurement, StringValue(v))
  {
    match ClassifyKey(key)
    case OtherKey => DraftsIgnoreOtherKeys(fields, key, v);
    case NameKey(t) => DraftsAssignSlot(fields, key, v, IngredientName, t);
    case MeasureKey(t) => DraftsAssignSlot(fields, key, v, Measurement, t);
  }

  // ----- Promotion of drafts to ingredients ---------------------------------------------

  /** `ingredients` is `compactMap { $0.value.build() }` over `drafts` in some iteration
      order: `slots` lists, in output order and without repetition, exactly the slots whose
      draft builds, and each ingredient is the one built from its slot's draft. */
  ghost predicate IsPromotion(drafts: map<string, Draft>, slots: seq<string>, ingredients: seq<Ingredient>)
  {
    && |slots| == |ingredients|
    && (forall i, j :: 0 <= i < j < |slots| ==> slots[i] != slots[j])
    && (forall i :: 0 <= i < |slots| ==> slots[i] in drafts && BuildIngredient(drafts[slots[i]]) == Some(ingredients[i]))
    && (forall t :: t in drafts && BuildIngredient(drafts[t]).Some? ==> t in slots)
  }

  /** The three fixed keys that `RecipeDetails.init(from:)` decodes with `try`. */
  predicate HasRequiredFields(v: JsonValue)
  {
    && v.JObject?
    && StringField(v.fields, MealIdKey).Some?
    && StringField(v.fields, InstructionsKey).Some?
    && StringField(v.fields, MealNameKey).Some?
  }

  /** `d` is a result `RecipeDetails.init(from:)` can produce from `v`: the fixed fields
      verbatim, and the ingredients promoted from the drafts of all keys in some order. */
  ghost predicate DecodesTo(v: JsonValue, d: RecipeDetails)
  {
    && v.JObject?
    && StringField(v.fields, MealIdKey) == Some(d.id)
    && StringField(v.fields, InstructionsKey) == Some(d.instructions)
    && StringField(v.fields, MealNameKey) == Some(d.name)
    && exists slots :: IsPromotion(Drafts(v.fields), slots, d.ingredients)
  }

  /** The builders of the draft map hold exactly `drafts`, one distinct builder per slot. */
  ghost predicate HoldsDrafts(dictionary: map<string, Builder>, drafts: map<string, Draft>)
    reads dictionary.Values
  {
    && dictionary.Keys == drafts.Keys
    && (forall t :: t in dictionary ==> dictionary[t].Contents() == drafts[t])
    && (forall t, u :: t in dictionary && u in dictionary && t != u ==> dictionary[t] != dictionary[u])
  }

  /** The `if let builder = ingredientDictionary[id]` branch of the scan: set the half on
      the slot's builder, or store a new builder that holds only this half. */
  method AssignHalf(dictionary: map<string, Builder>, token: string, component: IngredientComponentType,
                    x: Option<string>, ghost drafts: map<string, Draft>)
    returns (dictionary': map<string, Builder>)
    requires HoldsDrafts(dictionary, drafts)
    modifies dictionary.Values
    ensures HoldsDrafts(dictionary', Assign(drafts, token, component, x))
    ensures forall t :: t in dictionary' ==> (t in dictionary && dictionary'[t] == dictionary[t]) || fresh(dictionary'[t])
  {
    if token in dictionary {
      var builder := dictionary[token];
      match component {
        case IngredientName => builder.SetName(x);
        case Measurement => builder.SetMeasurement(x);
      }
      dictionary' := dictionary;
    } else {
      var builder;
      match component {
        case IngredientName => builder := new Builder(x, None);
        case Measurement => builder := new Builder(None, x);
      }
      dictionary' := dictionary[token := builder];
    }
  }

  /** The body of `for key in container.allKeys`: a name or measurement key assigns its
      half of its slot; any other key is skipped. */
  method ScanKey(dictionary: map<string, Builder>, key: string, value: JsonValue, ghost seen: map<string, JsonValue>)
    returns (dictionary': map<string, Builder>)
    requires key !in seen && HoldsDrafts(dictionary, Drafts(seen))
    modifies dictionary.Values
    ensures HoldsDrafts(dictionary', Drafts(seen[key := value]))
    ensures forall t :: t in dictionary' ==> (t in dictionary && dictionary'[t] == dictionary[t]) || fresh(dictionary'[t])
  {
    DraftsStep(seen, key, value);
    match ClassifyKey(key) {
      case NameKey(token) =>
        dictionary' := AssignHalf(dictionary, token, IngredientName, StringValue(value), Drafts(seen));
      case MeasureKey(token) =>
        dictionary' := AssignHalf(dictionary, token, Measurement, StringValue(value), Drafts(seen));
      case OtherKey =>
        dictionary' := dictionary;
    }
  }

  /** What `build()` gives for each slot of the draft map. */
  ghost function Outcomes(drafts: map<string, Draft>): map<string, Option<Ingredient>>
  {
    map t | t in drafts :: BuildIngredient(drafts[t])
  }

  /** `IsPromotion` for the part `visited` of the draft map that `compactMap` has been
      through so far. */
  ghost predicate PromotedSoFar(drafts: map<string, Draft>, visited: set<string>, slots: seq<string>, ingredients: seq<Ingredient>)
  {
    SelectedSoFar(Outcomes(drafts), visited, slots, ingredients)
  }

  /** Visiting one more draft appends its ingredient when it builds. */
  lemma PromoteOne(drafts: map<string, Draft>, visited: set<string>, slots: seq<string>, ingredients: seq<Ingredient>, token: string)
    requires PromotedSoFar(drafts, visited, slots, ingredients) && token in drafts && token !in visited
    ensures var b := BuildIngredient(drafts[token]);
      PromotedSoFar(drafts, visited + {token},
        if b.Some? then slots + [token] else slots,
        if b.Some? then ingredients + [b.value] else ingredients)
  {
    SelectOne(Outcomes(drafts), visited, slots, ingredients, token);
  }

  /** Once every draft has been visited, the result is a promotion of the whole map. */
  lemma PromotedAll(drafts: map<string, Draft>, slots: seq<string>, ingredients: seq<Ingredient>)
    requires PromotedSoFar(drafts, drafts.Keys, slots, ingredients)
    ensures IsPromotion(drafts, slots, ingredients)
  {
  }

  /** `compactMap { $0.value.build() }` over the builders, visited in no fixed order. */
  method BuildAll(dictionary: map<string, Builder>, ghost drafts: map<string, Draft>)
    returns (ingredients: seq<Ingredient>, ghost slots: seq<string>)
    requires HoldsDrafts(dictionary, drafts)
    ensures IsPromotion(drafts, slots, ingredients)
  {
    ingredients, slots := [], [];
    var pending := dictionary.Keys;
    ghost var visited: set<string> := {};
    while pending != {}
      invariant pending <= drafts.Keys && visited <= drafts.Keys
      invariant forall t :: t in drafts ==> (t in visited <==> t !in pending)
      invariant PromotedSoFar(drafts, visited, slots, ingredients)
      decreases pending
    {
      var token :| token in pending;
      var built := dictionary[token].Build();
      PromoteOne(drafts, visited, slots, ingredients, token);
      if built.Some? {
        ingredients := ingredients + [built.value];
        slots := slots + [token];
      }
      visited := visited + {token};
      pending := pending - {token};
    }
    assert visited == drafts.Keys;
    PromotedAll(drafts, slots, ingredients);
  }

  /** `RecipeDetails.init(from:)`. The keys of the object are visited in no fixed order
      (`container.allKeys`), and so are the entries of the draft map; `slots` records the
      order that was taken. */
  method DecodeRecipeDetails(v: JsonValue) returns (r: Option<RecipeDetails>, ghost slots: seq<string>)
    ensures r.Some? <==> HasRequiredFields(v)
    ensures r.Some? ==> DecodesTo(v, r.value) && IsPromotion(Drafts(v.fields), slots, r.value.ingredients)
  {
    slots := [];
    if !v.JObject? {
      return None, slots;
    }
    var fields := v.fields;
    var id := StringField(fields, MealIdKey);
    var instructions := StringField(fields, InstructionsKey);
    var name := StringField(fields, MealNameKey);
    if id.None? || instructions.None? || name.None? {
      return None, slots;
    }

    var ingredientDictionary: map<string, Builder> := map[];
    var remaining := fields.Keys;
    ghost var seen: map<string, JsonValue> := map[];
    while remaining != {}
      invariant remaining <= fields.Keys
      invariant seen.Keys == fields.Keys - remaining
      invariant forall k :: k in seen ==> seen[k] == fields[k]
      invariant HoldsDrafts(ingredientDictionary, Drafts(seen))
      invariant forall t :: t in ingredientDictionary ==> fresh(ingredientDictionary[t])
      decreases remaining
    {
      var key :| key in remaining;
      ingredientDictionary := ScanKey(ingredientDictionary, key, fields[key], seen);
      seen := seen[key := fields[key]];
      remaining := remaining - {key};
    }
    assert seen == fields;

    var ingredients;
    ingredients, slots := BuildAll(ingredientDictionary, Drafts(fields));
    r := Some(RecipeDetails(id.value, ingredients, instructions.value, name.value));
  }

  /** `meals` is a non-empty array all of whose elements hold the three required fields. */
  predicate CanDecodeDetailsResponse(v: JsonValue)
  {
    && MealsArray(v).Some?
    && |MealsArray(v).value| > 0
    && forall i :: 0 <= i < |MealsArray(v).value| ==> HasRequiredFields(MealsArray(v).value[i])
  }

  /** `RecipeDetailsResponse.init(from:)`: every element of `meals` must decode, and the
      first one is kept; an empty list fails like a malformed one. */
  method DecodeRecipeDetailsResponse(v: JsonValue) returns (r: Option<RecipeDetailsResponse>)
    ensures r.Some? <==> CanDecodeDetailsResponse(v)
    ensures r.Some? ==> DecodesTo(MealsArray(v).value[0], r.value.details)
  {
    var meals := MealsArray(v);
    if meals.None? {
      return None;
    }
    var items := meals.value;
    var first: Option<RecipeDetails> := None;
    var i := 0;
    while i < |items|
      invariant 0 <= i <= |items|
      invariant forall k :: 0 <= k < i ==> HasRequiredFields(items[k])
      invariant first.Some? <==> i > 0
      invariant first.Some? ==> DecodesTo(items[0], first.value)
    {
      var details, _ := DecodeRecipeDetails(items[i]);
      if details.None? {
        return None;
      }
      if i == 0 {
        first := details;
      }
      i := i + 1;
    }
    if first.None? {
      return None;
    }
    r := Some(RecipeDetailsResponse(first.value));
  }

  // ----- What the decoded ingredients are ------------------------------------------------

  /** There are never more ingredients than slots. */
  lemma PromotionSize(drafts: map<string, Draft>, slots: seq<string>, ingredients: seq<Ingredient>)
    requires IsPromotion(drafts, slots, ingredients)
    ensures |ingredients| <= |drafts|
  {
    DistinctWithin(slots, drafts.Keys);
  }

  /** The ingredient each slot's draft builds, for the slots whose draft builds one. */
  ghost function Built(drafts: map<string, Draft>): map<string, Ingredient> {
    map t | t in drafts && BuildIngredient(drafts[t]).Some? :: BuildIngredient(drafts[t]).value
  }

  lemma PromotionLabels(drafts: map<string, Draft>, slots: seq<string>, ingredients: seq<Ingredient>)
    requires IsPromotion(drafts, slots, ingredients)
    ensures Distinct(slots) && (forall t :: t in slots <==> t in Built(drafts))
    ensures LabelsOf(Built(drafts), slots) == ingredients
  {
    LabelsOfPointwise(Built(drafts), slots, ingredients);
  }

  /** The ingredients do not depend on the order taken: any two promotions of the same
      drafts hold the same ingredients, each as often. */
  lemma PromotionsAgree(drafts: map<string, Draft>, s1: seq<string>, i1: seq<Ingredient>, s2: seq<string>, i2: seq<Ingredient>)
    requires IsPromotion(drafts, s1, i1) && IsPromotion(drafts, s2, i2)
    ensures multiset(i1) == multiset(i2)
  {
    PromotionLabels(drafts, s1, i1);
    PromotionLabels(drafts, s2, i2);
    SameElementsSameMultiset(s1, s2);
    LabelsOfPermutation(Built(drafts), s1, s2);
  }

  /** Each ingredient is the pair of strings stored under its slot's two keys, both with
      content, and its slot token is a run of digits. */
  lemma IngredientFromSlotKeys(fields: map<string, JsonValue>, slots: seq<string>, ingredients: seq<Ingredient>, i: nat)
    requires IsPromotion(Drafts(fields), slots, ingredients) && i < |ingredients|
    ensures IsToken(slots[i])
    ensures StringField(fields, Prefix(IngredientName) + slots[i]) == Some(ingredients[i].name)
    ensures StringField(fields, Prefix(Measurement) + slots[i]) == Some(ingredients[i].measurement)
    ensures HasContent(ingredients[i].name) && HasContent(ingredients[i].measurement)
  {
    TokensMembership(fields.Keys, slots[i]);
    BuildIngredientSpec(Drafts(fields)[slots[i]]);
  }

  /** A slot whose two keys both hold strings with content yields exactly that ingredient. */
  lemma CompleteSlotIsKept(fields: map<string, JsonValue>, slots: seq<string>, ingredients: seq<Ingredient>,
                           token: string, name: string, measurement: string)
    requires IsPromotion(Drafts(fields), slots, ingredients) && IsToken(token)
    requires StringField(fields, Prefix(IngredientName) + token) == Some(name) && HasContent(name)
    requires StringField(fields, Prefix(Measurement) + token) == Some(measurement) && HasContent(measurement)
    ensures exists i :: 0 <= i < |slots| && slots[i] == token && ingredients[i] == Ingredient(name, measurement)
  {
    TokensMembership(fields.Keys, token);
    var d := Drafts(fields)[token];
    BuildIngredientSpec(d);
    assert token in slots;
  }

  /** A slot key whose value is not a string (a null, say) does not fail the decode: that
      half of the slot's draft is simply absent. */
  lemma NonStringHalfIsAbsent(fields: map<string, JsonValue>, component: IngredientComponentType, token: string)
    requires IsToken(token) && Prefix(component) + token in fields && !fields[Prefix(component) + token].JString?
    ensures token in Drafts(fields)
    ensures component == IngredientName ==> Drafts(fields)[token].name == None
    ensures component == Measurement ==> Drafts(fields)[token].measurement == None
  {
    TokensMembership(fields.Keys, token);
  }

  /** Two decodings of the same object agree on every field, and on the ingredients up to
      their order. */
  lemma DecodingIsOrderIndependent(v: JsonValue, d1: RecipeDetails, d2: RecipeDetails)
    requires DecodesTo(v, d1) && DecodesTo(v, d2)
    ensures d1.id == d2.id && d1.instructions == d2.instructions && d1.name == d2.name
    ensures multiset(d1.ingredients) == multiset(d2.ingredients)
  {
    var s1 :| IsPromotion(Drafts(v.fields), s1, d1.ingredients);
    var s2 :| IsPromotion(Drafts(v.fields), s2, d2.ingredients);
    PromotionsAgree(Drafts(v.fields), s1, d1.ingredients, s2, d2.ingredients);
  }

  /** When every kept slot is one given complete slot, that slot's ingredient is the only one. */
  lemma OnlySlot(fields: map<string, JsonValue>, slots: seq<string>, ingredients: seq<Ingredient>,
                 token: string, name: string, measurement: string)
    requires IsPromotion(Drafts(fields), slots, ingredients) && IsToken(token)
    requires StringField(fields, Prefix(IngredientName) + token) == Some(name) && HasContent(name)
    requires StringField(fields, Prefix(Measurement) + token) == Some(measurement) && HasContent(measurement)
    requires forall i :: 0 <= i < |slots| ==> slots[i] == token
    ensures ingredients == [Ingredient(name, measurement)]
  {
    CompleteSlotIsKept(fields, slots, ingredients, token, name, measurement);
    var i :| 0 <= i < |slots| && slots[i] == token && ingredients[i] == Ingredient(name, measurement);
    DistinctRepeated(slots, token);
  }

  // ----- Worked examples ------------------------------------------------------------------

  const FlourAndSugar: map<string, JsonValue> := map[
    MealIdKey := JString("53049"),
    MealNameKey := JString("Apam balik"),
    InstructionsKey := JString("Mix."),
    "strIngredient1" := JString("Flour"),
    "strMeasure1" := JString("2 cups"),
    "strIngredient2" := JString("Sugar")]

  lemma FlourAndSugarMeasureKeys(t: string)
    requires Prefix(Measurement) + t in FlourAndSugar
    ensures t == "1"
  {
    var k := Prefix(Measurement) + t;
    assert k[..10] == "strMeasure";
    assert k[0] == 's' && k[3] == 'M' && |k| >= 10;
    assert k == "strMeasure1";
    assert k[10..] == t;
  }

  /** A slot with a name and a measurement gives an ingredient; a name without a measurement
      is dropped without failing the decode. */
  lemma FlourAndSugarExample(d: RecipeDetails)
    requires DecodesTo(JObject(FlourAndSugar), d)
    ensures d.ingredients == [Ingredient("Flour", "2 cups")]
  {
    var slots :| IsPromotion(Drafts(FlourAndSugar), slots, d.ingredients);
    forall i | 0 <= i < |slots| ensures slots[i] == "1" {
      IngredientFromSlotKeys(FlourAndSugar, slots, d.ingredients, i);
      FlourAndSugarMeasureKeys(slots[i]);
    }
    assert IsToken("1") && !IsWhitespaceOrNewline("Flour"[0]) && !IsWhitespaceOrNewline("2 cups"[0]);
    assert Prefix(IngredientName) + "1" == "strIngredient1" && Prefix(Measurement) + "1" == "strMeasure1";
    OnlySlot(FlourAndSugar, slots, d.ingredients, "1", "Flour", "2 cups");
  }

  const BlankName: map<string, JsonValue> := map[
    MealIdKey := JString("53049"),
    MealNameKey := JString("Apam balik"),
    InstructionsKey := JString("Mix."),
    "strIngredient3" := JString(""),
    "strMeasure3" := JString("1 tsp")]

  lemma BlankNameMeasureKeys(t: string)
    requires Prefix(Measurement) + t in BlankName
    ensures t == "3"
  {
    var k := Prefix(Measurement) + t;
    assert k[..10] == "strMeasure";
    assert k[0] == 's' && k[3] == 'M' && |k| >= 10;
    assert k == "strMeasure3";
    assert k[10..] == t;
  }

  /** A slot whose name is blank is dropped. */
  lemma BlankNameExample(d: RecipeDetails)
    requires DecodesTo(JObject(BlankName), d)
    ensures d.ingredients == []
  {
    var slots :| IsPromotion(Drafts(BlankName), slots, d.ingredients);
    assert Prefix(IngredientName) + "3" == "strIngredient3";
    assert StringField(BlankName, "strIngredient3") == Some("") && !HasContent("");
    if |slots| > 0 {
      IngredientFromSlotKeys(BlankName, slots, d.ingredients, 0);
      BlankNameMeasureKeys(slots[0]);
      assert false;
    }
  }
}
