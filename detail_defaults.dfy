/** The defaulting that both detail builders (the blocking
    `generateRecipeDetail` and the streaming `createAndSaveRecipeDetail`)
    apply to the parsed model output: the ingredient sanitizer and the fixed
    default steps, nutrition values and tips. */
module DetailDefaults {
  import opened JsValues
  import opened RecipeTypes

  /** `{ name: ing.name || '材料', amount: ing.amount || '適量',
      unit: ing.unit || '適量', notes: ing.notes || '' }`; reading a property
      of a nullish element throws, which is `None`. */
  function SanitizeIngredient(ing: Value): (r: Option<Ingredient>)
    ensures r.None? <==> IsNullish(ing)
    ensures r.Some? ==> IngredientComplete(r.value)
    ensures r.Some? && Truthy(Prop(ing, "name")) ==> r.value.name == Prop(ing, "name")
    ensures r.Some? && Truthy(Prop(ing, "amount")) ==> r.value.amount == Prop(ing, "amount")
    ensures r.Some? && Truthy(Prop(ing, "unit")) ==> r.value.unit == Prop(ing, "unit")
    ensures r.Some? && Truthy(Prop(ing, "notes")) ==> r.value.notes == Prop(ing, "notes")
    ensures r.Some? && !Truthy(Prop(ing, "notes")) ==> r.value.notes == Str("")
  {
    if IsNullish(ing) then None
    else Some(Ingredient(
      Or(Prop(ing, "name"), Str("材料")),
      Or(Prop(ing, "amount"), Str("適量")),
      Or(Prop(ing, "unit"), Str("適量")),
      Or(Prop(ing, "notes"), Str(""))))
  }

  /** A sanitized ingredient: name, amount and unit are all truthy. */
  predicate IngredientComplete(ing: Ingredient) {
    Truthy(ing.name) && Truthy(ing.amount) && Truthy(ing.unit)
  }

  /** Element-wise sanitizing; `None` as soon as one element is nullish. */
  function SanitizeAll(items: seq<Value>): (r: Option<seq<Ingredient>>)
    ensures r.None? <==> exists k :: 0 <= k < |items| && IsNullish(items[k])
    ensures r.Some? ==> |r.value| == |items|
                        && forall k :: 0 <= k < |items| ==> SanitizeIngredient(items[k]) == Some(r.value[k])
    decreases |items|
  {
    if items == [] then Some([])
    else match (SanitizeIngredient(items[0]), SanitizeAll(items[1..]))
      case (Some(i), Some(rest)) =>
        assert forall k :: 1 <= k < |items| ==> items[k] == items[1..][k - 1];
        Some([i] + rest)
      case (None, _) => None
      case (_, None) =>
        var k :| 0 <= k < |items[1..]| && IsNullish(items[1..][k]);
        assert IsNullish(items[k + 1]);
        None
  }

  /** `(parsed.ingredients || []).map(...)`: a falsy list is empty, a truthy
      value that is not an array has no `map` and throws. */
  function SanitizeIngredients(src: Value): (r: Option<seq<Ingredient>>)
    ensures !Truthy(src) ==> r == Some([])
    ensures Truthy(src) && !src.Arr? ==> r.None?
    ensures src.Arr? ==> r == SanitizeAll(src.items)
    ensures r.Some? ==> forall k :: 0 <= k < |r.value| ==> IngredientComplete(r.value[k])
  {
    if !Truthy(src) then Some([])
    else if src.Arr? then SanitizeAll(src.items)
    else None
  }

  /** The object a sanitized ingredient is serialised as. */
  function IngredientValue(ing: Ingredient): (v: Value)
    ensures v.Obj? && Prop(v, "name") == ing.name && Prop(v, "amount") == ing.amount
    ensures Prop(v, "unit") == ing.unit && Prop(v, "notes") == ing.notes
  {
    Obj(map["name" := ing.name, "amount" := ing.amount, "unit" := ing.unit, "notes" := ing.notes])
  }

  function IngredientValues(xs: seq<Ingredient>): (r: seq<Value>)
    ensures |r| == |xs| && forall k :: 0 <= k < |xs| ==> r[k] == IngredientValue(xs[k])
    decreases |xs|
  {
    if xs == [] then [] else [IngredientValue(xs[0])] + IngredientValues(xs[1..])
  }

  /** Sanitizing an already sanitized list changes nothing; in particular the
      persistence layer's second `unit || '適量'` pass has nothing left to
      repair. */
  lemma SanitizeIdempotent(src: Value, xs: seq<Ingredient>)
    requires SanitizeIngredients(src) == Some(xs)
    ensures SanitizeIngredients(Arr(IngredientValues(xs))) == Some(xs)
  {
    var vs := IngredientValues(xs);
    forall k | 0 <= k < |xs|
      ensures SanitizeIngredient(vs[k]) == Some(xs[k])
    {
      if src.Arr? {
        assert SanitizeIngredient(src.items[k]) == Some(xs[k]);
        SanitizedIsFixedPoint(src.items[k]);
      }
    }
    var r := SanitizeAll(vs);
    assert r.Some?;
    assert r.value == xs;
  }

  /** Exactly the ingredients a sanitizer pass produces are fixed points. */
  lemma SanitizedIsFixedPoint(ing: Value)
    requires SanitizeIngredient(ing).Some?
    ensures var i := SanitizeIngredient(ing).value;
            SanitizeIngredient(IngredientValue(i)) == Some(i)
  {
  }

  /** The placeholder entry that replaces an empty ingredient list. */
  const PlaceholderIngredient: Ingredient :=
    Ingredient(Str("基本材料"), Str("適量"), Str("適量"), Str("レシピに応じて準備してください"))

  function IngredientsOrPlaceholder(xs: seq<Ingredient>): (r: seq<Ingredient>)
    ensures |r| >= 1
    ensures |xs| > 0 ==> r == xs
    ensures |xs| == 0 ==> r == [PlaceholderIngredient]
  {
    if |xs| > 0 then xs else [PlaceholderIngredient]
  }

  function Step(n: real, instruction: string, duration: real): Value {
    Obj(map["stepNumber" := Num(n), "instruction" := Str(instruction), "duration" := Num(duration)])
  }

  /** The two default cooking steps. */
  const DefaultSteps: Value := Arr([Step(1.0, "材料を準備します。", 5.0), Step(2.0, "調理を開始します。", 25.0)])

  /** The fixed nutrition values. */
  const DefaultNutrition: Value := Obj(map[
    "calories" := Num(300.0), "protein" := Num(15.0), "carbs" := Num(30.0),
    "fat" := Num(10.0), "fiber" := Num(5.0), "sodium" := Num(800.0)])

  const DefaultTips: Value := Arr([Str("お好みで調味料を調整してください")])

  /** The detail fields a builder defaults: at least one ingredient, every
      ingredient complete, and truthy steps, nutrition, tips, servings,
      preparation time and total time. */
  predicate DetailDefaulted(d: RecipeDetail) {
    |d.ingredients| >= 1 && (forall k :: 0 <= k < |d.ingredients| ==> IngredientComplete(d.ingredients[k]))
    && Truthy(d.steps) && Truthy(d.nutritionInfo) && Truthy(d.tips)
    && Truthy(d.servings) && Truthy(d.prepTime) && Truthy(d.totalTime)
  }
}
