/** The recipe endpoints: the request-body validator, the 400 raised before
    any generation, and the 400/404/500 decisions of the detail lookup. */
module RecipeController {
  import opened Text
  import opened JsValues
  import opened RecipeTypes
  import opened PromptService
  import opened RecipeGeneration

  const CookingTimes: seq<string> := ["30min", "60min", "unlimited"]
  const Difficulties: seq<string> := ["beginner", "intermediate", "advanced"]
  const Priorities: seq<string> := ["appearance", "nutrition", "quick", "unique"]

  /** `[...].includes(v)`: strict equality with one of the strings. */
  predicate OneOf(v: Value, options: seq<string>) {
    v.Str? && v.s in options
  }

  /** `validateRecipeInput`: a truthy string theme, the three enumerations,
      an array of special requests and a string of ingredients to avoid. */
  predicate ValidRecipeInput(body: Value) {
    var theme := Prop(body, "theme");
    Truthy(theme) && theme.Str?
    && OneOf(Prop(body, "cookingTime"), CookingTimes)
    && OneOf(Prop(body, "difficulty"), Difficulties)
    && Prop(body, "specialRequests").Arr?
    && Prop(body, "avoidIngredients").Str?
    && OneOf(Prop(body, "priority"), Priorities)
  }

  /** The validator accepts exactly the bodies whose theme is a non-empty
      string, whose three enumerations hold one of their listed strings,
      whose special requests are an array and whose ingredients to avoid are
      a string. */
  lemma ValidRecipeInputIff(body: Value)
    ensures ValidRecipeInput(body) <==>
      Prop(body, "theme").Str? && Prop(body, "theme").s != ""
      && Prop(body, "cookingTime") in [Str("30min"), Str("60min"), Str("unlimited")]
      && Prop(body, "difficulty") in [Str("beginner"), Str("intermediate"), Str("advanced")]
      && Prop(body, "specialRequests").Arr? && Prop(body, "avoidIngredients").Str?
      && Prop(body, "priority") in [Str("appearance"), Str("nutrition"), Str("quick"), Str("unique")]
  {
  }

  /** It does not look further: a whitespace-only theme, an empty list of
      things to avoid and special requests of any element type pass. */
  lemma ValidatorIsShallow(theme: string, items: seq<Value>, time: string, difficulty: string, priority: string)
    requires theme != "" && time in CookingTimes && difficulty in Difficulties && priority in Priorities
    ensures ValidRecipeInput(Obj(map[
      "theme" := Str(theme), "cookingTime" := Str(time), "difficulty" := Str(difficulty),
      "specialRequests" := Arr(items), "avoidIngredients" := Str(""), "priority" := Str(priority)]))
  {
  }

  /** The accepted enumeration values are exactly the keys of the prompt's
      label tables, so every accepted request is described by labels. */
  lemma ValidatedValuesHaveLabels(body: Value)
    requires ValidRecipeInput(body)
    ensures var input := RequestInput(body, _ => "");
      CookingTimeText(input.cookingTime) != input.cookingTime
      && DifficultyText(input.difficulty) != input.difficulty
      && PriorityText(input.priority) != input.priority
  {
    var input := RequestInput(body, _ => "");
    LabelTablesProper();
    LabelChangesIffKey(CookingTimeLabels, input.cookingTime);
    LabelChangesIffKey(DifficultyLabels, input.difficulty);
    LabelChangesIffKey(PriorityLabels, input.priority);
  }

  /** The text `Array.prototype.join` writes for one element: a string as
      it is, nothing for `null` and `undefined`, and JavaScript's `String`
      conversion, a parameter here, for anything else. */
  function ElementText(v: Value, show: Value -> string): (r: string)
    ensures v.Str? ==> r == v.s
    ensures IsNullish(v) ==> r == ""
  {
    match v
    case Str(s) => s
    case Undefined => ""
    case Null => ""
    case _ => show(v)
  }

  /** The validated body as the prompt builder reads it. */
  function RequestInput(body: Value, show: Value -> string): (input: RecipeInput)
    requires ValidRecipeInput(body)
    ensures Str(input.theme) == Prop(body, "theme") && Str(input.avoidIngredients) == Prop(body, "avoidIngredients")
    ensures input.cookingTime in CookingTimes && input.difficulty in Difficulties && input.priority in Priorities
    ensures |input.specialRequests| == |Prop(body, "specialRequests").items|
  {
    var items := Prop(body, "specialRequests").items;
    RecipeInput(
      Prop(body, "theme").s,
      Prop(body, "cookingTime").s,
      Prop(body, "difficulty").s,
      seq(|items|, k requires 0 <= k < |items| => ElementText(items[k], show)),
      Prop(body, "avoidIngredients").s,
      Prop(body, "priority").s)
  }

  const InvalidInputMessage: string := "無効な入力データです"
  const MissingIdMessage: string := "レシピIDが必要です"
  const NotFoundMessage: string := "レシピが見つかりません"
  const LookupFailedMessage: string := "レシピの取得に失敗しました"

  /** `POST /recipes/generate`: an invalid body is refused with 400 before
      the generator is asked for anything; a valid one gets the generator's
      result. */
  method HandleGenerateRecipes(env: Env, body: Value, show: Value -> string) returns (r: Result<seq<Recipe>, AppError>)
    ensures !ValidRecipeInput(body) ==> r == Err(AppError(InvalidInputMessage, 400))
    ensures ValidRecipeInput(body) ==>
      var es := GeneratedEntries(env.jsonParse, env.now, Replies(env, RequestInput(body, show)));
      (r.Ok? <==> |es| > 0) && (r.Ok? ==> r.value == es) && (r.Err? ==> r.error == AppError(AllFailedMessage, 500))
  {
    if !ValidRecipeInput(body) {
      return Err(AppError(InvalidInputMessage, 400));
    }
    r := GenerateRecipes(env, RequestInput(body, show));
  }

  /** What `getRecipeById` finds: the stored record, nothing, or a database
      failure. */
  datatype Lookup = Found(detail: RecipeDetail) | Missing | LookupFailed

  /** `GET /recipes/:id`: 400 for an empty id, then the lookup's 500 when the
      database fails and 404 when nothing is stored. */
  function HandleGetRecipeDetail(id: string, lookup: string -> Lookup): (r: Result<RecipeDetail, AppError>)
    ensures r.Ok? <==> id != "" && lookup(id).Found?
    ensures r.Ok? ==> r.value == lookup(id).detail
    ensures r.Err? ==> (r.error.statusCode == 400 <==> id == "")
    ensures r.Err? ==> (r.error.statusCode == 404 <==> id != "" && lookup(id).Missing?)
    ensures r.Err? ==> (r.error.statusCode == 500 <==> id != "" && lookup(id).LookupFailed?)
  {
    if id == "" then Err(AppError(MissingIdMessage, 400))
    else match lookup(id)
      case LookupFailed => Err(AppError(LookupFailedMessage, 500))
      case Missing => Err(AppError(NotFoundMessage, 404))
      case Found(d) => Ok(d)
  }
}
