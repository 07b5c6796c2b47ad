/** The record shapes the backend and the frontend exchange. Fields the
    code copies out of parsed model output without checking their type keep
    the untyped `Value` they had. */
module RecipeTypes {
  import opened JsValues
  import opened Text

  /** The three fixed personas. */
  datatype AgentType = Classic | Fusion | Healthy

  /** The order in which both generators dispatch the personas. */
  const AgentOrder: seq<AgentType> := [Classic, Fusion, Healthy]

  /** The wire tag of a persona. */
  function AgentName(a: AgentType): string {
    match a
    case Classic => "classic"
    case Fusion => "fusion"
    case Healthy => "healthy"
  }

  /** Reading a wire tag back; `None` for every other string. */
  function ParseAgentType(tag: string): (r: Option<AgentType>)
    ensures r.Some? ==> AgentName(r.value) == tag
    ensures r.None? ==> forall a :: AgentName(a) != tag
  {
    if tag == "classic" then Some(Classic)
    else if tag == "fusion" then Some(Fusion)
    else if tag == "healthy" then Some(Healthy)
    else None
  }

  lemma ParseAgentName(a: AgentType)
    ensures ParseAgentType(AgentName(a)) == Some(a)
  {
  }

  /** Position of a persona in `AgentOrder`. */
  function AgentIndex(a: AgentType): (k: nat)
    ensures k < 3 && AgentOrder[k] == a
  {
    match a
    case Classic => 0
    case Fusion => 1
    case Healthy => 2
  }

  /** A recipe request as the prompt builder reads it. */
  datatype RecipeInput = RecipeInput(
    theme: string,
    cookingTime: string,
    difficulty: string,
    specialRequests: seq<string>,
    avoidIngredients: string,
    priority: string)

  /** The summary recipe. */
  datatype Recipe = Recipe(
    id: string,
    agentType: AgentType,
    title: Value,
    description: Value,
    cookingTime: Value,
    mainIngredients: Value,
    features: Value,
    imageUrl: Value)

  predicate NonBlankString(v: Value) {
    v.Str? && Trim(v.s) != ""
  }

  predicate PositiveNumber(v: Value) {
    v.Num? && v.n > 0.0
  }

  /** The summary invariant: a non-blank title and description, a positive
      cooking time and non-empty ingredient and feature lists. */
  predicate WellFormedRecipe(r: Recipe) {
    NonBlankString(r.title) && NonBlankString(r.description) && PositiveNumber(r.cookingTime)
    && IsNonEmptyArray(r.mainIngredients) && IsNonEmptyArray(r.features)
  }

  datatype Ingredient = Ingredient(name: Value, amount: Value, unit: Value, notes: Value)

  /** The detailed recipe. */
  datatype RecipeDetail = RecipeDetail(
    id: string,
    agentType: AgentType,
    title: Value,
    description: Value,
    cookingTime: Value,
    mainIngredients: Value,
    features: Value,
    ingredients: seq<Ingredient>,
    steps: Value,
    nutritionInfo: Value,
    tips: Value,
    servings: Value,
    prepTime: Value,
    totalTime: Value,
    imageUrl: Value)

  /** The summary fields of a detail record. */
  function Summary(d: RecipeDetail): (r: Recipe)
    ensures r.id == d.id && r.agentType == d.agentType && r.title == d.title
    ensures r.description == d.description && r.cookingTime == d.cookingTime
    ensures r.mainIngredients == d.mainIngredients && r.features == d.features && r.imageUrl == d.imageUrl
  {
    Recipe(d.id, d.agentType, d.title, d.description, d.cookingTime, d.mainIngredients, d.features, d.imageUrl)
  }

  datatype ChunkStatus = Started | Progress | Completed | Error

  /** One streaming event. An absent `content` is `""` and an absent
      `progress` is `0`: every reader of a chunk treats absence and those
      falsy values alike. */
  datatype StreamChunk = StreamChunk(
    agentType: AgentType,
    status: ChunkStatus,
    content: string,
    recipe: Option<Recipe>,
    progress: real)

  /** `createError(message, statusCode)`: the error the HTTP layer turns
      into a response with that status. */
  datatype AppError = AppError(message: string, statusCode: nat)

  /** Feedback as the frontend keeps it. */
  datatype Feedback = Feedback(
    recipeId: string,
    reasons: seq<string>,
    comment: Option<string>,
    futureInterest: string,
    rating: Option<real>)
}
