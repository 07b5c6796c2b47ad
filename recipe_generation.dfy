/** The blocking generator: three persona requests folded into a list of
    summary recipes, and the detail record built for one chosen recipe.
    The model, `JSON.parse` and the clock are parameters. */
module RecipeGeneration {
  import opened Text
  import opened JsValues
  import opened RecipeTypes
  import opened DetailDefaults
  import opened LlmResponseParser
  import opened PromptService

  /** How one settled request to the model ended. */
  datatype LlmOutcome = Fulfilled(text: string) | Failed(reason: string)

  /** What the generator depends on but does not compute: the model's reply
      to a prompt, the JSON parser, and the `Date.now()` reading taken when
      the entry at a given index is built. The three persona prompts are
      pairwise distinct (`PersonaPromptsDiffer`), so a reply function of
      the prompt can give every combination of replies. */
  datatype Env = Env(
    llm: string -> LlmOutcome,
    jsonParse: string -> Option<Value>,
    now: nat -> nat)

  const IdPrefix: string := "recipe-"
  const Dash: string := "-"

  /** `recipe-${Date.now()}-${i}`. */
  function RecipeId(stamp: nat, i: nat): string {
    IdPrefix + NatToString(stamp) + Dash + NatToString(i)
  }

  /** Equal ids have equal stamps and equal indexes, so entries built at
      different indexes never share an id, whatever the clock says. */
  lemma RecipeIdInjective(s1: nat, i1: nat, s2: nat, i2: nat)
    requires RecipeId(s1, i1) == RecipeId(s2, i2)
    ensures s1 == s2 && i1 == i2
  {
    var a, b, c, d := NatToString(s1), NatToString(i1), NatToString(s2), NatToString(i2);
    assert IdPrefix + a + Dash + b == IdPrefix + (a + Dash + b);
    assert IdPrefix + c + Dash + d == IdPrefix + (c + Dash + d);
    assert a + Dash + b == (IdPrefix + a + Dash + b)[|IdPrefix|..];
    assert c + Dash + d == (IdPrefix + c + Dash + d)[|IdPrefix|..];
    SplitAtDash(a, b, c, d);
    DigitsValueOfNatToString(s1);
    DigitsValueOfNatToString(s2);
    DigitsValueOfNatToString(i1);
    DigitsValueOfNatToString(i2);
  }

  /** In `a-b` with `a` made of digits, the first dash ends `a`. */
  lemma FirstDash(a: string, b: string)
    requires forall k :: 0 <= k < |a| ==> IsDigit(a[k])
    ensures var s := a + Dash + b;
      |a| < |s| && s[|a|] == '-' && forall k :: 0 <= k < |a| ==> s[k] != '-'
  {
    var s := a + Dash + b;
    assert forall k :: 0 <= k < |a| ==> s[k] == a[k];
  }

  lemma SplitAtDash(a: string, b: string, c: string, d: string)
    requires forall k :: 0 <= k < |a| ==> IsDigit(a[k])
    requires forall k :: 0 <= k < |c| ==> IsDigit(c[k])
    requires a + Dash + b == c + Dash + d
    ensures a == c && b == d
  {
    var s := a + Dash + b;
    FirstDash(a, b);
    FirstDash(c, d);
    assert |a| == |c|;
    assert a == s[..|a|] == c;
    assert b == s[|a| + 1..] == d;
  }

  // ---------------------------------------------------------------------
  // generateRecipes

  /** What became of one persona's request: `None` when the request
      failed, otherwise how validating the parsed reply ended. */
  function Judge(jsonParse: string -> Option<Value>, reply: LlmOutcome): Option<Verdict> {
    match reply
    case Failed(_) => None
    case Fulfilled(text) => Some(Validation(ParseRecipeResponse(jsonParse, text)))
  }

  /** The repaired draft of an accepted reply, as `Validation` leaves it. */
  predicate SummaryShaped(w: Value) {
    w.Obj? && NonBlankString(Prop(w, "title")) && NonBlankString(Prop(w, "description"))
    && PositiveNumber(Prop(w, "cookingTime"))
    && IsNonEmptyArray(Prop(w, "mainIngredients")) && IsNonEmptyArray(Prop(w, "features"))
  }

  /** A failed request has no verdict, and an accepted draft is shaped. */
  lemma JudgeShaped(jsonParse: string -> Option<Value>, reply: LlmOutcome)
    ensures Judge(jsonParse, reply).None? <==> reply.Failed?
    ensures var r := Judge(jsonParse, reply);
      r.Some? && r.value.Accepted? ==> SummaryShaped(r.value.repaired)
  {
  }

  /** The replies to the three persona prompts, in dispatch order. */
  function Replies(env: Env, input: RecipeInput): seq<LlmOutcome> {
    seq(3, k requires 0 <= k < 3 => env.llm(PromptFor(AgentOrder[k], input)))
  }

  /** The verdicts on the replies. */
  function Verdicts(jsonParse: string -> Option<Value>, replies: seq<LlmOutcome>): seq<Option<Verdict>>
    requires |replies| == 3
  {
    seq(3, k requires 0 <= k < 3 => Judge(jsonParse, replies[k]))
  }

  lemma VerdictsShaped(jsonParse: string -> Option<Value>, replies: seq<LlmOutcome>)
    requires |replies| == 3
    ensures var vs := Verdicts(jsonParse, replies);
      |vs| == 3 && forall k :: 0 <= k < 3 && vs[k].Some? && vs[k].value.Accepted? ==> SummaryShaped(vs[k].value.repaired)
  {
    var vs := Verdicts(jsonParse, replies);
    forall k | 0 <= k < 3 ensures vs[k].Some? && vs[k].value.Accepted? ==> SummaryShaped(vs[k].value.repaired) {
      JudgeShaped(jsonParse, replies[k]);
    }
  }

  const FallbackDescription: string := "AIが提案する美味しいレシピです。"
  const FallbackTitleSuffix: string := "シェフの特別レシピ"
  const FallbackMainIngredients: Value := Arr([Str("新鮮な食材"), Str("調味料"), Str("スパイス")])
  const FallbackFeatures: Value := Arr([Str("ヘルシー"), Str("簡単調理"), Str("本格的な味")])

  /** The fixed entry for a reply that failed validation. */
  function FallbackRecipe(id: string, a: AgentType): Recipe {
    Recipe(id, a, Str(AgentName(a) + FallbackTitleSuffix), Str(FallbackDescription), Num(30.0),
      FallbackMainIngredients, FallbackFeatures, Undefined)
  }

  /** The fallback has the summary invariant. */
  lemma FallbackWellFormed(id: string, a: AgentType)
    ensures WellFormedRecipe(FallbackRecipe(id, a))
  {
    var title := AgentName(a) + FallbackTitleSuffix;
    assert !IsSpace(title[0]) && !IsSpace(FallbackDescription[0]);
    TrimEmptyIffBlank(title);
    TrimEmptyIffBlank(FallbackDescription);
  }

  const TitleSuffix: string := "シェフのレシピ"
  const DescriptionSuffix: string := "シェフが提案する特別なレシピです。"
  const PlaceholderMainIngredients: Value := Arr([Str("材料1"), Str("材料2"), Str("材料3")])
  const PlaceholderFeatures: Value := Arr([Str("美味しい"), Str("簡単"), Str("栄養満点")])

  /** The entry for an accepted draft; each field falls back to a persona
      default when falsy. */
  function AcceptedRecipe(id: string, a: AgentType, w: Value): Recipe {
    Recipe(id, a,
      Or(Prop(w, "title"), Str(AgentName(a) + TitleSuffix)),
      Or(Prop(w, "description"), Str(AgentName(a) + DescriptionSuffix)),
      Or(Prop(w, "cookingTime"), Num(30.0)),
      Or(Prop(w, "mainIngredients"), PlaceholderMainIngredients),
      Or(Prop(w, "features"), PlaceholderFeatures),
      Prop(w, "imageUrl"))
  }

  /** For a repaired draft the persona defaults are unreachable: the entry
      carries the draft's own summary fields and has the invariant. */
  lemma AcceptedKeepsDraft(id: string, a: AgentType, w: Value)
    requires SummaryShaped(w)
    ensures var r := AcceptedRecipe(id, a, w);
      WellFormedRecipe(r)
      && r.title == Prop(w, "title") && r.description == Prop(w, "description")
      && r.cookingTime == Prop(w, "cookingTime") && r.mainIngredients == Prop(w, "mainIngredients")
      && r.features == Prop(w, "features") && r.imageUrl == Prop(w, "imageUrl")
  {
  }

  /** What one loop iteration contributes: nothing for a failed request or
      a draft whose validation throws, the fallback for a rejected draft,
      and the accepted entry otherwise. */
  function EntryFor(v: Option<Verdict>, id: string, a: AgentType): Option<Recipe> {
    match v
    case None => None
    case Some(Threw) => None
    case Some(Rejected) => Some(FallbackRecipe(id, a))
    case Some(Accepted(w)) => Some(AcceptedRecipe(id, a, w))
  }

  /** An entry exists exactly when the request succeeded and validation
      did not throw, and it carries the id and persona it was built for. */
  lemma EntryForIdentity(v: Option<Verdict>, id: string, a: AgentType)
    ensures var r := EntryFor(v, id, a);
      (r.Some? <==> v.Some? && !v.value.Threw?)
      && (r.Some? ==> r.value.id == id && r.value.agentType == a)
  {
  }

  /** The entry of a rejected draft, and of a shaped accepted one, has the
      summary invariant. */
  lemma EntryForWellFormed(v: Option<Verdict>, id: string, a: AgentType)
    requires v.Some? && (v.value.Rejected? || (v.value.Accepted? && SummaryShaped(v.value.repaired)))
    ensures EntryFor(v, id, a).Some? && WellFormedRecipe(EntryFor(v, id, a).value)
  {
    if v.value.Rejected? {
      FallbackWellFormed(id, a);
    } else {
      AcceptedKeepsDraft(id, a, v.value.repaired);
    }
  }

  /** The entry at index `k` of the dispatch order. */
  function EntryAt(vs: seq<Option<Verdict>>, now: nat -> nat, k: nat): Option<Recipe>
    requires k < |vs| && k < 3
  {
    EntryFor(vs[k], RecipeId(now(k), k), AgentOrder[k])
  }

  /** The list after the first `n` verdicts. */
  function Entries(vs: seq<Option<Verdict>>, now: nat -> nat, n: nat): seq<Recipe>
    requires n <= |vs| && n <= 3
  {
    if n == 0 then []
    else
      var e := EntryAt(vs, now, n - 1);
      Entries(vs, now, n - 1) + (if e.Some? then [e.value] else [])
  }

  /** The shape of the list: at most one entry per verdict, in persona
      order, each the entry of its own persona's verdict. */
  lemma EntriesShape(vs: seq<Option<Verdict>>, now: nat -> nat, n: nat)
    requires n <= |vs| && n <= 3
    ensures var es := Entries(vs, now, n);
      |es| <= n
      && (forall j, k :: 0 <= j < k < |es| ==> AgentIndex(es[j].agentType) < AgentIndex(es[k].agentType))
      && (forall k :: 0 <= k < |es| ==> AgentIndex(es[k].agentType) < n
                                        && EntryAt(vs, now, AgentIndex(es[k].agentType)) == Some(es[k]))
  {
    EntriesOwn(vs, now, n);
    EntriesOrdered(vs, now, n);
  }

  /** Each entry is the entry of its own persona's verdict, one of the
      first `n`. */
  lemma {:induction false} EntriesOwn(vs: seq<Option<Verdict>>, now: nat -> nat, n: nat)
    requires n <= |vs| && n <= 3
    ensures var es := Entries(vs, now, n);
      |es| <= n
      && (forall k :: 0 <= k < |es| ==> AgentIndex(es[k].agentType) < n
                                        && EntryAt(vs, now, AgentIndex(es[k].agentType)) == Some(es[k]))
  {
    if n > 0 {
      EntriesOwn(vs, now, n - 1);
      var prev := Entries(vs, now, n - 1);
      var e := EntryAt(vs, now, n - 1);
      EntryForIdentity(vs[n - 1], RecipeId(now(n - 1), n - 1), AgentOrder[n - 1]);
      if e.Some? {
        var es := prev + [e.value];
        assert Entries(vs, now, n) == es;
        assert AgentIndex(e.value.agentType) == n - 1;
        assert forall k :: 0 <= k < |prev| ==> es[k] == prev[k];
      } else {
        assert Entries(vs, now, n) == prev + [];
      }
    }
  }

  /** The entries are in persona order. */
  lemma {:induction false} EntriesOrdered(vs: seq<Option<Verdict>>, now: nat -> nat, n: nat)
    requires n <= |vs| && n <= 3
    ensures var es := Entries(vs, now, n);
      forall j, k :: 0 <= j < k < |es| ==> AgentIndex(es[j].agentType) < AgentIndex(es[k].agentType)
  {
    if n > 0 {
      EntriesOrdered(vs, now, n - 1);
      EntriesOwn(vs, now, n - 1);
      var prev := Entries(vs, now, n - 1);
      var e := EntryAt(vs, now, n - 1);
      EntryForIdentity(vs[n - 1], RecipeId(now(n - 1), n - 1), AgentOrder[n - 1]);
      if e.Some? {
        var es := prev + [e.value];
        assert Entries(vs, now, n) == es;
        assert AgentIndex(e.value.agentType) == n - 1;
        assert forall k :: 0 <= k < |prev| ==> es[k] == prev[k] && AgentIndex(es[k].agentType) < n - 1;
      } else {
        assert Entries(vs, now, n) == prev + [];
      }
    }
  }

  /** A persona is listed exactly when its own verdict gives an entry:
      its request succeeded and validating its draft did not throw. */
  lemma {:induction false} ListedIff(vs: seq<Option<Verdict>>, now: nat -> nat, n: nat, a: AgentType)
    requires n <= |vs| && n <= 3 && AgentIndex(a) < n
    ensures (exists k :: 0 <= k < |Entries(vs, now, n)| && Entries(vs, now, n)[k].agentType == a)
            <==> vs[AgentIndex(a)].Some? && !vs[AgentIndex(a)].value.Threw?
  {
    var es := Entries(vs, now, n);
    var i := AgentIndex(a);
    EntriesShape(vs, now, n);
    EntryForIdentity(vs[i], RecipeId(now(i), i), a);
    if EntryAt(vs, now, i).Some? {
      if i == n - 1 {
        assert es[|es| - 1].agentType == a;
      } else {
        ListedIff(vs, now, n - 1, a);
        var k :| 0 <= k < |Entries(vs, now, n - 1)| && Entries(vs, now, n - 1)[k].agentType == a;
        assert es[k] == Entries(vs, now, n - 1)[k];
      }
    }
  }

  /** Every entry has the summary invariant and no two entries share an
      id, given verdicts like the ones `Judge` gives. */
  lemma EntriesWellFormed(vs: seq<Option<Verdict>>, now: nat -> nat)
    requires |vs| == 3
    requires forall k :: 0 <= k < 3 && vs[k].Some? && vs[k].value.Accepted? ==> SummaryShaped(vs[k].value.repaired)
    ensures var es := Entries(vs, now, 3);
      (forall k :: 0 <= k < |es| ==> WellFormedRecipe(es[k]))
      && (forall j, k :: 0 <= j < k < |es| ==> es[j].id != es[k].id)
  {
    var es := Entries(vs, now, 3);
    EntriesShape(vs, now, 3);
    forall k | 0 <= k < |es| ensures WellFormedRecipe(es[k]) {
      var i := AgentIndex(es[k].agentType);
      EntryForIdentity(vs[i], RecipeId(now(i), i), AgentOrder[i]);
      EntryForWellFormed(vs[i], RecipeId(now(i), i), AgentOrder[i]);
    }
    forall j, k | 0 <= j < k < |es| ensures es[j].id != es[k].id {
      var ij, ik := AgentIndex(es[j].agentType), AgentIndex(es[k].agentType);
      EntryForIdentity(vs[ij], RecipeId(now(ij), ij), AgentOrder[ij]);
      EntryForIdentity(vs[ik], RecipeId(now(ik), ik), AgentOrder[ik]);
      if es[j].id == es[k].id {
        RecipeIdInjective(now(ij), ij, now(ik), ik);
      }
    }
  }

  /** The list `generateRecipes` assembles from the three replies. */
  function GeneratedEntries(jsonParse: string -> Option<Value>, now: nat -> nat, replies: seq<LlmOutcome>): seq<Recipe>
    requires |replies| == 3
  {
    Entries(Verdicts(jsonParse, replies), now, 3)
  }

  /** At most three entries, in persona order, all with the summary
      invariant and with distinct ids. */
  lemma GeneratedEntriesShape(jsonParse: string -> Option<Value>, now: nat -> nat, replies: seq<LlmOutcome>)
    requires |replies| == 3
    ensures var es := GeneratedEntries(jsonParse, now, replies);
      |es| <= 3
      && (forall k :: 0 <= k < |es| ==> WellFormedRecipe(es[k]))
      && (forall j, k :: 0 <= j < k < |es| ==> es[j].id != es[k].id)
      && (forall j, k :: 0 <= j < k < |es| ==> AgentIndex(es[j].agentType) < AgentIndex(es[k].agentType))
  {
    var vs := Verdicts(jsonParse, replies);
    VerdictsShaped(jsonParse, replies);
    EntriesShape(vs, now, 3);
    EntriesWellFormed(vs, now);
  }

  /** A persona has an entry exactly when its request succeeded and
      validating its parsed reply did not throw. */
  lemma GeneratedListedIff(jsonParse: string -> Option<Value>, now: nat -> nat, replies: seq<LlmOutcome>, a: AgentType)
    requires |replies| == 3
    ensures var es := GeneratedEntries(jsonParse, now, replies);
            var reply := replies[AgentIndex(a)];
            (exists k :: 0 <= k < |es| && es[k].agentType == a)
            <==> reply.Fulfilled? && !Validation(ParseRecipeResponse(jsonParse, reply.text)).Threw?
  {
    var i := AgentIndex(a);
    var vs := Verdicts(jsonParse, replies);
    assert vs[i] == Judge(jsonParse, replies[i]);
    assert GeneratedEntries(jsonParse, now, replies) == Entries(vs, now, 3);
    ListedIff(vs, now, 3, a);
    JudgeShaped(jsonParse, replies[i]);
  }

  const AllFailedMessage: string := "すべてのレシピ生成に失敗しました"

  /** `generateRecipes`: one request per persona, one entry per usable
      reply, and a 500 error when no entry is left. */
  method GenerateRecipes(env: Env, input: RecipeInput) returns (r: Result<seq<Recipe>, AppError>)
    ensures r.Ok? <==> |GeneratedEntries(env.jsonParse, env.now, Replies(env, input))| > 0
    ensures r.Ok? ==> r.value == GeneratedEntries(env.jsonParse, env.now, Replies(env, input))
    ensures r.Err? ==> r.error == AppError(AllFailedMessage, 500)
  {
    ghost var vs := Verdicts(env.jsonParse, Replies(env, input));
    var recipes: seq<Recipe> := [];
    var i := 0;
    while i < 3
      invariant 0 <= i <= 3
      invariant recipes == Entries(vs, env.now, i)
    {
      var e := Contribution(env, input, i);
      if e.Some? {
        recipes := recipes + [e.value];
      }
      i := i + 1;
    }
    if |recipes| == 0 {
      return Err(AppError(AllFailedMessage, 500));
    }
    return Ok(recipes);
  }

  /** One pass of the loop over the settled replies, for the persona at
      index `i`. */
  method Contribution(env: Env, input: RecipeInput, i: nat) returns (e: Option<Recipe>)
    requires i < 3
    ensures e == EntryAt(Verdicts(env.jsonParse, Replies(env, input)), env.now, i)
  {
    var a := AgentOrder[i];
    var reply := env.llm(PromptFor(a, input));
    assert Replies(env, input)[i] == reply;
    e := EntryOfReply(env.jsonParse, reply, RecipeId(env.now(i), i), a);
  }

  /** Parse one settled reply, validate the draft in place, and build the
      entry from what is left. */
  method EntryOfReply(jsonParse: string -> Option<Value>, reply: LlmOutcome, id: string, a: AgentType)
    returns (e: Option<Recipe>)
    ensures e == EntryFor(Judge(jsonParse, reply), id, a)
  {
    e := None;
    if reply.Fulfilled? {
      var parsed := ParseRecipeResponse(jsonParse, reply.text);
      assert Judge(jsonParse, reply) == Some(Validation(parsed));
      var draft := new Draft(parsed);
      var outcome := ValidateRecipeData(draft);
      if outcome == Returned(true) {
        e := Some(AcceptedRecipe(id, a, draft.value));
      } else if outcome == Returned(false) {
        e := Some(FallbackRecipe(id, a));
      }
    }
  }

  // ---------------------------------------------------------------------
  // generateRecipeDetail

  /** Why building a detail record throws: the request to the model failed
      (its error is rethrown), or a property read or a `map` call on the
      parsed reply raised a `TypeError`. */
  datatype DetailFailure = RequestFailed(reason: string) | TypeError

  const DetailDescriptionSuffix: string := "の詳細レシピです。"
  const DetailFeatures: Value := Arr([Str("手作り"), Str("栄養満点"), Str("美味しい")])

  /** The names of the ingredients, in order. */
  function Names(xs: seq<Ingredient>): (r: seq<Value>)
    ensures |r| == |xs| && forall k :: 0 <= k < |xs| ==> r[k] == xs[k].name
  {
    seq(|xs|, k requires 0 <= k < |xs| => xs[k].name)
  }

  /** `sanitizedIngredients.slice(0, 3).map(ing => ing.name) || [title]`:
      an array is truthy, so the `[title]` alternative is never taken. */
  function LeadingNames(xs: seq<Ingredient>, title: string): (r: Value)
    ensures r.Arr? && |r.items| == (if |xs| < 3 then |xs| else 3)
    ensures forall k :: 0 <= k < |r.items| ==> r.items[k] == xs[k].name
  {
    Or(Arr(Names(if |xs| < 3 then xs else xs[..3])), Arr([Str(title)]))
  }

  /** `parsed.totalTime || parsed.cookingTime || 30`. */
  function TotalTime(parsed: Value): (r: Value)
    ensures Truthy(r)
    ensures Truthy(Prop(parsed, "totalTime")) ==> r == Prop(parsed, "totalTime")
    ensures !Truthy(Prop(parsed, "totalTime")) && Truthy(Prop(parsed, "cookingTime")) ==> r == Prop(parsed, "cookingTime")
    ensures !Truthy(Prop(parsed, "totalTime")) && !Truthy(Prop(parsed, "cookingTime")) ==> r == Num(30.0)
  {
    Or(Or(Prop(parsed, "totalTime"), Prop(parsed, "cookingTime")), Num(30.0))
  }

  /** The detail record for a reply whose ingredients sanitized to `xs`;
      the caller's id, persona and title are kept as given. */
  function AssembleDetail(recipeId: string, title: string, a: AgentType, parsed: Value, xs: seq<Ingredient>): (d: RecipeDetail)
    requires forall k :: 0 <= k < |xs| ==> IngredientComplete(xs[k])
    ensures DetailDefaulted(d)
    ensures d.id == recipeId && d.agentType == a && d.title == Str(title) && d.imageUrl == Undefined
    ensures d.ingredients == IngredientsOrPlaceholder(xs) && d.mainIngredients == LeadingNames(xs, title)
    ensures d.cookingTime == TotalTime(parsed) && d.totalTime == TotalTime(parsed)
  {
    RecipeDetail(
      recipeId, a, Str(title),
      Or(Prop(parsed, "description"), Str(title + DetailDescriptionSuffix)),
      TotalTime(parsed),
      LeadingNames(xs, title),
      Or(Prop(parsed, "features"), DetailFeatures),
      IngredientsOrPlaceholder(xs),
      Or(Prop(parsed, "steps"), DefaultSteps),
      Or(Prop(parsed, "nutritionInfo"), DefaultNutrition),
      Or(Prop(parsed, "tips"), DefaultTips),
      Or(Prop(parsed, "servings"), Num(4.0)),
      Or(Prop(parsed, "prepTime"), Num(15.0)),
      TotalTime(parsed),
      Undefined)
  }

  /** The detail record built from a parsed reply: a nullish reply or a
      throwing ingredient sanitizer is a `TypeError`. */
  function BuildDetail(recipeId: string, title: string, a: AgentType, parsed: Value): (r: Result<RecipeDetail, DetailFailure>)
    ensures r.Err? <==> IsNullish(parsed) || SanitizeIngredients(Prop(parsed, "ingredients")).None?
    ensures r.Err? ==> r.error == TypeError
    ensures r.Ok? ==> var d := r.value; var xs := SanitizeIngredients(Prop(parsed, "ingredients")).value;
      DetailDefaulted(d)
      && d.id == recipeId && d.agentType == a && d.title == Str(title) && d.imageUrl == Undefined
      && d.ingredients == IngredientsOrPlaceholder(xs)
      && d.mainIngredients == LeadingNames(xs, title)
      && d.cookingTime == TotalTime(parsed) && d.totalTime == TotalTime(parsed)
  {
    if IsNullish(parsed) then Err(TypeError)
    else match SanitizeIngredients(Prop(parsed, "ingredients"))
      case None => Err(TypeError)
      case Some(xs) => Ok(AssembleDetail(recipeId, title, a, parsed, xs))
  }

  /** A truthy field of the reply is taken over unmodified, with no
      renumbering of steps and no per-field merge of nutrition values;
      only a falsy one is replaced by its default. */
  lemma DetailPassThrough(recipeId: string, title: string, a: AgentType, parsed: Value)
    requires BuildDetail(recipeId, title, a, parsed).Ok?
    ensures var d := BuildDetail(recipeId, title, a, parsed).value;
      (Truthy(Prop(parsed, "steps")) ==> d.steps == Prop(parsed, "steps"))
      && (!Truthy(Prop(parsed, "steps")) ==> d.steps == DefaultSteps)
      && (Truthy(Prop(parsed, "nutritionInfo")) ==> d.nutritionInfo == Prop(parsed, "nutritionInfo"))
      && (!Truthy(Prop(parsed, "nutritionInfo")) ==> d.nutritionInfo == DefaultNutrition)
      && (Truthy(Prop(parsed, "description")) ==> d.description == Prop(parsed, "description"))
      && (!Truthy(Prop(parsed, "description")) ==> d.description == Str(title + DetailDescriptionSuffix))
      && (Truthy(Prop(parsed, "features")) ==> d.features == Prop(parsed, "features"))
      && (Truthy(Prop(parsed, "tips")) ==> d.tips == Prop(parsed, "tips"))
      && (!Truthy(Prop(parsed, "servings")) ==> d.servings == Num(4.0))
      && (!Truthy(Prop(parsed, "prepTime")) ==> d.prepTime == Num(15.0))
  {
  }

  /** The summary ingredient list names the first (at most three) source
      ingredients, so it is empty when the reply listed none, although the
      detail record itself then holds the placeholder ingredient. */
  lemma NoSourceIngredients(recipeId: string, title: string, a: AgentType, parsed: Value)
    requires !IsNullish(parsed) && !Truthy(Prop(parsed, "ingredients"))
    ensures var r := BuildDetail(recipeId, title, a, parsed);
      r.Ok? && r.value.mainIngredients == Arr([]) && r.value.ingredients == [PlaceholderIngredient]
  {
  }

  /** `generateRecipeDetail`: request the detail prompt's reply, parse it
      and build the record. The database write is left out. */
  function GenerateRecipeDetail(env: Env, recipeId: string, title: string, a: AgentType): (r: Result<RecipeDetail, DetailFailure>)
    ensures env.llm(DetailedRecipePrompt(title, a)).Failed? ==> r == Err(RequestFailed(env.llm(DetailedRecipePrompt(title, a)).reason))
    ensures r.Ok? ==> env.llm(DetailedRecipePrompt(title, a)).Fulfilled?
                      && r == BuildDetail(recipeId, title, a,
                                          ParseRecipeResponse(env.jsonParse, env.llm(DetailedRecipePrompt(title, a)).text))
  {
    match env.llm(DetailedRecipePrompt(title, a))
    case Failed(reason) => Err(RequestFailed(reason))
    case Fulfilled(text) => BuildDetail(recipeId, title, a, ParseRecipeResponse(env.jsonParse, text))
  }
}
