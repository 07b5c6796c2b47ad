/** The streaming generator: for each persona a sequence of events
    (`started`, one `progress` per fragment with the text so far, then one
    `completed` or `error`), using its own lighter reply parser and record
    builder. */
module StreamingGeneration {
  import opened Text
  import opened JsValues
  import opened RecipeTypes
  import opened DetailDefaults
  import opened Fence
  import opened LlmResponseParser
  import opened PromptService
  import opened RecipeGeneration

  // ---------------------------------------------------------------------
  // extractRecipeFromText: /(?:w1|w2)[：:]\s*(.+)/i and /(?:w1|w2)[：:]\s*(\d+)/i

  /** `(?:...|word|...)[：:]` matches at `p` through `word`, compared
      ignoring ASCII case; `word` is written in lower case. */
  predicate KeyAt(s: string, p: nat, word: string) {
    p + |word| < |s| && StartsWithIgnoringCase(s[p..], word) && IsColon(s[p + |word|])
  }

  /** `\s*(.+)` matches from `i` with the group starting at `j`. */
  ghost predicate TextMatch(s: string, i: int, j: int) {
    AllSpace(s, i, j) && 0 <= j < |s| && !IsLineTerminator(s[j])
  }

  /** `\s*(\d+)` matches from `i` with the group starting at `j`. */
  ghost predicate DigitMatch(s: string, i: int, j: int) {
    AllSpace(s, i, j) && 0 <= j < |s| && IsDigit(s[j])
  }

  /** Largest `j` in `[lo, hi)` with a character the regex `.` matches. */
  function LastNonTerminator(s: string, lo: nat, hi: nat): (r: Option<nat>)
    requires lo <= hi <= |s|
    ensures r.Some? ==> lo <= r.value < hi && !IsLineTerminator(s[r.value])
                        && forall j :: r.value < j < hi ==> IsLineTerminator(s[j])
    ensures r.None? ==> forall j :: lo <= j < hi ==> IsLineTerminator(s[j])
    decreases hi
  {
    if hi == lo then None
    else if !IsLineTerminator(s[hi - 1]) then Some(hi - 1)
    else LastNonTerminator(s, lo, hi - 1)
  }

  /** The group of `\s*(.+)` from `i`: the greedy `\s*` takes the whole
      whitespace run unless that leaves nothing for `.+`, and then gives
      back characters until `.+` can start. */
  function TextCaptureAt(s: string, i: nat): (r: Option<string>)
    requires i <= |s|
    ensures r.None? <==> forall j :: !TextMatch(s, i, j)
    ensures r.Some? ==> exists j :: TextMatch(s, i, j) && (forall j' :: TextMatch(s, i, j') ==> j' <= j)
                                    && r.value == s[j..LineRunEnd(s, j)]
  {
    var w := SpaceRunEnd(s, i);
    if w < |s| then
      LineTerminatorIsSpace(s[w]);
      assert TextMatch(s, i, w);
      assert forall j' :: TextMatch(s, i, j') ==> j' <= w;
      Some(s[w..LineRunEnd(s, w)])
    else
      match LastNonTerminator(s, i, |s|)
      case None => None
      case Some(j) =>
        assert TextMatch(s, i, j);
        Some(s[j..LineRunEnd(s, j)])
  }

  /** The group of `\s*(\d+)` from `i`: a digit is not whitespace, so the
      group can only start where the whitespace run ends. */
  function DigitCaptureAt(s: string, i: nat): (r: Option<string>)
    requires i <= |s|
    ensures r.None? <==> forall j :: !DigitMatch(s, i, j)
    ensures r.Some? ==> exists j :: DigitMatch(s, i, j) && r.value == s[j..DigitRunEnd(s, j)]
    ensures r.Some? ==> |r.value| > 0 && forall k :: 0 <= k < |r.value| ==> IsDigit(r.value[k])
  {
    var w := SpaceRunEnd(s, i);
    assert forall j :: DigitMatch(s, i, j) ==> j == w;
    if w < |s| && IsDigit(s[w]) then
      assert DigitMatch(s, i, w);
      Some(s[w..DigitRunEnd(s, w)])
    else None
  }

  /** Which group the pattern captures after the colon. */
  datatype Group = AnyText | Digits

  function GroupAt(s: string, i: nat, g: Group): Option<string>
    requires i <= |s|
  {
    match g
    case AnyText => TextCaptureAt(s, i)
    case Digits => DigitCaptureAt(s, i)
  }

  /** Alternative `k` of the pattern matches at `p`. */
  predicate AlternativeAt(s: string, p: nat, words: seq<string>, g: Group, k: nat)
    requires k < |words|
  {
    KeyAt(s, p, words[k]) && GroupAt(s, p + |words[k]| + 1, g).Some?
  }

  /** The alternatives from `k` on, tried in order: the index of the first
      one that matches at `p`. */
  function AlternativesFrom(s: string, p: nat, words: seq<string>, g: Group, k: nat): (r: Option<nat>)
    requires k <= |words|
    ensures r.Some? ==> k <= r.value < |words| && AlternativeAt(s, p, words, g, r.value)
                        && forall j :: k <= j < r.value ==> !AlternativeAt(s, p, words, g, j)
    ensures r.None? ==> forall j :: k <= j < |words| ==> !AlternativeAt(s, p, words, g, j)
    decreases |words| - k
  {
    if k == |words| then None
    else if AlternativeAt(s, p, words, g, k) then Some(k)
    else AlternativesFrom(s, p, words, g, k + 1)
  }

  /** The pattern anchored at `p`: the group of its first matching
      alternative. */
  function CaptureAt(s: string, p: nat, words: seq<string>, g: Group): (r: Option<string>)
    ensures r.Some? <==> exists j :: 0 <= j < |words| && AlternativeAt(s, p, words, g, j)
  {
    match AlternativesFrom(s, p, words, g, 0)
    case Some(j) => GroupAt(s, p + |words[j]| + 1, g)
    case None => None
  }

  /** The leftmost position `>= p` where the pattern matches, and its group;
      `None` when it matches at no position of `s` (nor after it, by
      `NoCaptureAtEnd`). */
  function FirstCapture(s: string, words: seq<string>, g: Group, p: nat): (r: Option<(nat, string)>)
    requires p <= |s|
    ensures r.Some? ==> p <= r.value.0 < |s| && CaptureAt(s, r.value.0, words, g) == Some(r.value.1)
                        && forall q :: p <= q < r.value.0 ==> CaptureAt(s, q, words, g).None?
    ensures r.None? ==> forall q :: p <= q < |s| ==> CaptureAt(s, q, words, g).None?
    decreases |s| - p
  {
    if p == |s| then None
    else match CaptureAt(s, p, words, g)
      case Some(c) => Some((p, c))
      case None => FirstCapture(s, words, g, p + 1)
  }

  /** A keyword needs at least one character after it, so nothing matches
      at or after the end. */
  lemma NoCaptureAtEnd(s: string, q: nat, words: seq<string>, g: Group)
    requires |s| <= q
    ensures CaptureAt(s, q, words, g).None?
  {
  }

  const TitleKeys: seq<string> := ["title", "料理名"]
  const DescriptionKeys: seq<string> := ["description", "説明"]
  const TimeKeys: seq<string> := ["cookingtime", "調理時間"]

  const StreamDefaultTitle: string := "レシピ"
  const StreamDefaultDescription: string := "レシピの説明"
  const StreamMainIngredients: Value := Arr([Str("材料1"), Str("材料2")])
  const StreamFeatures: Value := Arr([Str("特徴1"), Str("特徴2")])

  /** `match?.[1]?.trim() || fallback`. */
  function TrimmedOr(m: Option<(nat, string)>, fallback: string): (r: string)
    requires fallback != ""
    ensures r != ""
    ensures m.Some? && Trim(m.value.1) != "" ==> r == Trim(m.value.1)
    ensures m.None? || Trim(m.value.1) == "" ==> r == fallback
  {
    if m.Some? && Trim(m.value.1) != "" then Trim(m.value.1) else fallback
  }

  /** `parseInt` of a string that starts with a digit run: the value of
      that run. */
  function ParseIntPrefix(c: string): nat {
    DigitsValue(c[..DigitRunEnd(c, 0)])
  }

  /** `match?.[1]?.trim() || fallback`, for the `title` and `description`
      patterns. */
  function TextField(text: string, words: seq<string>, fallback: string): (r: string)
    requires fallback != ""
    ensures r != ""
  {
    TrimmedOr(FirstCapture(text, words, AnyText, 0), fallback)
  }

  /** `timeMatch ? parseInt(timeMatch[1]) : 60`. */
  function TimeField(text: string): (r: real)
    ensures FirstCapture(text, TimeKeys, Digits, 0).None? ==> r == 60.0
  {
    match FirstCapture(text, TimeKeys, Digits, 0)
    case Some((_, c)) => ParseIntPrefix(c) as real
    case None => 60.0
  }

  /** The object `extractRecipeFromText` returns, with its three
      extracted fields given. */
  function TextRecord(title: string, description: string, cookingTime: real): (r: Value)
    ensures r.Obj? && Prop(r, "title") == Str(title) && Prop(r, "description") == Str(description)
    ensures Prop(r, "cookingTime") == Num(cookingTime)
    ensures Prop(r, "mainIngredients") == StreamMainIngredients && Prop(r, "features") == StreamFeatures
  {
    Obj(map[
      "title" := Str(title),
      "description" := Str(description),
      "cookingTime" := Num(cookingTime),
      "mainIngredients" := StreamMainIngredients,
      "features" := StreamFeatures])
  }

  /** `extractRecipeFromText`: the three labelled values, or the fixed
      defaults, and two-element placeholder lists. */
  function ExtractRecipeFromText(text: string): (r: Value)
    ensures r.Obj?
    ensures Prop(r, "title") == Str(TextField(text, TitleKeys, StreamDefaultTitle))
    ensures Prop(r, "description") == Str(TextField(text, DescriptionKeys, StreamDefaultDescription))
    ensures Prop(r, "cookingTime") == Num(TimeField(text))
    ensures Prop(r, "mainIngredients") == StreamMainIngredients && Prop(r, "features") == StreamFeatures
  {
    TextRecord(TextField(text, TitleKeys, StreamDefaultTitle),
               TextField(text, DescriptionKeys, StreamDefaultDescription),
               TimeField(text))
  }

  /** When a time label is found its whole group is digits, so `parseInt`
      reads exactly that group. */
  lemma TimeFieldIsCapturedNumber(text: string)
    requires FirstCapture(text, TimeKeys, Digits, 0).Some?
    ensures var c := FirstCapture(text, TimeKeys, Digits, 0).value.1;
      |c| > 0 && (forall k :: 0 <= k < |c| ==> IsDigit(c[k]))
      && TimeField(text) == DigitsValue(c) as real
  {
    var m := FirstCapture(text, TimeKeys, Digits, 0).value;
    DigitsCaptured(text, TimeKeys, m.0);
    assert DigitRunEnd(m.1, 0) == |m.1|;
    assert m.1[..|m.1|] == m.1;
  }

  /** A `\d+` group is a non-empty run of digits. */
  lemma DigitsCaptured(s: string, words: seq<string>, p: nat)
    requires CaptureAt(s, p, words, Digits).Some?
    ensures var c := CaptureAt(s, p, words, Digits).value;
      |c| > 0 && forall k :: 0 <= k < |c| ==> IsDigit(c[k])
  {
  }

  // ---------------------------------------------------------------------
  // parseRecipeResponse (streaming)

  /** The streaming parser: a fenced block is parsed as it is, with no
      cleanup, and a failed parse of it throws (`None`); without a fence the
      whole reply is parsed, falling back to `extractRecipeFromText`. */
  function ParseStreamedResponse(jsonParse: string -> Option<Value>, response: string): (r: Option<Value>)
    ensures FencedBody(response).Some? ==> r == jsonParse(FencedBody(response).value)
    ensures FencedBody(response).None? && jsonParse(response).Some? ==> r == jsonParse(response)
    ensures FencedBody(response).None? && jsonParse(response).None? ==> r == Some(ExtractRecipeFromText(response))
  {
    match FencedBody(response)
    case Some(body) => jsonParse(body)
    case None =>
      match jsonParse(response)
      case Some(v) => Some(v)
      case None => Some(ExtractRecipeFromText(response))
  }

  /** Only a fenced block whose body does not parse makes the streaming
      parser throw; every unfenced reply yields a value. */
  lemma StreamedParseThrowsIff(jsonParse: string -> Option<Value>, response: string)
    ensures ParseStreamedResponse(jsonParse, response).None?
            <==> FencedBody(response).Some? && jsonParse(FencedBody(response).value).None?
  {
  }

  // ---------------------------------------------------------------------
  // createAndSaveRecipeDetail

  /** The streaming detail builder: every summary field falls back to the
      persona default used for accepted drafts, the other fields as in the
      blocking builder, and `imageUrl` is copied from the reply. Reading a
      property of a nullish reply, or mapping a truthy non-array ingredient
      list, throws. The database write, whose failure is only logged, is
      left out. */
  function BuildStreamDetail(parsed: Value, a: AgentType, recipeId: string): (r: Result<RecipeDetail, DetailFailure>)
    ensures r.Err? <==> IsNullish(parsed) || SanitizeIngredients(Prop(parsed, "ingredients")).None?
    ensures r.Err? ==> r.error == TypeError
  {
    if IsNullish(parsed) then Err(TypeError)
    else match SanitizeIngredients(Prop(parsed, "ingredients"))
      case None => Err(TypeError)
      case Some(xs) =>
        var w := AcceptedRecipe(recipeId, a, parsed);
        Ok(RecipeDetail(
          recipeId, a, w.title, w.description, w.cookingTime, w.mainIngredients, w.features,
          IngredientsOrPlaceholder(xs),
          Or(Prop(parsed, "steps"), DefaultSteps),
          Or(Prop(parsed, "nutritionInfo"), DefaultNutrition),
          Or(Prop(parsed, "tips"), DefaultTips),
          Or(Prop(parsed, "servings"), Num(4.0)),
          Or(Prop(parsed, "prepTime"), Num(15.0)),
          TotalTime(parsed),
          w.imageUrl))
  }

  /** A streamed record has the defaulted detail fields, the given id and
      persona, and the same ingredient list and total time as the blocking
      builder would give. */
  lemma StreamDetailDefaulted(parsed: Value, a: AgentType, recipeId: string)
    requires BuildStreamDetail(parsed, a, recipeId).Ok?
    ensures var d := BuildStreamDetail(parsed, a, recipeId).value;
      var xs := SanitizeIngredients(Prop(parsed, "ingredients")).value;
      DetailDefaulted(d) && d.id == recipeId && d.agentType == a
      && d.ingredients == IngredientsOrPlaceholder(xs) && d.totalTime == TotalTime(parsed)
  {
  }

  /** The summary a completed event carries is exactly the entry the
      blocking generator builds for an accepted draft, but the streaming path
      never validates it: every summary field is merely truthy. */
  lemma StreamSummaryIsAcceptedEntry(parsed: Value, a: AgentType, recipeId: string)
    requires BuildStreamDetail(parsed, a, recipeId).Ok?
    ensures var r := Summary(BuildStreamDetail(parsed, a, recipeId).value);
      r == AcceptedRecipe(recipeId, a, parsed)
      && Truthy(r.title) && Truthy(r.description) && Truthy(r.cookingTime)
      && Truthy(r.mainIngredients) && Truthy(r.features)
      && (Truthy(Prop(parsed, "title")) ==> r.title == Prop(parsed, "title"))
      && (!Truthy(Prop(parsed, "title")) ==> r.title == Str(AgentName(a) + TitleSuffix))
      && (!Truthy(Prop(parsed, "cookingTime")) ==> r.cookingTime == Num(30.0))
  {
    assert Truthy(Str(AgentName(a) + TitleSuffix)) && Truthy(Str(AgentName(a) + DescriptionSuffix));
  }

  /** The two detail builders fail on the same replies and agree on every
      field that is not a summary field. */
  lemma DetailBuildersAgree(parsed: Value, a: AgentType, recipeId: string, title: string)
    ensures BuildStreamDetail(parsed, a, recipeId).Ok? <==> BuildDetail(recipeId, title, a, parsed).Ok?
    ensures BuildStreamDetail(parsed, a, recipeId).Ok? ==>
      var d := BuildStreamDetail(parsed, a, recipeId).value; var e := BuildDetail(recipeId, title, a, parsed).value;
      d.ingredients == e.ingredients && d.steps == e.steps && d.nutritionInfo == e.nutritionInfo
      && d.tips == e.tips && d.servings == e.servings && d.prepTime == e.prepTime && d.totalTime == e.totalTime
  {
  }

  // ---------------------------------------------------------------------
  // Events

  /** UTF-16 code units of a character: JavaScript's `length` counts a
      character outside the Basic Multilingual Plane twice. */
  function CodeUnits(c: char): nat {
    if c as int > 0xFFFF then 2 else 1
  }

  /** `s.length` in JavaScript. */
  function Utf16Length(s: string): nat
    decreases |s|
  {
    if s == [] then 0 else Utf16Length(s[..|s| - 1]) + CodeUnits(s[|s| - 1])
  }

  lemma {:induction false} Utf16Append(a: string, b: string)
    ensures Utf16Length(a + b) == Utf16Length(a) + Utf16Length(b)
    decreases |b|
  {
    if b != [] {
      assert (a + b)[..|a + b| - 1] == a + b[..|b| - 1];
      Utf16Append(a, b[..|b| - 1]);
    } else {
      assert a + b == a;
    }
  }

  /** `Math.min(90, accumulated.length / 10)`. */
  function ProgressOf(accumulated: string): (r: real)
    ensures 0.0 <= r <= 90.0
  {
    var p := Utf16Length(accumulated) as real / 10.0;
    if p < 90.0 then p else 90.0
  }

  /** More text never means less progress. */
  lemma ProgressGrows(a: string, b: string)
    ensures ProgressOf(a) <= ProgressOf(a + b)
  {
    Utf16Append(a, b);
  }

  /** The fragments joined in arrival order. */
  function Concat(fs: seq<string>): string
    decreases |fs|
  {
    if fs == [] then "" else Concat(fs[..|fs| - 1]) + fs[|fs| - 1]
  }

  lemma {:induction false} ConcatAppend(xs: seq<string>, ys: seq<string>)
    ensures Concat(xs + ys) == Concat(xs) + Concat(ys)
    decreases |ys|
  {
    if ys != [] {
      assert (xs + ys)[..|xs + ys| - 1] == xs + ys[..|ys| - 1];
      ConcatAppend(xs, ys[..|ys| - 1]);
    } else {
      assert xs + ys == xs;
    }
  }

  function StartedChunk(a: AgentType): StreamChunk {
    StreamChunk(a, Started, "", None, 0.0)
  }

  function ProgressChunk(a: AgentType, accumulated: string): StreamChunk {
    StreamChunk(a, Progress, accumulated, None, ProgressOf(accumulated))
  }

  function ErrorChunk(a: AgentType): StreamChunk {
    StreamChunk(a, Error, "", None, 100.0)
  }

  function CompletedChunk(a: AgentType, r: Recipe): StreamChunk {
    StreamChunk(a, Completed, "", Some(r), 100.0)
  }

  /** One progress event per fragment, each carrying all text so far. */
  function ProgressChunks(a: AgentType, fs: seq<string>): (r: seq<StreamChunk>)
    ensures |r| == |fs|
    ensures forall k :: 0 <= k < |fs| ==> r[k] == ProgressChunk(a, Concat(fs[..k + 1]))
  {
    seq(|fs|, k requires 0 <= k < |fs| => ProgressChunk(a, Concat(fs[..k + 1])))
  }

  lemma ProgressChunksSnoc(a: AgentType, fs: seq<string>, i: nat)
    requires i < |fs|
    ensures ProgressChunks(a, fs[..i + 1]) == ProgressChunks(a, fs[..i]) + [ProgressChunk(a, Concat(fs[..i + 1]))]
  {
    var cs, ds := ProgressChunks(a, fs[..i + 1]), ProgressChunks(a, fs[..i]);
    forall k | 0 <= k < i
      ensures cs[k] == ds[k]
    {
      assert fs[..i + 1][..k + 1] == fs[..i][..k + 1];
    }
    assert fs[..i + 1][..i + 1] == fs[..i + 1];
  }

  /** What the model's stream delivered: the fragments in order, and whether
      the stream then failed. */
  datatype StreamReply = StreamReply(fragments: seq<string>, failed: bool)

  /** The event that ends a persona's stream: an error when the stream
      failed, when parsing threw or when building the record threw, and
      otherwise the completed summary. */
  function Outcome(a: AgentType, index: nat, reply: StreamReply, jsonParse: string -> Option<Value>, stamp: nat): StreamChunk {
    if reply.failed then ErrorChunk(a)
    else match ParseStreamedResponse(jsonParse, Concat(reply.fragments))
      case None => ErrorChunk(a)
      case Some(parsed) =>
        match BuildStreamDetail(parsed, a, RecipeId(stamp, index))
        case Err(_) => ErrorChunk(a)
        case Ok(d) => CompletedChunk(a, Summary(d))
  }

  /** The `started` event, the progress events of `fs` and `last`. */
  function EventsAround(a: AgentType, fs: seq<string>, last: StreamChunk): seq<StreamChunk> {
    [StartedChunk(a)] + ProgressChunks(a, fs) + [last]
  }

  /** All events of one persona. */
  function AgentEvents(a: AgentType, index: nat, reply: StreamReply, jsonParse: string -> Option<Value>, stamp: nat): seq<StreamChunk> {
    EventsAround(a, reply.fragments, Outcome(a, index, reply, jsonParse, stamp))
  }

  predicate Terminal(c: StreamChunk) {
    c.status == Completed || c.status == Error
  }

  /** The terminal event is for the persona, has progress 100 and carries a
      recipe exactly when it is a completed event. */
  predicate FinalChunk(a: AgentType, c: StreamChunk) {
    c.agentType == a && Terminal(c) && c.progress == 100.0 && (c.recipe.Some? <==> c.status == Completed)
  }

  lemma OutcomeIsFinal(a: AgentType, index: nat, reply: StreamReply, jsonParse: string -> Option<Value>, stamp: nat)
    ensures FinalChunk(a, Outcome(a, index, reply, jsonParse, stamp))
  {
  }

  /** A persona's events: `started` with progress 0 first, then the progress
      events, and exactly one terminal event, last, with progress 100; all
      carry the persona, and only a completed event carries a recipe. */
  lemma EventsShape(a: AgentType, fs: seq<string>, last: StreamChunk)
    ensures var evs := EventsAround(a, fs, last);
      |evs| == |fs| + 2
      && evs[0] == StartedChunk(a) && evs[|evs| - 1] == last
      && (forall k :: 1 <= k < |evs| - 1 ==> evs[k] == ProgressChunk(a, Concat(fs[..k])))
  {
    var evs := EventsAround(a, fs, last);
    var cs := ProgressChunks(a, fs);
    forall k | 1 <= k < |evs| - 1
      ensures evs[k] == ProgressChunk(a, Concat(fs[..k]))
    {
      var j := k - 1;
      assert evs[k] == cs[j];
      assert cs[j] == ProgressChunk(a, Concat(fs[..j + 1]));
    }
  }

  lemma EventsTerminalLast(a: AgentType, fs: seq<string>, last: StreamChunk)
    requires FinalChunk(a, last)
    ensures var evs := EventsAround(a, fs, last);
      (forall k :: 0 <= k < |evs| ==> evs[k].agentType == a && (Terminal(evs[k]) <==> k == |evs| - 1))
      && (forall k :: 0 <= k < |evs| ==> (evs[k].recipe.Some? <==> evs[k].status == Completed))
  {
    var evs := EventsAround(a, fs, last);
    var cs := ProgressChunks(a, fs);
    assert forall k :: 1 <= k < |evs| - 1 ==> evs[k] == cs[k - 1];
    assert forall k :: 1 <= k < |evs| - 1 ==> evs[k].status == Progress && evs[k].recipe.None? && evs[k].agentType == a;
  }

  lemma AgentEventsShape(a: AgentType, index: nat, reply: StreamReply, jsonParse: string -> Option<Value>, stamp: nat)
    ensures var evs := AgentEvents(a, index, reply, jsonParse, stamp);
      |evs| == |reply.fragments| + 2
      && evs[0] == StartedChunk(a)
      && (forall k :: 1 <= k < |evs| - 1 ==> evs[k] == ProgressChunk(a, Concat(reply.fragments[..k])))
      && (forall k :: 0 <= k < |evs| ==> evs[k].agentType == a && (Terminal(evs[k]) <==> k == |evs| - 1))
      && evs[|evs| - 1].progress == 100.0
      && (forall k :: 0 <= k < |evs| ==> (evs[k].recipe.Some? <==> evs[k].status == Completed))
  {
    OutcomeIsFinal(a, index, reply, jsonParse, stamp);
    EventsShape(a, reply.fragments, Outcome(a, index, reply, jsonParse, stamp));
    EventsTerminalLast(a, reply.fragments, Outcome(a, index, reply, jsonParse, stamp));
  }

  /** Along a persona's progress events the text only grows, each event's
      text extending the previous one's, and the progress never decreases
      and stays at most 90. */
  lemma ProgressMonotone(a: AgentType, fs: seq<string>, j: nat, k: nat)
    requires j <= k < |fs|
    ensures var cs := ProgressChunks(a, fs);
      StartsWith(cs[k].content, cs[j].content) && cs[j].progress <= cs[k].progress <= 90.0
  {
    assert fs[..k + 1] == fs[..j + 1] + fs[j + 1..k + 1];
    ConcatAppend(fs[..j + 1], fs[j + 1..k + 1]);
    var u := Concat(fs[..j + 1]);
    var t := Concat(fs[j + 1..k + 1]);
    assert (u + t)[..|u|] == u;
    ProgressGrows(u, t);
  }

  /** A persona completes exactly when its stream ended normally, the text
      parsed and the record could be built; its event then carries the
      record's summary under the id `recipe-<stamp>-<index>`. */
  lemma CompletedIff(a: AgentType, index: nat, reply: StreamReply, jsonParse: string -> Option<Value>, stamp: nat)
    ensures var o := Outcome(a, index, reply, jsonParse, stamp);
            var p := ParseStreamedResponse(jsonParse, Concat(reply.fragments));
      (o.status == Completed <==>
        !reply.failed && p.Some? && BuildStreamDetail(p.value, a, RecipeId(stamp, index)).Ok?)
      && (o.status == Completed ==>
        o.recipe == Some(Summary(BuildStreamDetail(p.value, a, RecipeId(stamp, index)).value))
        && o.recipe.value.id == RecipeId(stamp, index))
  {
  }

  /** What the streaming generator depends on but does not compute: the
      model's stream for a prompt, the JSON parser, and the `Date.now()`
      reading taken for persona `k`. */
  datatype StreamEnv = StreamEnv(
    stream: string -> StreamReply,
    jsonParse: string -> Option<Value>,
    now: nat -> nat)

  function StreamReplies(env: StreamEnv, input: RecipeInput): (r: seq<StreamReply>)
    ensures |r| == 3
  {
    seq(3, k requires 0 <= k < 3 => env.stream(PromptFor(AgentOrder[k], input)))
  }

  /** The events of the whole request, the personas taken in order. */
  function AllEvents(replies: seq<StreamReply>, jsonParse: string -> Option<Value>, now: nat -> nat): seq<StreamChunk>
    requires |replies| == 3
  {
    AgentEvents(Classic, 0, replies[0], jsonParse, now(0))
    + AgentEvents(Fusion, 1, replies[1], jsonParse, now(1))
    + AgentEvents(Healthy, 2, replies[2], jsonParse, now(2))
  }

  /** Number of terminal events of persona `a`. */
  function TerminalCount(evs: seq<StreamChunk>, a: AgentType): nat
    decreases |evs|
  {
    if evs == [] then 0
    else TerminalCount(evs[..|evs| - 1], a) + (if Terminal(evs[|evs| - 1]) && evs[|evs| - 1].agentType == a then 1 else 0)
  }

  lemma {:induction false} TerminalCountAppend(xs: seq<StreamChunk>, ys: seq<StreamChunk>, a: AgentType)
    ensures TerminalCount(xs + ys, a) == TerminalCount(xs, a) + TerminalCount(ys, a)
    decreases |ys|
  {
    if ys != [] {
      assert (xs + ys)[..|xs + ys| - 1] == xs + ys[..|ys| - 1];
      TerminalCountAppend(xs, ys[..|ys| - 1], a);
    } else {
      assert xs + ys == xs;
    }
  }

  /** Events with no terminal event among them count nothing. */
  lemma {:induction false} NoTerminals(evs: seq<StreamChunk>, a: AgentType)
    requires forall k :: 0 <= k < |evs| ==> !Terminal(evs[k])
    ensures TerminalCount(evs, a) == 0
    decreases |evs|
  {
    if evs != [] {
      NoTerminals(evs[..|evs| - 1], a);
    }
  }

  lemma AgentTerminalCount(b: AgentType, index: nat, reply: StreamReply, jsonParse: string -> Option<Value>, stamp: nat, a: AgentType)
    ensures TerminalCount(AgentEvents(b, index, reply, jsonParse, stamp), a) == if a == b then 1 else 0
  {
    var head := [StartedChunk(b)] + ProgressChunks(b, reply.fragments);
    NoTerminals(head, a);
    TerminalCountAppend(head, [Outcome(b, index, reply, jsonParse, stamp)], a);
    assert TerminalCount([Outcome(b, index, reply, jsonParse, stamp)], a) == if a == b then 1 else 0 by {
      assert [Outcome(b, index, reply, jsonParse, stamp)][..0] == [];
    }
  }

  /** Every persona ends with exactly one terminal event, whatever the
      model did. */
  lemma OneTerminalPerAgent(replies: seq<StreamReply>, jsonParse: string -> Option<Value>, now: nat -> nat, a: AgentType)
    requires |replies| == 3
    ensures TerminalCount(AllEvents(replies, jsonParse, now), a) == 1
  {
    var e0 := AgentEvents(Classic, 0, replies[0], jsonParse, now(0));
    var e1 := AgentEvents(Fusion, 1, replies[1], jsonParse, now(1));
    var e2 := AgentEvents(Healthy, 2, replies[2], jsonParse, now(2));
    TerminalCountAppend(e0 + e1, e2, a);
    TerminalCountAppend(e0, e1, a);
    AgentTerminalCount(Classic, 0, replies[0], jsonParse, now(0), a);
    AgentTerminalCount(Fusion, 1, replies[1], jsonParse, now(1), a);
    AgentTerminalCount(Healthy, 2, replies[2], jsonParse, now(2), a);
  }

  /** The callbacks of one streaming request: the events `onChunk` received
      and the number of `onComplete` calls. */
  class StreamSession {
    var events: seq<StreamChunk>
    var completions: nat

    constructor()
      ensures events == [] && completions == 0
    {
      events := [];
      completions := 0;
    }

    /** `onChunk(chunk)`. */
    method Emit(c: StreamChunk)
      modifies this
      ensures events == old(events) + [c] && completions == old(completions)
    {
      events := events + [c];
    }

    /** One persona: the `started` event, a progress event per fragment
        while the text accumulates, then the terminal event. */
    method RunAgent(a: AgentType, index: nat, reply: StreamReply, jsonParse: string -> Option<Value>, stamp: nat)
      modifies this
      ensures events == old(events) + AgentEvents(a, index, reply, jsonParse, stamp)
      ensures completions == old(completions)
    {
      Emit(StartedChunk(a));
      var accumulated := ForwardFragments(a, reply.fragments);
      var terminal := Terminate(a, index, reply, accumulated, jsonParse, stamp);
      Emit(terminal);
    }

    /** The `onContent` callback over the stream: the fragments are
        appended to the accumulated text and each one is forwarded as a
        progress event. */
    method ForwardFragments(a: AgentType, fs: seq<string>) returns (accumulated: string)
      modifies this
      ensures accumulated == Concat(fs)
      ensures events == old(events) + ProgressChunks(a, fs)
      ensures completions == old(completions)
    {
      accumulated := "";
      var i := 0;
      while i < |fs|
        invariant 0 <= i <= |fs|
        invariant accumulated == Concat(fs[..i])
        invariant events == old(events) + ProgressChunks(a, fs[..i])
        invariant completions == old(completions)
      {
        assert fs[..i + 1][..i] == fs[..i];
        accumulated := accumulated + fs[i];
        ProgressChunksSnoc(a, fs, i);
        Emit(ProgressChunk(a, accumulated));
        i := i + 1;
      }
      assert fs[..|fs|] == fs;
    }

    /** The three personas in order. */
    method RunAll(replies: seq<StreamReply>, jsonParse: string -> Option<Value>, now: nat -> nat)
      requires |replies| == 3
      modifies this
      ensures events == old(events) + AllEvents(replies, jsonParse, now)
      ensures completions == old(completions)
    {
      ghost var before := events;
      ghost var e0 := AgentEvents(Classic, 0, replies[0], jsonParse, now(0));
      ghost var e1 := AgentEvents(Fusion, 1, replies[1], jsonParse, now(1));
      ghost var e2 := AgentEvents(Healthy, 2, replies[2], jsonParse, now(2));
      RunAgent(Classic, 0, replies[0], jsonParse, now(0));
      RunAgent(Fusion, 1, replies[1], jsonParse, now(1));
      RunAgent(Healthy, 2, replies[2], jsonParse, now(2));
      AppendThree(before, e0, e1, e2);
    }

    /** `generateRecipesStream`: the three personas in order, then
        `onComplete`. */
    method GenerateRecipesStream(env: StreamEnv, input: RecipeInput)
      modifies this
      ensures events == old(events) + AllEvents(StreamReplies(env, input), env.jsonParse, env.now)
      ensures completions == old(completions) + 1
    {
      RunAll(StreamReplies(env, input), env.jsonParse, env.now);
      completions := completions + 1;
    }
  }

  lemma AppendThree<T>(xs: seq<T>, a: seq<T>, b: seq<T>, c: seq<T>)
    ensures xs + a + b + c == xs + (a + b + c)
  {
  }

  /** The terminal event computed from the accumulated text. */
  method Terminate(a: AgentType, index: nat, reply: StreamReply, accumulated: string, jsonParse: string -> Option<Value>, stamp: nat)
    returns (c: StreamChunk)
    requires accumulated == Concat(reply.fragments)
    ensures c == Outcome(a, index, reply, jsonParse, stamp)
  {
    if reply.failed {
      return ErrorChunk(a);
    }
    var parsed := ParseStreamedResponse(jsonParse, accumulated);
    if parsed.None? {
      return ErrorChunk(a);
    }
    var recipeId := RecipeId(stamp, index);
    var detail := BuildStreamDetail(parsed.value, a, recipeId);
    if detail.Err? {
      return ErrorChunk(a);
    }
    c := CompletedChunk(a, Summary(detail.value));
  }
}
