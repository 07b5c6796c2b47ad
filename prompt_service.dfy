/** The prompt texts sent to the model: the three persona prompts for a
    meal request, the detail prompt for a chosen recipe, and the dispatch
    from a persona tag to its prompt. Every function here is a function of
    its arguments, so equal requests give equal prompts. */
module PromptService {
  import opened Text
  import opened JsValues
  import opened RecipeTypes

  /** `table[key] || key`: a key with a non-empty label becomes that label,
      every other value passes through unchanged. */
  function Label(table: map<string, string>, key: string): (r: string)
    ensures key in table && table[key] != "" ==> r == table[key]
    ensures key !in table || table[key] == "" ==> r == key
  {
    if key in table && table[key] != "" then table[key] else key
  }

  /** A table whose labels are non-empty and differ from their keys. */
  predicate ProperTable(table: map<string, string>) {
    forall k :: k in table ==> table[k] != "" && table[k] != k
  }

  /** The label differs from its input exactly when the input is a key. */
  lemma LabelChangesIffKey(table: map<string, string>, key: string)
    requires ProperTable(table)
    ensures Label(table, key) != key <==> key in table
  {
  }

  const CookingTimeLabels: map<string, string> :=
    map["30min" := "30分以内", "60min" := "1時間以内", "unlimited" := "時間制限なし"]

  const DifficultyLabels: map<string, string> :=
    map["beginner" := "初心者向け", "intermediate" := "中級者向け", "advanced" := "上級者向け"]

  const PriorityLabels: map<string, string> :=
    map["appearance" := "見た目の美しさ", "nutrition" := "栄養バランス",
        "quick" := "手軽さ・時短", "unique" := "独創性・ユニークさ"]

  lemma LabelTablesProper()
    ensures ProperTable(CookingTimeLabels) && ProperTable(DifficultyLabels) && ProperTable(PriorityLabels)
  {
  }

  function CookingTimeText(time: string): string {
    Label(CookingTimeLabels, time)
  }

  function DifficultyText(difficulty: string): string {
    Label(DifficultyLabels, difficulty)
  }

  function PriorityText(priority: string): string {
    Label(PriorityLabels, priority)
  }

  /** `specialRequests.join(', ') || 'なし'`. */
  function SpecialRequestsText(requests: seq<string>): (r: string)
    ensures r != ""
    ensures |requests| == 0 || (|requests| == 1 && requests[0] == "") ==> r == "なし"
    ensures |requests| >= 2 || (|requests| == 1 && requests[0] != "") ==> r == Join(requests, ", ")
  {
    JoinEmptyIff(requests, ", ");
    var joined := Join(requests, ", ");
    if joined == "" then "なし" else joined
  }

  /** `avoidIngredients || 'なし'`. */
  function AvoidText(avoid: string): (r: string)
    ensures r != "" && (avoid != "" ==> r == avoid)
  {
    if avoid == "" then "なし" else avoid
  }

  /** One condition line: its key, the value and a line break. */
  function Line(key: string, value: string): string {
    key + value + "\n"
  }

  const ThemeKey: string := "- テーマ: "
  const TimeKey: string := "- 調理時間: "
  const DifficultyKey: string := "- 難易度: "
  const RequestsKey: string := "- 特別な要望: "
  const AvoidKey: string := "- 避けたい食材: "
  const PriorityKey: string := "- 重視ポイント: "

  function ThemeLine(theme: string): string {
    Line(ThemeKey, theme)
  }

  function RequestsLine(requests: seq<string>): string {
    Line(RequestsKey, SpecialRequestsText(requests))
  }

  function AvoidLine(avoid: string): string {
    Line(AvoidKey, AvoidText(avoid))
  }

  /** The six condition lines every persona prompt lists. */
  function Conditions(input: RecipeInput): string {
    ThemeLine(input.theme)
    + Line(TimeKey, CookingTimeText(input.cookingTime))
    + Line(DifficultyKey, DifficultyText(input.difficulty))
    + RequestsLine(input.specialRequests)
    + AvoidLine(input.avoidIngredients)
    + Line(PriorityKey, PriorityText(input.priority))
  }

  /** The condition lines carry the theme verbatim and the requests and
      avoided ingredients with their `なし` defaults. */
  lemma ConditionsEmbed(input: RecipeInput)
    ensures Contains(Conditions(input), ThemeLine(input.theme))
    ensures Contains(Conditions(input), RequestsLine(input.specialRequests))
    ensures Contains(Conditions(input), AvoidLine(input.avoidIngredients))
  {
    SixParts(ThemeLine(input.theme),
      Line(TimeKey, CookingTimeText(input.cookingTime)),
      Line(DifficultyKey, DifficultyText(input.difficulty)),
      RequestsLine(input.specialRequests),
      AvoidLine(input.avoidIngredients),
      Line(PriorityKey, PriorityText(input.priority)));
  }

  lemma SixParts(a: string, b: string, c: string, d: string, e: string, f: string)
    ensures Contains(a + b + c + d + e + f, a)
    ensures Contains(a + b + c + d + e + f, d)
    ensures Contains(a + b + c + d + e + f, e)
  {
    ContainsMiddle([], a, b + c + d + e + f);
    assert [] + a + (b + c + d + e + f) == a + b + c + d + e + f;
    ContainsMiddle(a + b + c, d, e + f);
    assert a + b + c + d + (e + f) == a + b + c + d + e + f;
    ContainsMiddle(a + b + c + d, e, f);
  }

  /** The answer format every persona prompt ends with, around the
      persona's hint for the description. */
  function ResponseFormat(hint: string): string {
    FormatOpen + hint + FormatClose
  }

  /** The answer format up to the `description` placeholder. */
  const FormatOpen: string := "以下のJSON形式で厳密に回答してください：\n{\n  \"title\": \"料理名\",\n  \"description\": \""

  /** The rest of the answer format and the numbered rules. */
  const FormatClose: string := FormatFields + FormatRules
  const FormatFields: string := "\",\n  \"cookingTime\": 30,\n  \"mainIngredients\": [\"主要材料1\", \"主要材料2\", \"主要材料3\"],\n  \"features\": [\"特徴1\", \"特徴2\", \"特徴3\"]\n}\n\n"
  const FormatRules: string := "重要事項：\n1. descriptionは必須です。空文字列にしないでください。\n2. cookingTimeは数値で入力してください（例: 30）\n3. 配列は最低3つの要素を含めてください\n4. JSON以外の文章は一切含めないでください"

  /** Who the persona is: the text after `あなたは` in its opening sentence. */
  function Expert(a: AgentType): string {
    match a
    case Classic => ClassicExpert
    case Fusion => FusionExpert
    case Healthy => HealthyExpert
  }

  const ClassicExpert: string := "経験豊富な家庭料理のエキスパート"
  const FusionExpert: string := "創造的なフュージョン料理のシェフ"
  const HealthyExpert: string := "栄養学に精通したヘルスコンシャスなシェフ"

  /** What the persona promises in its second sentence. */
  function Promise(a: AgentType): string {
    match a
    case Classic => ClassicPromise
    case Fusion => FusionPromise
    case Healthy => HealthyPromise
  }

  const ClassicPromise: string := "基本に忠実で、誰でも作れる美味しいレシピを提案します。"
  const FusionPromise: string := "異なる料理文化を組み合わせた独創的なレシピを提案します。"
  const HealthyPromise: string := "健康的で栄養バランスの良いレシピを提案します。"

  /** The request sentence. */
  function Ask(a: AgentType): string {
    match a
    case Classic => ClassicAsk
    case Fusion => FusionAsk
    case Healthy => HealthyAsk
  }

  const ClassicAsk: string := "以下の条件で料理を1つ提案してください："
  const FusionAsk: string := "以下の条件で革新的な料理を1つ提案してください："
  const HealthyAsk: string := "以下の条件で栄養価の高い料理を1つ提案してください："

  /** The text between the condition lines and the answer format: an empty
      line, and for two personas an extra instruction. */
  function Note(a: AgentType): string {
    match a
    case Classic => ClassicNote
    case Fusion => FusionNote
    case Healthy => HealthyNote
  }

  const ClassicNote: string := "\n"
  const FusionNote: string := "\n異なる文化の要素を組み合わせ、新しい味の体験を提供してください。\n\n"
  const HealthyNote: string := "\n低カロリー、高栄養、バランスの取れた食材を使用してください。\n\n"

  /** The persona's instruction for the `description` field. */
  function Hint(a: AgentType): string {
    match a
    case Classic => ClassicHint
    case Fusion => FusionHint
    case Healthy => HealthyHint
  }

  const ClassicHint: string := "料理の説明を2-3文で書いてください。必ず値を入れてください。"
  const FusionHint: string := "料理の説明を2-3文で独創性を強調して書いてください。必ず値を入れてください。"
  const HealthyHint: string := "料理の説明を2-3文で健康効果を含めて書いてください。必ず値を入れてください。"

  const Greeting: string := "あなたは"
  const Copula: string := "です。"
  const BlankLine: string := "\n\n"
  const ConditionsHeading: string := "\n\n条件：\n"

  /** Everything before the condition lines. */
  function Head(a: AgentType): string {
    Greeting + Expert(a) + Copula + Promise(a) + BlankLine + Ask(a) + ConditionsHeading
  }

  /** The text after the condition lines: the note and the answer format. */
  function Tail(a: AgentType): string {
    Note(a) + ResponseFormat(Hint(a))
  }

  /** `generateClassicChefPrompt`, `generateFusionChefPrompt` and
      `generateHealthyChefPrompt`: the head, the condition lines and the
      tail. The prompt opens with the persona's head and carries the theme,
      request and avoid lines. */
  function PromptFor(a: AgentType, input: RecipeInput): (r: string)
    ensures StartsWith(r, Head(a))
    ensures Contains(r, ThemeLine(input.theme))
    ensures Contains(r, RequestsLine(input.specialRequests))
    ensures Contains(r, AvoidLine(input.avoidIngredients))
  {
    var h, c, t := Head(a), Conditions(input), Tail(a);
    ConditionsEmbed(input);
    Framed(h, c, t, ThemeLine(input.theme));
    Framed(h, c, t, RequestsLine(input.specialRequests));
    Framed(h, c, t, AvoidLine(input.avoidIngredients));
    h + c + t
  }

  /** What framing a text between a head and a tail keeps. */
  lemma Framed(h: string, c: string, t: string, x: string)
    requires Contains(c, x)
    ensures StartsWith(h + c + t, h)
    ensures Contains(h + c + t, x)
  {
    assert (h + c + t)[..|h|] == h;
    ContainsSuffix(h, c, x);
    ContainsPrefix(h + c, t, x);
  }

  /** The heads of two personas differ right after `あなたは`. */
  lemma HeadsDiffer(a: AgentType, b: AgentType)
    requires a != b
    ensures |Head(a)| > 4 && |Head(b)| > 4 && Head(a)[4] != Head(b)[4]
  {
    assert Head(a)[4] == Expert(a)[0] && Head(b)[4] == Expert(b)[0];
  }

  lemma StartsDiffer(p: string, q: string, hp: string, hq: string, k: nat)
    requires StartsWith(p, hp) && StartsWith(q, hq)
    requires k < |hp| && k < |hq| && hp[k] != hq[k]
    ensures p != q
  {
    assert p[k] == hp[k] && q[k] == hq[k];
  }

  /** Different personas never send the same prompt. */
  lemma PersonaPromptsDiffer(a: AgentType, b: AgentType, input: RecipeInput)
    requires a != b
    ensures PromptFor(a, input) != PromptFor(b, input)
  {
    HeadsDiffer(a, b);
    StartsDiffer(PromptFor(a, input), PromptFor(b, input), Head(a), Head(b), 4);
  }

  /** `getPromptByAgentType`: the matching persona's prompt, and an error
      for any other tag. */
  function GetPromptByAgentType(tag: string, input: RecipeInput): (r: Result<string, string>)
    ensures r.Ok? <==> ParseAgentType(tag).Some?
    ensures r.Ok? ==> r.value == PromptFor(ParseAgentType(tag).value, input)
    ensures r.Err? ==> r.error == "Unknown agent type: " + tag
  {
    match ParseAgentType(tag)
    case Some(a) => Ok(PromptFor(a, input))
    case None => Err("Unknown agent type: " + tag)
  }

  /** Every persona's tag dispatches to its own prompt. */
  lemma DispatchByName(a: AgentType, input: RecipeInput)
    ensures GetPromptByAgentType(AgentName(a), input) == Ok(PromptFor(a, input))
  {
    ParseAgentName(a);
  }

  lemma AppendStartsWith(a: string, b: string)
    ensures StartsWith(a + b, a)
  {
    assert (a + b)[..|a|] == a;
  }

  /** The phrase the detail prompt adds for each persona. */
  function AgentContext(a: AgentType): string {
    match a
    case Classic => ClassicContext
    case Fusion => FusionContext
    case Healthy => HealthyContext
  }

  const ClassicContext: string := "伝統的で家庭的な調理法を重視し、"
  const FusionContext: string := "創造的で革新的な調理技術を活用し、"
  const HealthyContext: string := "栄養価を最大化する調理法を選択し、"

  const OpenQuote: string := "「"
  const DetailRequest: string := "」の詳細なレシピを作成してください。"
  /** The detail prompt after the persona's phrase, section by section of
      its answer format. */
  const DetailTail: string := DetailIntro + IngredientsFormat + StepsFormat + NutritionFormat + ServingsFormat + JsonOnlyRule
  const DetailIntro: string := "誰でも作れるよう丁寧に説明してください。\n\n以下のJSON形式で厳密に回答してください：\n{\n"
  const IngredientsFormat: string := "  \"ingredients\": [\n    {\n      \"name\": \"食材名\",\n      \"amount\": \"分量\",\n      \"unit\": \"単位\",\n      \"notes\": \"備考（任意）\"\n    }\n  ],\n"
  const StepsFormat: string := "  \"steps\": [\n    {\n      \"stepNumber\": 1,\n      \"instruction\": \"具体的な手順\",\n      \"duration\": 時間（分、任意）,\n      \"temperature\": \"温度（任意）\",\n      \"tips\": \"コツ（任意）\"\n    }\n  ],\n"
  const NutritionFormat: string := "  \"nutritionInfo\": {\n    \"calories\": カロリー,\n    \"protein\": タンパク質（g）,\n    \"carbs\": 炭水化物（g）,\n    \"fat\": 脂質（g）,\n    \"fiber\": 食物繊維（g）,\n    \"sodium\": 塩分（mg）\n  },\n"
  const ServingsFormat: string := "  \"tips\": [\"調理のコツ1\", \"調理のコツ2\"],\n  \"servings\": 人分,\n  \"prepTime\": 準備時間（分）,\n  \"totalTime\": 総調理時間（分）\n}\n\n"
  const JsonOnlyRule: string := "**重要: 必ず有効なJSON形式のみで回答してください。説明文は含めず、JSON以外の文字は一切出力しないでください。**"

  /** `generateDetailedRecipePrompt`: the title inside `「」`, then the
      persona's phrase, then the answer format. */
  function DetailedRecipePrompt(title: string, a: AgentType): (r: string)
    ensures StartsWith(r, OpenQuote + title + DetailRequest + AgentContext(a))
  {
    var lead := OpenQuote + title + DetailRequest + AgentContext(a);
    AppendStartsWith(lead, DetailTail);
    lead + DetailTail
  }
}
