# Recipe generation pipeline, modelled in Dafny

This is a model of the recipe backend and the streaming frontend of
take2_ai_recipe, together with proofs about it. A meal request is turned
into three prompts, one per chef persona: classic, fusion and healthy. The
model's answers run through a tolerant parser and a repairing validator and
become summary recipes. A detail request produces one fully defaulted
detailed recipe. A streaming variant emits, for each persona, a `started`
event, a series of `progress` events with the accumulated text, and one
terminal `completed` or `error` event. A React hook folds those events into
three progress cards.

The modules follow the program's files:

- `JsValues` is the untyped JavaScript value the code handles as `any`.
  It gives JavaScript truthiness, `||`, property reads, and the cases
  where a property read throws.
- `Text` holds the string operations the code uses: `trim`, `split`,
  `indexOf`/`lastIndexOf`, substring containment, and `parseInt` of a digit
  run.
- `RecipeTypes` holds the personas and the record shapes. Fields the code
  copies out of parsed model output without checking them stay `Value`.
- `Fence` is the regular expression ```` /```json\s*\n([\s\S]*?)\n\s*```/ ````.
  It is written as a scan in the order a backtracking engine tries matches,
  and proved against a declarative statement of the pattern and of which
  match the engine reports.
- `LlmResponseParser` is `LLMResponseParser`. It covers the parse cascade,
  `cleanJsonString`, the line-based text extraction (an imperative method
  over a mutable field map, proved against a fold over the lines), the
  default record, and `validateRecipeData`. That last one is a method that
  mutates a `Draft` object in place, proved against the function
  `Validation`.
- `DetailDefaults` is the ingredient sanitizer and the fixed detail
  defaults that both detail builders share.
- `PromptService` covers the label tables, the three persona prompts, the
  dispatch and the detail prompt.
- `RecipeGeneration` is the blocking `generateRecipes` loop, a method whose
  loop invariant ties the pushed list to a specification function. It also
  holds the `generateRecipeDetail` record builder.
- `StreamingGeneration` covers the streaming parser and text extractor, the
  streamed record builder, and a `StreamSession` class. Its methods append
  each persona's events to an event log exactly as the agent closures do.
- `RecipeController` and `FeedbackController` are the request validators
  and the handlers' status decisions. Feedback documents are saved into a
  `FeedbackCollection` object.
- `StreamingHook` is `useStreamingRecipes`: one pure transition per
  callback, and a class that applies them to its state.
- `RecipeStore` holds the two zustand stores, as classes whose setters
  replace fields.

### Where the code and its design description differ

The model follows the code in each case below.

- The design description says that a persona whose model call fails is
  replaced by a fallback recipe, so that a result always has three
  entries. In the code (recipeGenerationService.ts:67-72) such a persona
  contributes nothing, and so does a parse or validation that throws. The
  fallback recipe is used only when `validateRecipeData` returns `false`.
  The result therefore holds 1 to 3 entries, and an empty result is the 500
  error. `GeneratedListedIff` states exactly when a persona is listed.
- The design description speaks of steps numbered by position. The code
  passes a truthy `steps` value through unchanged, with no renumbering.
  `DetailPassThrough` states this pass-through.
- The design description says a partial nutrition record is kept
  because its key is present. The code keeps any truthy value and replaces
  a falsy one (for example `0` or `""`) with the defaults.
- In the streaming service, a fenced block that fails to parse makes the
  persona end with an `error` event. Neither the text fallback nor the
  cleanup pass is used there (streamingRecipeGenerationService.ts:118-121).
  `StreamedParseThrowsIff` states when this happens.

## Model

| member | source | states |
|---|---|---|
| Fence.CloseHereIff | backend/src/utils/llmResponseParser.ts:9 | The closing part (a newline, blanks, three backquotes) can be decided from the end of the whitespace run alone, because a backquote is not whitespace |
| Fence.FirstClose | backend/src/utils/llmResponseParser.ts:9 | The lazy group ends at the smallest position from which the closing part matches; none means no later position matches |
| Fence.TryGroupStarts | backend/src/utils/llmResponseParser.ts:9 | The greedy `\s*\n` chooses the largest group start that is preceded by a newline and followed by some closing part; larger starts have none |
| Fence.MatchFrom | backend/src/utils/llmResponseParser.ts:9 | Anchored at an opener, it returns a match of the whole pattern, and every other match there has a shorter `\s*` or, with the same `\s*`, a longer group |
| Fence.SearchFrom | backend/src/utils/llmResponseParser.ts:9 | Finds the leftmost opener position at which the pattern matches; no position before it matches |
| Fence.FencedBody | backend/src/utils/llmResponseParser.ts:9 | `match(...)?.[1]` is absent exactly when the pattern matches nowhere; otherwise it is the capture group of the match a backtracking engine reports (leftmost, greedy blank run, shortest group) |
| LlmResponseParser.StripControls | backend/src/utils/llmResponseParser.ts:50 | The result has no U+0000–U+001F or U+007F–U+009F character, is a subsequence of the input, and holds every other character exactly as often as the input does, so exactly the control characters are deleted |
| LlmResponseParser.StripTrailingCommasFrom | backend/src/utils/llmResponseParser.ts:51 | Removing a comma before blanks and a closing bracket deletes only commas: the result equals the input once commas are ignored |
| LlmResponseParser.CollapseCommasFrom | backend/src/utils/llmResponseParser.ts:52 | Removing the comma between a closing bracket and blanks plus a closing bracket deletes only commas |
| LlmResponseParser.CommaPassesDeleteOnlyCommas | backend/src/utils/llmResponseParser.ts:51-52 | The two comma passes together give a subsequence of their input with exactly the same non-comma characters |
| LlmResponseParser.CleanJsonString | backend/src/utils/llmResponseParser.ts:48-54 | The cleaned text is a subsequence of the input, holds no control character, and neither starts nor ends with whitespace |
| LlmResponseParser.CleanOfCleanText | backend/src/utils/llmResponseParser.ts:48-54 | Text with no control character, no comma and no outer whitespace is left unchanged, so cleaning a cleaned comma-free text is the identity |
| LlmResponseParser.NonEmptyTrimmed | backend/src/utils/llmResponseParser.ts:57 | `.map(trim).filter(line => line)` keeps only non-empty lines, each already trimmed |
| LlmResponseParser.Lines | backend/src/utils/llmResponseParser.ts:57 | Every line handed to the scan is non-empty and trimmed |
| LlmResponseParser.ColonFrom | backend/src/utils/llmResponseParser.ts:84 | Finds the first `:` or `：` that is followed by a non-terminator character, the only place `/[:：](.+)/` can match |
| LlmResponseParser.ColonValue | backend/src/utils/llmResponseParser.ts:84-85 | The group of `/[:：](.+)/` is the non-empty rest of the line after the first matching colon; absent exactly when no colon matches |
| LlmResponseParser.FirstDigitRun | backend/src/utils/llmResponseParser.ts:96 | `/(\d+)/` captures the maximal digit run starting at the first digit; absent exactly when the line has no digit |
| LlmResponseParser.Unquote | backend/src/utils/llmResponseParser.ts:85 | Removing `"` leaves no double quote |
| LlmResponseParser.TitleOf | backend/src/utils/llmResponseParser.ts:83-86 | A title update comes only from a line containing `料理名`, `タイトル` or `title`, and its value holds no double quote |
| LlmResponseParser.DescriptionOf | backend/src/utils/llmResponseParser.ts:89-92 | A description update comes only from a line containing `説明` or `description`, and its value holds no double quote |
| LlmResponseParser.TimeOf | backend/src/utils/llmResponseParser.ts:95-98 | A cooking-time update comes only from a line containing `調理時間` or `cookingTime` |
| LlmResponseParser.Updates | backend/src/utils/llmResponseParser.ts:81-99 | The updates are the per-line updates of the lines, in order |
| LlmResponseParser.ScanPrefixStep | backend/src/utils/llmResponseParser.ts:81-99 | Scanning one more line applies that line's update to the state after the earlier lines, as the `forEach` does |
| LlmResponseParser.Finish | backend/src/utils/llmResponseParser.ts:101-118 | After the patches, an empty title or description becomes its default, the scanned cooking time stays, and both lists are the three-element defaults |
| LlmResponseParser.DefaultTexts | backend/src/utils/llmResponseParser.ts:102-108 | Only an empty title or description is replaced by its default |
| LlmResponseParser.FinishFixedFields | backend/src/utils/llmResponseParser.ts:59-79 | The extracted record keeps the fixed nutrition values, servings 4, prepTime 15 and totalTime 45 |
| LlmResponseParser.ExtractedData | backend/src/utils/llmResponseParser.ts:56-119 | Text extraction always yields an object with a non-empty string title and description, the scanned cooking time and the three-element default lists |
| LlmResponseParser.ExtractedFixedFields | backend/src/utils/llmResponseParser.ts:59-79 | Every extracted record carries the fixed detail fields |
| LlmResponseParser.ExtractDataFromText | backend/src/utils/llmResponseParser.ts:56-119 | The imperative scan over the lines, with its patches, returns exactly `ExtractedData(text)` |
| LlmResponseParser.ScanLineInPlace | backend/src/utils/llmResponseParser.ts:81-99 | One iteration of the loop body updates the mutable field map exactly as the fold's step does |
| LlmResponseParser.PatchDefaults | backend/src/utils/llmResponseParser.ts:101-118 | The four in-place patches give exactly `Finish` of the scanned state |
| LlmResponseParser.CookingTimeDefault | backend/src/utils/llmResponseParser.ts:95-98 | With no cooking-time line carrying a digit, the cooking time stays 30 |
| LlmResponseParser.LastTitleLineWins | backend/src/utils/llmResponseParser.ts:81-86 | The title is the value of the last title line; later matching lines overwrite earlier ones |
| LlmResponseParser.NoTitleLine | backend/src/utils/llmResponseParser.ts:81-86 | With no title line the scanned title stays empty, so the default applies |
| LlmResponseParser.LastDescriptionLineWins | backend/src/utils/llmResponseParser.ts:88-92 | The description is the value of the last description line; later matching lines overwrite earlier ones |
| LlmResponseParser.NoDescriptionLine | backend/src/utils/llmResponseParser.ts:88-92 | With no description line the scanned description stays empty, so the default applies |
| LlmResponseParser.LastTimeLineWins | backend/src/utils/llmResponseParser.ts:94-98 | The cooking time is the parsed first digit run of the last cooking-time line that holds a digit |
| LlmResponseParser.WithSummary | backend/src/utils/llmResponseParser.ts:121-127 | Setting the five summary fields on a field map yields an object that reads back those five values |
| LlmResponseParser.DefaultRecipeData | backend/src/utils/llmResponseParser.ts:121-148 | The constant default has a non-blank title and description, cooking time 30 and non-empty ingredient and feature lists |
| LlmResponseParser.DraftTextsNonBlank | backend/src/utils/llmResponseParser.ts:123-124 | The default title and description are not blank after trimming |
| LlmResponseParser.Candidate | backend/src/utils/llmResponseParser.ts:7-30 | The text handed to `JSON.parse`, when there is one, is a subsequence of the response and free of control characters |
| LlmResponseParser.BraceSpan | backend/src/utils/llmResponseParser.ts:22-27 | The substring strategy applies exactly when `{` occurs and the last `}` comes after it; it is the text from the first `{` to the last `}` inclusive |
| LlmResponseParser.FencedBodyIsSubseq | backend/src/utils/llmResponseParser.ts:9-11 | The fenced body is a subsequence of the response |
| LlmResponseParser.ParseRecipeResponse | backend/src/utils/llmResponseParser.ts:4-46 | The cascade never throws: it returns the parse of the chosen candidate when that parse succeeds, and otherwise the text extraction of the whole response |
| LlmResponseParser.FencedBlockDecides | backend/src/utils/llmResponseParser.ts:9-40 | Once a fenced block matches, only its cleaned body is parsed, and when that parse fails the result is the text extraction; the other strategies are skipped |
| LlmResponseParser.BraceCandidateIff | backend/src/utils/llmResponseParser.ts:16-30 | Without a fenced block, there is a candidate exactly when the trimmed text has a `{` followed later by a `}` |
| LlmResponseParser.WholeTextStrategyRedundant | backend/src/utils/llmResponseParser.ts:16-30 | When the trimmed text starts with `{` and ends with `}`, the substring strategy would pick the same whole text |
| LlmResponseParser.RepairedDescription | backend/src/utils/llmResponseParser.ts:158-161 | A non-blank description is kept; a missing or blank one becomes `${title}の美味しいレシピです。`; the result is never blank |
| LlmResponseParser.KeepOr | backend/src/utils/llmResponseParser.ts:170-185 | A non-empty array is kept; anything else becomes the default list |
| LlmResponseParser.RepairedTime | backend/src/utils/llmResponseParser.ts:164-167 | A positive number is kept; anything else becomes 30; the result is positive |
| LlmResponseParser.Repair | backend/src/utils/llmResponseParser.ts:158-185 | The repair sets description, cooking time and both lists to their repaired values and leaves every other field, the title included, unchanged |
| LlmResponseParser.Validation | backend/src/utils/llmResponseParser.ts:150-188 | It throws exactly for a nullish record, a truthy non-string title, or a truthy non-string description next to a good title. It rejects exactly a missing, falsy or blank title. When it accepts, the record has a non-blank title and description, a positive cooking time and non-empty lists, and every other field is unchanged. A non-blank description, a positive cooking time and a non-empty ingredient or feature list are kept as they were |
| LlmResponseParser.RepairNothingToFix | backend/src/utils/llmResponseParser.ts:158-185 | A record that already satisfies every check is not changed by the repair |
| LlmResponseParser.CompleteDraftAccepted | backend/src/utils/llmResponseParser.ts:150-188 | A complete record is accepted unchanged |
| LlmResponseParser.ValidationIdempotent | backend/src/utils/llmResponseParser.ts:150-188 | Validating a repaired record again accepts it and changes nothing |
| LlmResponseParser.DefaultRecipeDataAccepted | backend/src/utils/llmResponseParser.ts:121-188 | The constant default passes validation unchanged |
| LlmResponseParser.SingleLine | backend/src/utils/llmResponseParser.ts:57 | A text without a newline or outer whitespace is a single line |
| LlmResponseParser.ColonValueAt | backend/src/utils/llmResponseParser.ts:84 | With its first matching colon at `i` and no later line break, the captured value is the rest of the line |
| LlmResponseParser.SingleLineTitle | backend/src/utils/llmResponseParser.ts:81-104 | A one-line text whose title value is non-empty yields exactly that title |
| LlmResponseParser.TitleLineValue | backend/src/utils/llmResponseParser.ts:83-85 | For a title keyword followed by `:` and a value, the title update is the value with its quotes removed |
| LlmResponseParser.TitleLineExtracted | backend/src/utils/llmResponseParser.ts:81-104 | A text such as `title: Tomato Soup` yields the title `Tomato Soup`, trimmed and unquoted |
| LlmResponseParser.OneLine | backend/src/utils/llmResponseParser.ts:57 | Such a title text is one line |
| LlmResponseParser.QuotedBlankTitleRejected | backend/src/utils/llmResponseParser.ts:83-155 | Removing quotes after trimming can leave a blank title such as `" "`. The default is not applied to it, so validation rejects the extracted record |
| LlmResponseParser.BlankTitleRejected | backend/src/utils/llmResponseParser.ts:152-155 | A blank string title is rejected |
| LlmResponseParser.QuotedBlankExample | backend/src/utils/llmResponseParser.ts:85 | The value made of a blank, a quote, a blank and a quote is trimmed and unquoted to a single blank |
| LlmResponseParser.Draft.constructor | backend/src/utils/llmResponseParser.ts:150 | The draft holds the record handed in |
| LlmResponseParser.ValidateRecipeData | backend/src/utils/llmResponseParser.ts:150-188 | The in-place method throws, returns `false` or returns `true` as `Validation` says. Only acceptance mutates the object, and it leaves the repaired record |
| LlmResponseParser.FillDescription | backend/src/utils/llmResponseParser.ts:158-161 | Sets only the description, to its repaired value |
| LlmResponseParser.FillCookingTime | backend/src/utils/llmResponseParser.ts:164-167 | Sets only the cooking time, to its repaired value |
| LlmResponseParser.FillList | backend/src/utils/llmResponseParser.ts:170-185 | Sets only the named list, to itself when it is a non-empty array and to the default otherwise |
| DetailDefaults.SanitizeIngredient | backend/src/services/recipeGenerationService.ts:96-101 | Reading fields of a nullish element throws. Otherwise every truthy field is kept, falsy ones become `材料`/`適量`/`適量`/`''`, and name, amount and unit end up truthy |
| DetailDefaults.SanitizeAll | backend/src/services/recipeGenerationService.ts:96-101 | `.map` fails exactly when some element is nullish; otherwise element `k` is the sanitized element `k` |
| DetailDefaults.SanitizeIngredients | backend/src/services/recipeGenerationService.ts:96 | A falsy list is empty, a truthy non-array throws, an array is mapped; every result is complete |
| DetailDefaults.SanitizeIdempotent | backend/src/services/streamingRecipeGenerationService.ts:199-202 | Sanitizing an already sanitized list changes nothing, so the persistence layer's second `unit` pass has nothing to repair |
| DetailDefaults.SanitizedIsFixedPoint | backend/src/services/recipeGenerationService.ts:96-101 | A sanitized ingredient is a fixed point of the sanitizer |
| DetailDefaults.IngredientsOrPlaceholder | backend/src/services/recipeGenerationService.ts:111-113 | A non-empty list is kept; an empty one becomes the single placeholder entry |
| RecipeTypes.ParseAgentType | backend/src/services/promptService.ts:168-178 | A tag names a persona exactly when it is that persona's wire name |
| RecipeTypes.ParseAgentName | backend/src/services/promptService.ts:168-175 | Every persona's wire name parses back to it |
| RecipeTypes.AgentIndex | backend/src/services/recipeGenerationService.ts:19 | Each persona has its position in the order classic, fusion, healthy |
| RecipeTypes.Summary | backend/src/services/streamingRecipeGenerationService.ts:73-82 | The summary carries exactly the detail's id, persona, title, description, cooking time, lists and image |
| PromptService.Label | backend/src/services/promptService.ts:4-30 | A key with a non-empty label maps to it and any other string is returned unchanged; inherited object members are set aside under Left out |
| PromptService.LabelChangesIffKey | backend/src/services/promptService.ts:4-30 | On the fixed tables, a label differs from its input exactly when the input is a key |
| PromptService.LabelTablesProper | backend/src/services/promptService.ts:5-28 | No label in the three tables is empty or equal to its own key |
| PromptService.SpecialRequestsText | backend/src/services/promptService.ts:41 | The requests joined with `, `, or `なし` exactly when that join is empty |
| PromptService.AvoidText | backend/src/services/promptService.ts:42 | A non-empty value is used verbatim; an empty one becomes `なし` |
| PromptService.ConditionsEmbed | backend/src/services/promptService.ts:37-43 | The conditions block contains the theme line, the special-request line and the avoid line |
| PromptService.PromptFor | backend/src/services/promptService.ts:32-121 | Each persona prompt starts with that persona's introduction and embeds the theme, the requests and the ingredients to avoid |
| PromptService.HeadsDiffer | backend/src/services/promptService.ts:33-93 | The three introductions differ at a fixed position |
| PromptService.PersonaPromptsDiffer | backend/src/services/promptService.ts:32-121 | Two different personas never get the same prompt for the same request |
| PromptService.GetPromptByAgentType | backend/src/services/promptService.ts:168-179 | A known tag gets exactly its persona's prompt; any other tag gives `Unknown agent type: <tag>` |
| PromptService.DispatchByName | backend/src/services/promptService.ts:168-175 | Dispatching a persona's own tag gives that persona's prompt |
| PromptService.DetailedRecipePrompt | backend/src/services/promptService.ts:123-166 | The detail prompt starts with the title inside `「」`, the request phrase and the persona's context phrase |
| RecipeGeneration.RecipeIdInjective | backend/src/services/recipeGenerationService.ts:40 | `recipe-${stamp}-${i}` determines both the stamp and the index |
| RecipeGeneration.JudgeShaped | backend/src/services/recipeGenerationService.ts:34-38 | A persona has a verdict exactly when its call was fulfilled, and an accepted verdict carries a summary-shaped record |
| RecipeGeneration.VerdictsShaped | backend/src/services/recipeGenerationService.ts:24-38 | Every accepted verdict of the three personas carries a summary-shaped record |
| RecipeGeneration.FallbackWellFormed | backend/src/services/recipeGenerationService.ts:55-64 | The fallback recipe satisfies the summary invariant |
| RecipeGeneration.AcceptedKeepsDraft | backend/src/services/recipeGenerationService.ts:39-48 | An accepted recipe is well formed and takes its title, description, cooking time, lists and image from the validated record |
| RecipeGeneration.EntryForIdentity | backend/src/services/recipeGenerationService.ts:34-72 | A persona contributes an entry exactly when its call was fulfilled and validation did not throw; the entry has its id and persona |
| RecipeGeneration.EntryForWellFormed | backend/src/services/recipeGenerationService.ts:38-66 | An entry from an accepted or rejected verdict is well formed |
| RecipeGeneration.EntriesShape | backend/src/services/recipeGenerationService.ts:28-73 | The first `n` responses give at most `n` entries, in persona order, each the entry of its own persona's response |
| RecipeGeneration.EntriesOwn | backend/src/services/recipeGenerationService.ts:30-50 | Every entry is the one computed from the response at its persona's index |
| RecipeGeneration.EntriesOrdered | backend/src/services/recipeGenerationService.ts:19-33 | Entries appear in strictly increasing persona order |
| RecipeGeneration.ListedIff | backend/src/services/recipeGenerationService.ts:30-72 | A persona appears in the list exactly when its verdict exists and did not throw |
| RecipeGeneration.EntriesWellFormed | backend/src/services/recipeGenerationService.ts:38-66 | Every entry is well formed and the ids are pairwise distinct |
| RecipeGeneration.GeneratedEntriesShape | backend/src/services/recipeGenerationService.ts:15-77 | At most three entries, all well formed, with distinct ids, in persona order |
| RecipeGeneration.GeneratedListedIff | backend/src/services/recipeGenerationService.ts:24-72 | A persona is listed exactly when its call was fulfilled and validating its parsed reply did not throw |
| RecipeGeneration.GenerateRecipes | backend/src/services/recipeGenerationService.ts:15-84 | The loop's result is the list of entries when it is non-empty, and otherwise the 500 "all generation failed" error |
| RecipeGeneration.Contribution | backend/src/services/recipeGenerationService.ts:30-73 | One loop iteration yields the entry of response `i` |
| RecipeGeneration.EntryOfReply | backend/src/services/recipeGenerationService.ts:34-69 | Parsing, validating in place and building the recipe give the entry of the reply's verdict |
| RecipeGeneration.Names | backend/src/services/recipeGenerationService.ts:109 | `.map(ing => ing.name)` gives each ingredient's name in order |
| RecipeGeneration.LeadingNames | backend/src/services/recipeGenerationService.ts:109 | The names of the first at most three source ingredients. An empty array is truthy, so the `[title]` fallback is never used |
| RecipeGeneration.TotalTime | backend/src/services/recipeGenerationService.ts:108 | A truthy totalTime, else a truthy cookingTime, else 30; always truthy |
| RecipeGeneration.AssembleDetail | backend/src/services/recipeGenerationService.ts:103-130 | The detail has the caller's id, persona and title, the placeholder-or-sanitized ingredients, the leading names, both times from `TotalTime`, and all defaulted fields truthy |
| RecipeGeneration.BuildDetail | backend/src/services/recipeGenerationService.ts:93-130 | Building fails with a TypeError exactly for a nullish parse or an ingredient list that cannot be sanitized; otherwise it is the assembled detail |
| RecipeGeneration.DetailPassThrough | backend/src/services/recipeGenerationService.ts:103-130 | Truthy steps, nutrition, description, features and tips pass through unchanged and falsy ones get the fixed defaults; servings and prepTime default to 4 and 15 |
| RecipeGeneration.NoSourceIngredients | backend/src/services/recipeGenerationService.ts:109-113 | With no source ingredients, the main ingredients are empty and the ingredient list is the placeholder |
| RecipeGeneration.GenerateRecipeDetail | backend/src/services/recipeGenerationService.ts:87-140 | A failed model call propagates its error; otherwise the result is the build from the parsed reply to the detail prompt |
| StreamingGeneration.LastNonTerminator | backend/src/services/streamingRecipeGenerationService.ts:134 | Finds the last character before a bound that is not a line terminator, where a backtracking `\s*(.+)` ends |
| StreamingGeneration.TextCaptureAt | backend/src/services/streamingRecipeGenerationService.ts:134-135 | After a separator, `\s*(.+)` matches exactly when some group start works; the capture starts at the latest start and runs to the end of the line |
| StreamingGeneration.DigitCaptureAt | backend/src/services/streamingRecipeGenerationService.ts:136 | After a separator, `\s*(\d+)` captures a non-empty digit run and matches exactly when some start works |
| StreamingGeneration.AlternativesFrom | backend/src/services/streamingRecipeGenerationService.ts:134-136 | Returns the first keyword alternative that matches case-insensitively at the position, with its separator and group; none before it matches |
| StreamingGeneration.CaptureAt | backend/src/services/streamingRecipeGenerationService.ts:134-136 | The pattern matches at a position exactly when one of its keyword alternatives does |
| StreamingGeneration.FirstCapture | backend/src/services/streamingRecipeGenerationService.ts:134-136 | `text.match(...)` reports the leftmost position where the pattern matches, with that position's capture |
| StreamingGeneration.TrimmedOr | backend/src/services/streamingRecipeGenerationService.ts:139-140 | The trimmed capture when it is non-blank, else the fallback; never empty |
| StreamingGeneration.TextField | backend/src/services/streamingRecipeGenerationService.ts:139-140 | The extracted title and description are never empty |
| StreamingGeneration.TimeField | backend/src/services/streamingRecipeGenerationService.ts:141 | Without a cooking-time match the time is 60 |
| StreamingGeneration.TextRecord | backend/src/services/streamingRecipeGenerationService.ts:138-144 | The record reads back its title, description and time, and the two-element placeholder lists |
| StreamingGeneration.ExtractRecipeFromText | backend/src/services/streamingRecipeGenerationService.ts:132-145 | The extracted record has the captured or default title and description, the captured or default time, and the placeholder lists |
| StreamingGeneration.TimeFieldIsCapturedNumber | backend/src/services/streamingRecipeGenerationService.ts:136-141 | A captured time is a non-empty digit run and the time is its decimal value |
| StreamingGeneration.DigitsCaptured | backend/src/services/streamingRecipeGenerationService.ts:136 | A digit capture is a non-empty run of digits |
| StreamingGeneration.ParseStreamedResponse | backend/src/services/streamingRecipeGenerationService.ts:116-130 | A fenced body is parsed without cleanup and without fallback; otherwise the whole text is parsed, and on failure the text extraction is used |
| StreamingGeneration.StreamedParseThrowsIff | backend/src/services/streamingRecipeGenerationService.ts:116-130 | The streamed parse throws exactly when a fenced body exists and does not parse |
| StreamingGeneration.BuildStreamDetail | backend/src/services/streamingRecipeGenerationService.ts:147-188 | The build fails with a TypeError exactly for a nullish parse or an ingredient list that cannot be sanitized |
| StreamingGeneration.StreamDetailDefaulted | backend/src/services/streamingRecipeGenerationService.ts:153-188 | A built detail has every defaulted field truthy, its id and persona, the placeholder-or-sanitized ingredients and the first truthy of totalTime and cookingTime, else 30 |
| StreamingGeneration.StreamSummaryIsAcceptedEntry | backend/src/services/streamingRecipeGenerationService.ts:73-82 | The `completed` recipe is the projection of the built detail. It equals the blocking path's accepted recipe from the same record, its summary fields are truthy, and a falsy title or time gets the persona default |
| StreamingGeneration.DetailBuildersAgree | backend/src/services/streamingRecipeGenerationService.ts:153-188 | Both detail builders fail on the same inputs and otherwise agree on ingredients, steps, nutrition, tips, servings and both times |
| StreamingGeneration.ProgressOf | backend/src/services/streamingRecipeGenerationService.ts:59 | `min(90, length / 10)` over UTF-16 length lies in 0..90 |
| StreamingGeneration.ProgressGrows | backend/src/services/streamingRecipeGenerationService.ts:54-59 | Appending content never lowers the progress |
| StreamingGeneration.ProgressChunks | backend/src/services/streamingRecipeGenerationService.ts:50-62 | Fragment `k` emits one progress event carrying the concatenation of fragments `0..k` |
| StreamingGeneration.ProgressChunksSnoc | backend/src/services/streamingRecipeGenerationService.ts:53-60 | Each further fragment appends one progress event |
| StreamingGeneration.OutcomeIsFinal | backend/src/services/streamingRecipeGenerationService.ts:84-105 | The terminal event is `completed` with a recipe or `error` without one, at progress 100 |
| StreamingGeneration.EventsShape | backend/src/services/streamingRecipeGenerationService.ts:43-105 | A persona's events are `started`, one progress event per fragment with the accumulated text, then the terminal event |
| StreamingGeneration.EventsTerminalLast | backend/src/services/streamingRecipeGenerationService.ts:84-105 | All events belong to the persona, only the last is terminal, and only a `completed` event carries a recipe |
| StreamingGeneration.AgentEventsShape | backend/src/services/streamingRecipeGenerationService.ts:40-105 | A persona's run: `started` first, cumulative progress events, exactly one terminal event, last, at progress 100 |
| StreamingGeneration.ProgressMonotone | backend/src/services/streamingRecipeGenerationService.ts:50-61 | Later progress contents extend earlier ones, and their progress is non-decreasing and at most 90 |
| StreamingGeneration.CompletedIff | backend/src/services/streamingRecipeGenerationService.ts:64-97 | A persona completes exactly when its stream did not fail, the parse succeeded and the build succeeded; the recipe is then the built detail's summary with id `recipe-${stamp}-${index}` |
| StreamingGeneration.StreamReplies | backend/src/services/streamingRecipeGenerationService.ts:33-62 | There is one streamed reply per persona |
| StreamingGeneration.AgentTerminalCount | backend/src/services/streamingRecipeGenerationService.ts:40-105 | A persona's run holds exactly one terminal event of its own persona and none of the others |
| StreamingGeneration.OneTerminalPerAgent | backend/src/services/streamingRecipeGenerationService.ts:40-109 | Over a whole request each persona has exactly one terminal event |
| StreamingGeneration.StreamSession.constructor | backend/src/services/streamingRecipeGenerationService.ts:25-31 | A session starts with no events and no completion |
| StreamingGeneration.StreamSession.Emit | backend/src/services/streamingRecipeGenerationService.ts:28 | `onChunk` appends one event |
| StreamingGeneration.StreamSession.RunAgent | backend/src/services/streamingRecipeGenerationService.ts:40-105 | One agent closure appends exactly that persona's events |
| StreamingGeneration.StreamSession.ForwardFragments | backend/src/services/streamingRecipeGenerationService.ts:50-62 | The fragment loop accumulates their concatenation and appends one progress event per fragment |
| StreamingGeneration.StreamSession.RunAll | backend/src/services/streamingRecipeGenerationService.ts:40-108 | The three closures append the three personas' runs in persona order |
| StreamingGeneration.StreamSession.GenerateRecipesStream | backend/src/services/streamingRecipeGenerationService.ts:25-114 | A request appends all persona runs and then calls `onComplete` exactly once |
| StreamingGeneration.Terminate | backend/src/services/streamingRecipeGenerationService.ts:64-105 | The statements after the stream build exactly the terminal event `Outcome` describes |
| RecipeController.ValidRecipeInputIff | backend/src/controllers/recipeController.ts:86-112 | A request is accepted exactly when the theme is a non-empty string, the three enumerations hold listed values, specialRequests is an array and avoidIngredients is a string |
| RecipeController.ValidatorIsShallow | backend/src/controllers/recipeController.ts:87-103 | A whitespace-only theme, an empty avoid string and special requests of any element type are accepted |
| RecipeController.ValidatedValuesHaveLabels | backend/src/controllers/recipeController.ts:91-107 | Every accepted enumeration value has a label in the prompt tables |
| RecipeController.ElementText | backend/src/services/promptService.ts:41 | `join` writes a string element as it is and a nullish one as nothing |
| RecipeController.RequestInput | backend/src/controllers/recipeController.ts:20 | The validated body read as a request keeps its theme, its avoid string and the number of special requests, and its enumerations are listed values |
| RecipeController.HandleGenerateRecipes | backend/src/controllers/recipeController.ts:18-51 | An invalid body gets 400 before any generation; a valid one gets exactly the generator's result |
| RecipeController.HandleGetRecipeDetail | backend/src/controllers/recipeController.ts:53-84 | An empty id gives 400, a missing record 404, a failed lookup 500, and a found record is returned |
| FeedbackController.ComparedNumber | backend/src/controllers/feedbackController.ts:63 | A relational comparison reads a number as itself, `null` as 0 and `undefined` as NaN |
| FeedbackController.ValidFeedbackInputIff | backend/src/controllers/feedbackController.ts:50-72 | For an absent or numeric rating, a submission is accepted exactly when it has a non-empty string recipeId, a non-empty reasons array, one of the three interest values, a rating in 1..5 and a falsy or string comment |
| FeedbackController.RatingRange | backend/src/controllers/feedbackController.ts:63-65 | A numeric rating passes exactly inside 1..5 inclusive, an absent one always, and `null` never |
| FeedbackController.ReasonsAndIdRequired | backend/src/controllers/feedbackController.ts:51-57 | Missing or empty reasons, and a missing or empty recipe id, are refused |
| FeedbackController.CommentLengthIgnored | backend/src/controllers/feedbackController.ts:67-69 | The verdict does not depend on the length of a string comment |
| FeedbackController.FeedbackCollection.constructor | backend/src/controllers/feedbackController.ts:22 | The collection starts empty |
| FeedbackController.FeedbackCollection.SubmitFeedback | backend/src/controllers/feedbackController.ts:8-48 | An invalid submission gets 400 and saves nothing. A valid one saves the submitted fields and gets 201 with the new id, or passes the save failure on with nothing added |
| StreamingHook.InitialWellShaped | frontend/src/hooks/useStreamingRecipes.ts:22-32 | The initial state has one idle card per persona in persona order |
| StreamingHook.Cleared | frontend/src/hooks/useStreamingRecipes.ts:73-79 | A cleared card is the persona's idle card |
| StreamingHook.ClearedAgents | frontend/src/hooks/useStreamingRecipes.ts:73-79 | Every card becomes its persona's idle card |
| StreamingHook.RefuseGeneration | frontend/src/hooks/useStreamingRecipes.ts:59-65 | Generating while disconnected sets only the error |
| StreamingHook.BeginGeneration | frontend/src/hooks/useStreamingRecipes.ts:68-80 | Starting sets streaming, clears the error and completed list, and idles every card |
| StreamingHook.StartFailed | frontend/src/hooks/useStreamingRecipes.ts:133-139 | A failed start stops streaming and records its message |
| StreamingHook.ApplyChunk | frontend/src/hooks/useStreamingRecipes.ts:89-103 | The status is replaced, a truthy progress and a non-empty content replace the old ones, and a present recipe is set |
| StreamingHook.UpdateAgents | frontend/src/hooks/useStreamingRecipes.ts:87-106 | The card list keeps its length |
| StreamingHook.OnChunkLocal | frontend/src/hooks/useStreamingRecipes.ts:84-116 | A chunk changes only its persona's card, keeps the order and flags, and appends a completed chunk's recipe |
| StreamingHook.OnError | frontend/src/hooks/useStreamingRecipes.ts:117-123 | An error stops streaming and records the message |
| StreamingHook.OnComplete | frontend/src/hooks/useStreamingRecipes.ts:124-129 | Completion only stops streaming |
| StreamingHook.Reset | frontend/src/hooks/useStreamingRecipes.ts:142-156 | Resetting idles the cards and clears the lists, the error and streaming, keeping the connection flag |
| StreamingHook.ResetIsInitial | frontend/src/hooks/useStreamingRecipes.ts:142-156 | Resetting gives the initial state except for the connection flag |
| StreamingHook.OnChunksOfAgent | frontend/src/hooks/useStreamingRecipes.ts:84-116 | Events of one persona touch only its card and append its completed recipes |
| StreamingHook.SettledThree | frontend/src/hooks/useStreamingRecipes.ts:84-116 | Three personas settled one after another leave every card settled and the three recipes appended in settling order |
| StreamingHook.AgentStreamSettles | frontend/src/hooks/useStreamingRecipes.ts:84-116 | After a persona's backend run, its card shows the terminal status at 100 and the list gained its recipe exactly when it completed |
| StreamingHook.ThreeRunsSettle | frontend/src/hooks/useStreamingRecipes.ts:68-129 | When the three runs arrive one after another in persona order: after a start, the runs and completion, nothing streams, every card is settled at 100, and the completed list is the completed personas' recipes in persona order |
| StreamingHook.ThreeSettled | frontend/src/hooks/useStreamingRecipes.ts:84-116 | The three runs, one after another in persona order, settle every card and append the three recipes in that order |
| StreamingHook.RunsInOrder | frontend/src/hooks/useStreamingRecipes.ts:84-116 | The settling of three event runs composes over their concatenation |
| StreamingHook.OnChunksShape | frontend/src/hooks/useStreamingRecipes.ts:84-116 | Any event sequence keeps the card order and the flags, and appends the completed events' recipes in arrival order |
| StreamingHook.OnChunksCard | frontend/src/hooks/useStreamingRecipes.ts:87-106 | Whatever the interleaving, each card is the fold of its own persona's events, in their arrival order, over the card |
| StreamingHook.CompletedSplits | frontend/src/hooks/useStreamingRecipes.ts:110-115 | The completed recipes of an interleaving are, as a multiset, the union of those of each persona's own events |
| StreamingHook.RunOutcome | frontend/src/hooks/useStreamingRecipes.ts:84-116 | A persona's own run ends its card at the terminal status and progress 100 and completes exactly the terminal event's recipe |
| StreamingHook.InterleavedRunsSettle | frontend/src/hooks/useStreamingRecipes.ts:84-116 | For any interleaving of the three runs that keeps each persona's own order, every card is settled at its terminal status and 100, the flags are kept, and the completed list is the completed personas' recipes in some order |
| StreamingHook.ThreeRunsInterleave | backend/src/services/streamingRecipeGenerationService.ts:38-108 | The three runs one after another form one such interleaving |
| StreamingHook.RequestSettles | frontend/src/hooks/useStreamingRecipes.ts:58-129 | A whole backend request driven through the hook, with the personas' events interleaved in any order that keeps each persona's own order, ends with nothing streaming, every card showing its persona's terminal event at 100, and the completed list a permutation of the completed personas' recipes |
| StreamingHook.SerialRequestSettles | frontend/src/hooks/useStreamingRecipes.ts:58-129 | The backend's own event log is such an interleaving, and driven through the hook it leaves the recipes in persona order |
| StreamingHook.NoCompletedBefore | frontend/src/hooks/useStreamingRecipes.ts:110-115 | The events before the terminal one add no completed recipe |
| StreamingHook.StreamingRecipes.constructor | frontend/src/hooks/useStreamingRecipes.ts:22-32 | The hook starts in the initial state |
| StreamingHook.StreamingRecipes.Connect | frontend/src/hooks/useStreamingRecipes.ts:37-48 | A connection sets the flag and clears the error; a failure clears the flag and records the message |
| StreamingHook.StreamingRecipes.GenerateRecipes | frontend/src/hooks/useStreamingRecipes.ts:58-140 | Disconnected refuses, connected begins, and a throwing start then fails |
| StreamingHook.StreamingRecipes.HandleChunk | frontend/src/hooks/useStreamingRecipes.ts:84-116 | The state becomes the chunk transition of the old state |
| StreamingHook.StreamingRecipes.HandleError | frontend/src/hooks/useStreamingRecipes.ts:117-123 | The state becomes the error transition of the old state |
| StreamingHook.StreamingRecipes.HandleComplete | frontend/src/hooks/useStreamingRecipes.ts:124-129 | The state becomes the completion transition of the old state |
| StreamingHook.StreamingRecipes.ResetState | frontend/src/hooks/useStreamingRecipes.ts:142-156 | The state becomes the reset of the old state |
| RecipeStore.RecipeStore.constructor | frontend/src/store/recipeStore.ts:19-24 | The store starts with no recipes, no selection or detail, not loading and no error |
| RecipeStore.RecipeStore.SetRecipes | frontend/src/store/recipeStore.ts:26 | Replaces only the recipes |
| RecipeStore.RecipeStore.SetSelectedRecipe | frontend/src/store/recipeStore.ts:27 | Replaces only the selection |
| RecipeStore.RecipeStore.SetRecipeDetail | frontend/src/store/recipeStore.ts:28 | Replaces only the detail |
| RecipeStore.RecipeStore.SetLoading | frontend/src/store/recipeStore.ts:29 | Replaces only the loading flag |
| RecipeStore.RecipeStore.SetError | frontend/src/store/recipeStore.ts:30 | Replaces only the error |
| RecipeStore.RecipeStore.ClearState | frontend/src/store/recipeStore.ts:31-37 | Restores all five fields to their initial values |
| RecipeStore.LookupFeedback | frontend/src/store/recipeStore.ts:56-59 | The stored feedback when the id has one, otherwise nothing |
| RecipeStore.SubmitThenLookup | frontend/src/store/recipeStore.ts:49-59 | After a submission the id reads back that feedback, other ids read as before, and resubmitting the same feedback changes nothing |
| RecipeStore.FeedbackStore.constructor | frontend/src/store/recipeStore.ts:47 | The feedback map starts empty |
| RecipeStore.FeedbackStore.SubmitFeedback | frontend/src/store/recipeStore.ts:49-54 | Stores the feedback under its id, overwriting only that entry |
| RecipeStore.FeedbackStore.GetFeedback | frontend/src/store/recipeStore.ts:56-59 | Returns the lookup of the id in the current map |

## Left out

- The LLM client (backend/src/services/llmService.ts) is not modelled.
  A blocking call is an outcome parameter: fulfilled text or a failure
  reason. A streaming call is its list of fragments plus whether it failed.
  The client forwards only non-empty fragments (llmService.ts:73-77), and
  the model allows any fragments. Sampling options are floating point and
  are outside the model.
- `JSON.parse` is a parameter `string -> Option<Value>`, so every property
  proved holds for any JSON parser. The same goes for JavaScript's
  `ToNumber` of a non-number rating and its `String()` of a non-string
  special request.
- `Date.now()` is a parameter: a stamp per persona index.
- Concurrency: `Promise.allSettled` and `Promise.all` become three
  independent outcomes. The backend's `StreamSession` emits the three runs
  one after another in persona order. In the real program the events of
  different personas interleave. The hook's side is proved for every
  interleaving that keeps each persona's own order (`RequestSettles`,
  `InterleavedRunsSettle`); only the serialised log gives persona order
  for the completed list (`SerialRequestSettles`).
- Persistence with Mongoose is left out: `saveRecipeToDatabase` (whose
  errors are swallowed), `getRecipeById` (a lookup parameter for the detail
  handler) and the schema's 1000-character comment limit. For a feedback
  document, only whether the save succeeded is a parameter.
- `parseInt` of a long digit run gives its exact value. JavaScript loses
  precision above 2^53.
- The `/i` flag of the streaming extractor is modelled as ASCII case
  folding. This is exact for its keywords (`title`, `description`,
  `cookingTime`, `料理名`, `説明`, `調理時間`) but ignores Unicode case
  mappings of other characters.
- Both controllers read the request body as a value whose properties can
  be read. `express.json()` in strict mode only produces objects and
  arrays, so the TypeError that a `null` body would raise is not modelled.
- LlmResponseParser.ParseRecipeResponse: when text extraction throws, the
  source falls back to `getDefaultRecipeData`. Text extraction never
  throws, so that branch is unreachable and the model has no such path.
  `DefaultRecipeData` is still modelled and proved valid.
- StreamingGeneration.StreamSession.GenerateRecipesStream: the model
  takes a well-typed `RecipeInput`, so it omits the outer `catch` that
  calls `onError` (streamingRecipeGenerationService.ts:110-113). The
  websocket handler (backend/src/services/websocketService.ts:12-17) passes
  `data.input` on unvalidated. A missing input, or `specialRequests` that
  is not an array, makes prompt building throw inside the outer `try`
  (promptService.ts:41, streamingRecipeGenerationService.ts:33-37), and the
  source then calls `onError` and never `onComplete`. That path, and the
  prompts for non-string fields, are not modelled. Every agent closure
  catches its own errors, so with a well-typed input the model calls
  `onComplete` once and never `onError`.
- PromptService.Label: the tables are object literals, so `table[key]`
  also finds members inherited from `Object.prototype`. For a key such as
  `constructor` or `toString`, the source returns that member instead of
  the key. The model returns the key. The REST validator admits only the
  table keys, so this can happen only through the unvalidated websocket
  input.
- RecipeStore.LookupFeedback: `submittedFeedback[recipeId]` would likewise
  find an inherited member for an id such as `constructor`. The model
  treats the map as holding only its own entries. The program's recipe ids
  have the form `recipe-<stamp>-<index>` and never collide with such
  names.
- The websocket transport is left out (both websocketService files),
  including the client-side cleanup that removes every listener whatever
  the request id. So are the hook's `currentRequestId` ref, the UI
  components, the other hooks, the API wrappers, the routes, the
  rate-limit and header middleware, and all logging.
- The persistence layer's second `unit || '適量'` pass is not a separate
  operation. `SanitizeIdempotent` shows that it changes nothing.
