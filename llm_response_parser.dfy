/** `LLMResponseParser`: the tolerant pipeline that turns a model's reply
    into a recipe draft, and the summary validator that repairs a draft in
    place. `JSON.parse` is the parameter `jsonParse`, which gives `None`
    where the real one throws. */
module LlmResponseParser {
  import opened Text
  import opened JsValues
  import opened Fence
  import opened RecipeTypes
  import opened DetailDefaults

  // ---------------------------------------------------------------------
  // cleanJsonString

  /** The characters the pattern [\u0000-\u001F\u007F-\u009F] matches. */
  predicate IsControl(c: char) {
    c as int <= 0x1F || (0x7F <= c as int <= 0x9F)
  }

  predicate HasNoControl(s: string) {
    forall k :: 0 <= k < |s| ==> !IsControl(s[k])
  }

  /** The first pass: every control character is deleted. The result is a
      subsequence of the input without control characters that holds every
      other character as often as the input does, so exactly the control
      characters are gone. */
  function StripControls(s: string): (r: string)
    ensures HasNoControl(r)
    ensures IsSubseq(r, s)
    ensures forall c :: !IsControl(c) ==> multiset(r)[c] == multiset(s)[c]
    ensures forall k :: 0 <= k < |s| && !IsControl(s[k]) ==> s[k] in r
    decreases |s|
  {
    if s == [] then []
    else
      var rest := StripControls(s[1..]);
      assert forall k :: 1 <= k < |s| ==> s[k] == s[1..][k - 1];
      assert [s[0]] + s[1..] == s;
      assert multiset(s) == multiset([s[0]]) + multiset(s[1..]);
      if IsControl(s[0]) then
        SubseqDropFront(rest, [s[0]], s[1..]);
        rest
      else
        assert ([s[0]] + rest)[0] == s[0] && ([s[0]] + rest)[1..] == rest;
        assert multiset([s[0]] + rest) == multiset([s[0]]) + multiset(rest);
        [s[0]] + rest
  }

  predicate IsCloseBracket(c: char) {
    c == '}' || c == ']'
  }

  /** `\s*[}\]]` matches at `i`; with a bracket that is never whitespace, the
      greedy `\s*` must take the whole whitespace run. */
  predicate BracketAfterSpaces(s: string, i: nat) {
    i <= |s| && var j := SpaceRunEnd(s, i); j < |s| && IsCloseBracket(s[j])
  }

  /** The part `s[i..j+1]` of a trailing-comma or doubled-comma match that
      replaces the whole match; it only drops the comma at `i`. */
  lemma DropOne(s: string, i: nat, j: nat)
    requires i < j <= |s|
    ensures IsSubseq(s[i + 1..j], s[i..j])
  {
    SubseqRefl(s[i + 1..j]);
    SubseqDropFront(s[i + 1..j], [s[i]], s[i + 1..j]);
    assert [s[i]] + s[i + 1..j] == s[i..j];
  }

  /** What each pass keeps of a match and how it resumes: the kept piece
      is a subsequence of the matched text with the same non-comma
      characters, and so is the rest of the output. */
  predicate SameButCommas(r: string, s: string) {
    IsSubseq(r, s) && RemoveChar(r, ',') == RemoveChar(s, ',')
  }

  lemma SameButCommasRefl(s: string)
    ensures SameButCommas(s, s)
  {
    SubseqRefl(s);
  }

  lemma SameButCommasAppend(r1: string, s1: string, r2: string, s2: string)
    requires SameButCommas(r1, s1) && SameButCommas(r2, s2)
    ensures SameButCommas(r1 + r2, s1 + s2)
  {
    SubseqAppend(r1, s1, r2, s2);
    RemoveCharAppend(r1, r2, ',');
    RemoveCharAppend(s1, s2, ',');
  }

  /** Dropping one comma from the front of `s[i..j]`. */
  lemma DropComma(s: string, i: nat, j: nat)
    requires i < j <= |s| && s[i] == ','
    ensures SameButCommas(s[i + 1..j], s[i..j])
  {
    DropOne(s, i, j);
    assert s[i..j] == [s[i]] + s[i + 1..j];
    RemoveCharAppend([s[i]], s[i + 1..j], ',');
  }

  lemma SplitAt(s: string, i: nat, j: nat)
    requires i <= j <= |s|
    ensures s[i..] == s[i..j] + s[j..]
  {
  }

  /** `.replace(/,(\s*[}\]])/g, '$1')` applied to `s[i..]`: a comma followed
      by whitespace and a closing bracket is deleted and the scan resumes
      after the bracket. */
  function StripTrailingCommasFrom(s: string, i: nat): (r: string)
    requires i <= |s|
    ensures SameButCommas(r, s[i..])
    decreases |s| - i
  {
    if i == |s| then ""
    else if s[i] == ',' && BracketAfterSpaces(s, i + 1) then
      var next := SpaceRunEnd(s, i + 1) + 1;
      var rest := StripTrailingCommasFrom(s, next);
      DropComma(s, i, next);
      SplitAt(s, i, next);
      SameButCommasAppend(s[i + 1..next], s[i..next], rest, s[next..]);
      s[i + 1..next] + rest
    else
      var rest := StripTrailingCommasFrom(s, i + 1);
      SameButCommasRefl(s[i..i + 1]);
      SplitAt(s, i, i + 1);
      SameButCommasAppend(s[i..i + 1], s[i..i + 1], rest, s[i + 1..]);
      s[i..i + 1] + rest
  }

  /** `.replace(/([}\]]),(\s*[}\]])/g, '$1$2')` applied to `s[i..]`: a
      comma between a closing bracket and (after whitespace) another closing
      bracket is deleted and the scan resumes after the second bracket. */
  function CollapseCommasFrom(s: string, i: nat): (r: string)
    requires i <= |s|
    ensures SameButCommas(r, s[i..])
    decreases |s| - i
  {
    if i == |s| then ""
    else if i + 1 < |s| && IsCloseBracket(s[i]) && s[i + 1] == ',' && BracketAfterSpaces(s, i + 2) then
      var next := SpaceRunEnd(s, i + 2) + 1;
      var rest := CollapseCommasFrom(s, next);
      SameButCommasRefl(s[i..i + 1]);
      DropComma(s, i + 1, next);
      SameButCommasAppend(s[i..i + 1], s[i..i + 1], s[i + 2..next], s[i + 1..next]);
      assert s[i..i + 1] + s[i + 1..next] == s[i..next];
      SplitAt(s, i, next);
      SameButCommasAppend(s[i..i + 1] + s[i + 2..next], s[i..next], rest, s[next..]);
      s[i..i + 1] + s[i + 2..next] + rest
    else
      var rest := CollapseCommasFrom(s, i + 1);
      SameButCommasRefl(s[i..i + 1]);
      SplitAt(s, i, i + 1);
      SameButCommasAppend(s[i..i + 1], s[i..i + 1], rest, s[i + 1..]);
      s[i..i + 1] + rest
  }

  /** The second and third pass of `cleanJsonString`. */
  function CommaPasses(a: string): string {
    CollapseCommasFrom(StripTrailingCommasFrom(a, 0), 0)
  }

  /** The two comma passes delete commas and nothing else. */
  lemma CommaPassesDeleteOnlyCommas(a: string)
    ensures IsSubseq(CommaPasses(a), a)
    ensures RemoveChar(CommaPasses(a), ',') == RemoveChar(a, ',')
  {
    var b := StripTrailingCommasFrom(a, 0);
    assert a[0..] == a && b[0..] == b;
    SubseqTrans(CommaPasses(a), b, a);
  }

  /** `cleanJsonString`: the three passes and a final trim. It only
      deletes characters, and the result is trimmed and free of control
      characters. */
  function CleanJsonString(s: string): (r: string)
    ensures IsSubseq(r, s)
    ensures HasNoControl(r)
    ensures r == [] || (!IsSpace(r[0]) && !IsSpace(r[|r| - 1]))
  {
    var a := StripControls(s);
    var b := StripTrailingCommasFrom(a, 0);
    var c := CollapseCommasFrom(b, 0);
    var r := Trim(c);
    assert a[0..] == a && b[0..] == b;
    assert c == CommaPasses(a);
    var i, j :| 0 <= i <= j <= |c| && r == c[i..j];
    SubseqSlice(c, i, j);
    SubseqTrans(r, c, b);
    SubseqTrans(r, b, a);
    SubseqTrans(r, a, s);
    forall k | 0 <= k < |r| ensures !IsControl(r[k]) {
      SubseqChars(r, a, r[k]);
    }
    r
  }

  /** A reply that is already clean JSON text goes through unchanged. */
  lemma CleanOfCleanText(s: string)
    requires HasNoControl(s) && ',' !in s
    requires s == [] || (!IsSpace(s[0]) && !IsSpace(s[|s| - 1]))
    ensures CleanJsonString(s) == s
  {
    NoControlsUnchanged(s);
    NoCommaPassUnchanged(s, 0);
    NoCommaCollapseUnchanged(s, 0);
    assert s[0..] == s;
    TrimOfTrimmed(s);
  }

  lemma {:induction false} NoControlsUnchanged(s: string)
    requires HasNoControl(s)
    ensures StripControls(s) == s
    decreases |s|
  {
    if s != [] {
      NoControlsUnchanged(s[1..]);
    }
  }

  lemma {:induction false} NoCommaPassUnchanged(s: string, i: nat)
    requires i <= |s| && ',' !in s
    ensures StripTrailingCommasFrom(s, i) == s[i..]
    decreases |s| - i
  {
    if i < |s| {
      NoCommaPassUnchanged(s, i + 1);
      SplitAt(s, i, i + 1);
    }
  }

  lemma {:induction false} NoCommaCollapseUnchanged(s: string, i: nat)
    requires i <= |s| && ',' !in s
    ensures CollapseCommasFrom(s, i) == s[i..]
    decreases |s| - i
  {
    if i < |s| {
      NoCommaCollapseUnchanged(s, i + 1);
      SplitAt(s, i, i + 1);
    }
  }

  // ---------------------------------------------------------------------
  // extractDataFromText

  /** `lines.map(line => line.trim()).filter(line => line)`. */
  function NonEmptyTrimmed(parts: seq<string>): (r: seq<string>)
    ensures |r| <= |parts|
    ensures forall k :: 0 <= k < |r| ==> r[k] != "" && Trim(r[k]) == r[k]
    decreases |parts|
  {
    if parts == [] then []
    else
      var t := Trim(parts[0]);
      TrimOfTrimmed(t);
      (if t == "" then [] else [t]) + NonEmptyTrimmed(parts[1..])
  }

  /** The lines `extractDataFromText` looks at. */
  function Lines(text: string): (r: seq<string>)
    ensures forall k :: 0 <= k < |r| ==> r[k] != "" && Trim(r[k]) == r[k]
  {
    NonEmptyTrimmed(Split(text, '\n'))
  }

  predicate IsColon(c: char) {
    c == ':' || c == '：'
  }

  /** `[:：](.+)` matches at `i`: a colon followed by at least one character
      that is not a line terminator. */
  predicate ColonAt(s: string, i: nat) {
    i + 1 < |s| && IsColon(s[i]) && !IsLineTerminator(s[i + 1])
  }

  /** Leftmost `i >= from` where `[:：](.+)` matches. */
  function ColonFrom(s: string, from: nat): (r: Option<nat>)
    requires from <= |s|
    ensures r.Some? ==> from <= r.value && ColonAt(s, r.value)
                        && forall k :: from <= k < r.value ==> !ColonAt(s, k)
    ensures r.None? ==> forall k :: from <= k ==> !ColonAt(s, k)
    decreases |s| - from
  {
    if from == |s| then None
    else if ColonAt(s, from) then Some(from)
    else ColonFrom(s, from + 1)
  }

  /** `line.match(/[:：](.+)/)?.[1]`: the greedy group runs to the end of
      the line or the first line terminator. */
  function ColonValue(s: string): (r: Option<string>)
    ensures r.Some? ==> exists i: nat :: ColonAt(s, i) && (forall k :: 0 <= k < i ==> !ColonAt(s, k))
                                    && r.value == s[i + 1..LineRunEnd(s, i + 1)]
    ensures r.None? <==> forall k :: !ColonAt(s, k)
    ensures r.Some? ==> r.value != ""
  {
    match ColonFrom(s, 0)
    case None => None
    case Some(i) => Some(s[i + 1..LineRunEnd(s, i + 1)])
  }

  /** `line.match(/(\d+)/)?.[1]`: the first maximal digit run. */
  function FirstDigitRun(s: string, from: nat): (r: Option<string>)
    requires from <= |s|
    ensures r.None? <==> forall k :: from <= k < |s| ==> !IsDigit(s[k])
    ensures r.Some? ==> r.value != [] && forall k :: 0 <= k < |r.value| ==> IsDigit(r.value[k])
    ensures r.Some? ==> exists i :: from <= i < |s| && IsDigit(s[i]) && r.value == s[i..DigitRunEnd(s, i)]
                                    && forall k :: from <= k < i ==> !IsDigit(s[k])
    decreases |s| - from
  {
    if from == |s| then None
    else if IsDigit(s[from]) then Some(s[from..DigitRunEnd(s, from)])
    else FirstDigitRun(s, from + 1)
  }

  predicate IsTitleLine(line: string) {
    Contains(line, "料理名") || Contains(line, "タイトル") || Contains(line, "title")
  }

  predicate IsDescriptionLine(line: string) {
    Contains(line, "説明") || Contains(line, "description")
  }

  predicate IsTimeLine(line: string) {
    Contains(line, "調理時間") || Contains(line, "cookingTime")
  }

  /** `match[1].trim().replace(/"/g, '')`. */
  function Unquote(v: string): (r: string)
    ensures '"' !in r
  {
    RemoveChar(Trim(v), '"')
  }

  /** The title a line sets, when it sets one. */
  function TitleOf(line: string): (r: Option<string>)
    ensures r.Some? ==> IsTitleLine(line) && '"' !in r.value
  {
    if IsTitleLine(line) && ColonValue(line).Some? then Some(Unquote(ColonValue(line).value)) else None
  }

  /** The description a line sets, when it sets one. */
  function DescriptionOf(line: string): (r: Option<string>)
    ensures r.Some? ==> IsDescriptionLine(line) && '"' !in r.value
  {
    if IsDescriptionLine(line) && ColonValue(line).Some? then Some(Unquote(ColonValue(line).value)) else None
  }

  /** The cooking time a line sets, when it sets one. */
  function TimeOf(line: string): (r: Option<nat>)
    ensures r.Some? ==> IsTimeLine(line)
  {
    var c := FirstDigitRun(line, 0);
    if IsTimeLine(line) && c.Some? then Some(DigitsValue(c.value)) else None
  }

  /** The three fields the per-line scan updates. */
  datatype Scan = Scan(title: string, description: string, cookingTime: nat)

  const InitialScan := Scan("", "", 30)

  /** What one line sets: a title, a description and a cooking time, each
      when the line holds one. */
  datatype LineUpdate = LineUpdate(title: Option<string>, description: Option<string>, cookingTime: Option<nat>)

  function LineUpdateOf(line: string): LineUpdate {
    LineUpdate(TitleOf(line), DescriptionOf(line), TimeOf(line))
  }

  /** Each field a line sets overwrites the one scanned so far. */
  function Apply(sc: Scan, u: LineUpdate): Scan {
    Scan(
      if u.title.Some? then u.title.value else sc.title,
      if u.description.Some? then u.description.value else sc.description,
      if u.cookingTime.Some? then u.cookingTime.value else sc.cookingTime)
  }

  /** The body of the `forEach`: the three independent checks, in order. */
  function ScanLine(sc: Scan, line: string): Scan {
    Apply(sc, LineUpdateOf(line))
  }

  /** The updates of the lines, in order. */
  function Updates(lines: seq<string>): (us: seq<LineUpdate>)
    ensures |us| == |lines| && forall k :: 0 <= k < |lines| ==> us[k] == LineUpdateOf(lines[k])
  {
    seq(|lines|, k requires 0 <= k < |lines| => LineUpdateOf(lines[k]))
  }

  /** The scan state after the first `n` updates. */
  function ApplyAll(us: seq<LineUpdate>, n: nat): Scan
    requires n <= |us|
  {
    if n == 0 then InitialScan else Apply(ApplyAll(us, n - 1), us[n - 1])
  }

  /** The scan state after the first `n` lines. */
  function ScanPrefix(lines: seq<string>, n: nat): Scan
    requires n <= |lines|
  {
    ApplyAll(Updates(lines), n)
  }

  /** One more line is one more `forEach` step. */
  lemma ScanPrefixStep(lines: seq<string>, n: nat)
    requires n < |lines|
    ensures ScanPrefix(lines, n + 1) == ScanLine(ScanPrefix(lines, n), lines[n])
  {
    assert Updates(lines)[n] == LineUpdateOf(lines[n]);
  }

  /** The `extractedData` object during the scan. */
  function DraftFields(sc: Scan): map<string, Value> {
    map[
      "mainIngredients" := Arr([]), "features" := Arr([]), "ingredients" := Arr([]),
      "steps" := Arr([]), "nutritionInfo" := DefaultNutrition, "tips" := Arr([]),
      "servings" := Num(4.0), "prepTime" := Num(15.0), "totalTime" := Num(45.0),
      "cookingTime" := Num(sc.cookingTime as real),
      "description" := Str(sc.description), "title" := Str(sc.title)]
  }

  lemma DraftFieldsTitle(sc: Scan, t: string)
    ensures DraftFields(sc)["title" := Str(t)] == DraftFields(sc.(title := t))
  {
  }

  lemma DraftFieldsDescription(sc: Scan, t: string)
    ensures DraftFields(sc)["description" := Str(t)] == DraftFields(sc.(description := t))
  {
  }

  lemma DraftFieldsTime(sc: Scan, n: nat)
    ensures DraftFields(sc)["cookingTime" := Num(n as real)] == DraftFields(sc.(cookingTime := n))
  {
  }

  const DefaultExtractedTitle := "AI生成レシピ"
  const DefaultExtractedDescription := "AIが提案する美味しい料理です。"
  const ExtractedMainIngredients := ["主要材料1", "主要材料2", "主要材料3"]
  const ExtractedFeatures := ["簡単調理", "栄養満点", "美味しい"]

  /** The draft after the scan, with the empty fields defaulted. */
  function Finish(sc: Scan): (r: Value)
    ensures r.Obj?
    ensures Prop(r, "title") == Str(if sc.title == "" then DefaultExtractedTitle else sc.title)
    ensures Prop(r, "description") == Str(if sc.description == "" then DefaultExtractedDescription else sc.description)
    ensures Prop(r, "cookingTime") == Num(sc.cookingTime as real)
    ensures Prop(r, "mainIngredients") == Strings(ExtractedMainIngredients)
    ensures Prop(r, "features") == Strings(ExtractedFeatures)
  {
    var v := Obj(DraftFields(DefaultTexts(sc)));
    SetProp(SetProp(v, "mainIngredients", Strings(ExtractedMainIngredients)), "features", Strings(ExtractedFeatures))
  }

  /** The scan state with an empty title and description replaced by their
      default texts. */
  function DefaultTexts(sc: Scan): (r: Scan)
    ensures r.title == (if sc.title == "" then DefaultExtractedTitle else sc.title)
    ensures r.description == (if sc.description == "" then DefaultExtractedDescription else sc.description)
    ensures r.cookingTime == sc.cookingTime
  {
    Scan(if sc.title == "" then DefaultExtractedTitle else sc.title,
         if sc.description == "" then DefaultExtractedDescription else sc.description,
         sc.cookingTime)
  }

  /** The fields an extracted draft never takes from the text: the fixed
      nutrition values, servings 4, preparation time 15, total time 45 and
      empty ingredient, step and tip lists. */
  predicate FixedDetailFields(v: Value) {
    Prop(v, "nutritionInfo") == DefaultNutrition
    && Prop(v, "ingredients") == Arr([]) && Prop(v, "steps") == Arr([]) && Prop(v, "tips") == Arr([])
    && Prop(v, "servings") == Num(4.0) && Prop(v, "prepTime") == Num(15.0) && Prop(v, "totalTime") == Num(45.0)
  }

  lemma DraftFixedFields(sc: Scan)
    ensures FixedDetailFields(Obj(DraftFields(sc)))
  {
  }

  /** Writing a summary field keeps the fixed fields. */
  lemma FixedFieldsKept(v: Value, key: string, x: Value)
    requires v.Obj? && FixedDetailFields(v)
    requires key == "mainIngredients" || key == "features"
    ensures FixedDetailFields(SetProp(v, key, x))
  {
  }

  /** The fields the scan never touches keep their initial values. */
  lemma FinishFixedFields(sc: Scan)
    ensures FixedDetailFields(Finish(sc))
  {
    var v := Obj(DraftFields(DefaultTexts(sc)));
    DraftFixedFields(DefaultTexts(sc));
    FixedFieldsKept(v, "mainIngredients", Strings(ExtractedMainIngredients));
    FixedFieldsKept(SetProp(v, "mainIngredients", Strings(ExtractedMainIngredients)), "features", Strings(ExtractedFeatures));
  }

  /** What `extractDataFromText` returns: title and description are never
      empty, the two lists always hold their three placeholders, and the
      cooking time is the scanned one. */
  function ExtractedData(text: string): (r: Value)
    ensures r.Obj?
    ensures var t := Prop(r, "title"); t.Str? && t.s != ""
    ensures var d := Prop(r, "description"); d.Str? && d.s != ""
    ensures Prop(r, "cookingTime") == Num(ScanPrefix(Lines(text), |Lines(text)|).cookingTime as real)
    ensures Prop(r, "mainIngredients") == Strings(ExtractedMainIngredients)
    ensures Prop(r, "features") == Strings(ExtractedFeatures)
  {
    var lines := Lines(text);
    Finish(ScanPrefix(lines, |lines|))
  }

  /** Nutrition values, serving count and times of an extracted draft are
      the fixed ones, and its detail lists are empty. */
  lemma ExtractedFixedFields(text: string)
    ensures FixedDetailFields(ExtractedData(text))
  {
    var lines := Lines(text);
    FinishFixedFields(ScanPrefix(lines, |lines|));
  }

  /** `extractDataFromText`: the `forEach` over the lines updates the draft
      object field by field, then the empty fields are defaulted. */
  method ExtractDataFromText(text: string) returns (data: Value)
    ensures data == ExtractedData(text)
  {
    var lines := Lines(text);
    var fields := DraftFields(InitialScan);
    var i := 0;
    while i < |lines|
      invariant 0 <= i <= |lines|
      invariant fields == DraftFields(ScanPrefix(lines, i))
    {
      fields := ScanLineInPlace(fields, lines[i], ScanPrefix(lines, i));
      ScanPrefixStep(lines, i);
      i := i + 1;
    }
    data := PatchDefaults(fields, ScanPrefix(lines, |lines|));
  }

  /** The `forEach` callback: the title, description and cooking-time
      checks, each writing its field of the draft. */
  method ScanLineInPlace(fields0: map<string, Value>, line: string, ghost sc: Scan) returns (fields: map<string, Value>)
    requires fields0 == DraftFields(sc)
    ensures fields == DraftFields(ScanLine(sc, line))
  {
    fields := fields0;
    ghost var cur := sc;
    if IsTitleLine(line) {
      var m := ColonValue(line);
      if m.Some? {
        DraftFieldsTitle(cur, Unquote(m.value));
        fields := fields["title" := Str(Unquote(m.value))];
        cur := cur.(title := Unquote(m.value));
      }
    }
    if IsDescriptionLine(line) {
      var m := ColonValue(line);
      if m.Some? {
        DraftFieldsDescription(cur, Unquote(m.value));
        fields := fields["description" := Str(Unquote(m.value))];
        cur := cur.(description := Unquote(m.value));
      }
    }
    if IsTimeLine(line) {
      var m := FirstDigitRun(line, 0);
      if m.Some? {
        DraftFieldsTime(cur, DigitsValue(m.value));
        fields := fields["cookingTime" := Num(DigitsValue(m.value) as real)];
        cur := cur.(cookingTime := DigitsValue(m.value));
      }
    }
    assert cur == ScanLine(sc, line);
  }

  /** The defaulting after the scan: an empty title or description gets its
      default text, the empty lists get their placeholders. */
  method PatchDefaults(fields0: map<string, Value>, ghost sc: Scan) returns (data: Value)
    requires fields0 == DraftFields(sc)
    ensures data == Finish(sc)
  {
    var fields := fields0;
    ghost var cur := sc;
    if !Truthy(fields["title"]) {
      DraftFieldsTitle(cur, DefaultExtractedTitle);
      fields := fields["title" := Str(DefaultExtractedTitle)];
      cur := cur.(title := DefaultExtractedTitle);
    }
    if !Truthy(fields["description"]) {
      DraftFieldsDescription(cur, DefaultExtractedDescription);
      fields := fields["description" := Str(DefaultExtractedDescription)];
      cur := cur.(description := DefaultExtractedDescription);
    }
    assert cur == DefaultTexts(sc);
    if |fields["mainIngredients"].items| == 0 {
      fields := fields["mainIngredients" := Strings(ExtractedMainIngredients)];
    }
    if |fields["features"].items| == 0 {
      fields := fields["features" := Strings(ExtractedFeatures)];
    }
    data := Obj(fields);
  }

  /** The cooking time stays 30 unless some line mentioning the cooking time
      holds a digit run. */
  lemma {:induction false} CookingTimeDefault(lines: seq<string>, n: nat)
    requires n <= |lines|
    requires forall k :: 0 <= k < n ==> TimeOf(lines[k]).None?
    ensures ScanPrefix(lines, n).cookingTime == 30
  {
    NoTimeUpdate(Updates(lines), n);
  }

  lemma {:induction false} NoTimeUpdate(us: seq<LineUpdate>, n: nat)
    requires n <= |us|
    requires forall k :: 0 <= k < n ==> us[k].cookingTime.None?
    ensures ApplyAll(us, n).cookingTime == 30
  {
    if n > 0 {
      NoTimeUpdate(us, n - 1);
    }
  }

  /** Later title lines overwrite earlier ones: the scanned title is the one
      from the last line that sets a title. */
  lemma LastTitleLineWins(lines: seq<string>, n: nat, k: nat)
    requires k < n <= |lines|
    requires TitleOf(lines[k]).Some?
    requires forall j :: k < j < n ==> TitleOf(lines[j]).None?
    ensures ScanPrefix(lines, n).title == TitleOf(lines[k]).value
  {
    LastTitleUpdateWins(Updates(lines), n, k);
  }

  lemma {:induction false} LastTitleUpdateWins(us: seq<LineUpdate>, n: nat, k: nat)
    requires k < n <= |us|
    requires us[k].title.Some?
    requires forall j :: k < j < n ==> us[j].title.None?
    ensures ApplyAll(us, n).title == us[k].title.value
  {
    if n - 1 > k {
      LastTitleUpdateWins(us, n - 1, k);
    }
  }

  /** With no line that sets a title, the extracted title is the default. */
  lemma NoTitleLine(lines: seq<string>, n: nat)
    requires n <= |lines|
    requires forall j :: 0 <= j < n ==> TitleOf(lines[j]).None?
    ensures ScanPrefix(lines, n).title == ""
  {
    NoTitleUpdate(Updates(lines), n);
  }

  lemma {:induction false} NoTitleUpdate(us: seq<LineUpdate>, n: nat)
    requires n <= |us|
    requires forall j :: 0 <= j < n ==> us[j].title.None?
    ensures ApplyAll(us, n).title == ""
  {
    if n > 0 {
      NoTitleUpdate(us, n - 1);
    }
  }

  /** Later description lines overwrite earlier ones: the scanned
      description is the one from the last line that sets a description. */
  lemma LastDescriptionLineWins(lines: seq<string>, n: nat, k: nat)
    requires k < n <= |lines|
    requires DescriptionOf(lines[k]).Some?
    requires forall j :: k < j < n ==> DescriptionOf(lines[j]).None?
    ensures ScanPrefix(lines, n).description == DescriptionOf(lines[k]).value
  {
    LastDescriptionUpdateWins(Updates(lines), n, k);
  }

  lemma {:induction false} LastDescriptionUpdateWins(us: seq<LineUpdate>, n: nat, k: nat)
    requires k < n <= |us|
    requires us[k].description.Some?
    requires forall j :: k < j < n ==> us[j].description.None?
    ensures ApplyAll(us, n).description == us[k].description.value
  {
    if n - 1 > k {
      LastDescriptionUpdateWins(us, n - 1, k);
    }
  }

  /** With no line that sets a description, the scanned description stays
      empty, so the default text is used. */
  lemma NoDescriptionLine(lines: seq<string>, n: nat)
    requires n <= |lines|
    requires forall j :: 0 <= j < n ==> DescriptionOf(lines[j]).None?
    ensures ScanPrefix(lines, n).description == ""
  {
    NoDescriptionUpdate(Updates(lines), n);
  }

  lemma {:induction false} NoDescriptionUpdate(us: seq<LineUpdate>, n: nat)
    requires n <= |us|
    requires forall j :: 0 <= j < n ==> us[j].description.None?
    ensures ApplyAll(us, n).description == ""
  {
    if n > 0 {
      NoDescriptionUpdate(us, n - 1);
    }
  }

  /** Later cooking-time lines overwrite earlier ones: the scanned time is
      the digit run of the last line mentioning the cooking time that holds
      one. */
  lemma LastTimeLineWins(lines: seq<string>, n: nat, k: nat)
    requires k < n <= |lines|
    requires TimeOf(lines[k]).Some?
    requires forall j :: k < j < n ==> TimeOf(lines[j]).None?
    ensures ScanPrefix(lines, n).cookingTime == TimeOf(lines[k]).value
  {
    LastTimeUpdateWins(Updates(lines), n, k);
  }

  lemma {:induction false} LastTimeUpdateWins(us: seq<LineUpdate>, n: nat, k: nat)
    requires k < n <= |us|
    requires us[k].cookingTime.Some?
    requires forall j :: k < j < n ==> us[j].cookingTime.None?
    ensures ApplyAll(us, n).cookingTime == us[k].cookingTime.value
  {
    if n - 1 > k {
      LastTimeUpdateWins(us, n - 1, k);
    }
  }

  // ---------------------------------------------------------------------
  // getDefaultRecipeData

  const DraftTitle: string := "AIレシピ"
  const DraftDescription: string := "AI技術を使って生成されたレシピです。"
  const DraftIngredients: Value :=
    Arr([IngredientValue(Ingredient(Str("基本材料"), Str("適量"), Str("適量"), Str("お好みで調整してください")))])
  const DraftFeatures: Value := Arr([Str("簡単"), Str("美味しい"), Str("栄養満点")])
  const DraftMainIngredients: Value := Arr([Str("材料1"), Str("材料2"), Str("材料3")])

  /** The detail fields of the last-resort draft. */
  const DraftDetailFields: map<string, Value> := map[
    "ingredients" := DraftIngredients,
    "steps" := DefaultSteps,
    "nutritionInfo" := DefaultNutrition,
    "tips" := DefaultTips,
    "servings" := Num(4.0),
    "prepTime" := Num(10.0),
    "totalTime" := Num(30.0)]

  /** An object holding `fields` with the five summary fields set. */
  function WithSummary(fields: map<string, Value>, title: string, description: string,
                       cookingTime: real, mainIngredients: Value, features: Value): (r: Value)
    ensures r.Obj? && Prop(r, "title") == Str(title) && Prop(r, "description") == Str(description)
    ensures Prop(r, "cookingTime") == Num(cookingTime)
    ensures Prop(r, "mainIngredients") == mainIngredients && Prop(r, "features") == features
  {
    Obj(fields["features" := features]["mainIngredients" := mainIngredients]["cookingTime" := Num(cookingTime)]
              ["description" := Str(description)]["title" := Str(title)])
  }

  /** The constant last-resort draft. */
  function DefaultRecipeData(): (r: Value)
    ensures r.Obj? && NonBlankString(Prop(r, "title")) && NonBlankString(Prop(r, "description"))
    ensures Prop(r, "cookingTime") == Num(30.0)
    ensures IsNonEmptyArray(Prop(r, "mainIngredients")) && IsNonEmptyArray(Prop(r, "features"))
  {
    DraftTextsNonBlank();
    WithSummary(DraftDetailFields, DraftTitle, DraftDescription, 30.0, DraftMainIngredients, DraftFeatures)
  }

  /** The draft's title and description are not blank. */
  lemma DraftTextsNonBlank()
    ensures Trim(DraftTitle) != "" && Trim(DraftDescription) != ""
  {
    assert !IsSpace(DraftTitle[0]) && !IsSpace(DraftDescription[0]);
    TrimEmptyIffBlank(DraftTitle);
    TrimEmptyIffBlank(DraftDescription);
  }

  // ---------------------------------------------------------------------
  // parseRecipeResponse

  /** The text handed to `JSON.parse`, if a structural strategy applies:
      the cleaned body of the first fenced `json` block; else the cleaned
      trimmed reply when it looks like one object; else the cleaned span
      from the first `{` to the last `}`. */
  function Candidate(response: string): (r: Option<string>)
    ensures r.Some? ==> IsSubseq(r.value, response)
    ensures r.Some? ==> HasNoControl(r.value)
  {
    match FencedBody(response)
    case Some(body) =>
      FencedBodyIsSubseq(response);
      SubseqTrans(CleanJsonString(body), body, response);
      Some(CleanJsonString(body))
    case None =>
      var t := Trim(response);
      TrimIsSubseq(response);
      if StartsWith(t, "{") && EndsWith(t, "}") then
        SubseqTrans(CleanJsonString(t), t, response);
        Some(CleanJsonString(t))
      else
        match BraceSpan(t)
        case Some(x) =>
          SubseqTrans(x, t, response);
          SubseqTrans(CleanJsonString(x), x, response);
          Some(CleanJsonString(x))
        case None => None
  }

  /** `text.substring(text.indexOf('{'), text.lastIndexOf('}') + 1)`, taken
      only when a `{` has a later `}`. */
  function BraceSpan(t: string): (r: Option<string>)
    ensures r.Some? <==> IndexOf(t, '{') != -1 && LastIndexOf(t, '}') > IndexOf(t, '{')
    ensures r.Some? ==> r.value == t[IndexOf(t, '{')..LastIndexOf(t, '}') + 1] && IsSubseq(r.value, t)
  {
    var a := IndexOf(t, '{');
    var b := LastIndexOf(t, '}');
    if a != -1 && b != -1 && b > a then
      SubseqSlice(t, a, b + 1);
      Some(t[a..b + 1])
    else
      None
  }

  lemma FencedBodyIsSubseq(s: string)
    requires FencedBody(s).Some?
    ensures IsSubseq(FencedBody(s).value, s)
  {
    var p, g, e :| MatchAt(s, p, g, e) && FirstMatch(s, p, g, e) && FencedBody(s).value == s[g..e];
    SubseqSlice(s, g, e);
  }

  /** `parseRecipeResponse`: it never throws. A failed `JSON.parse`, or no
      structural candidate at all, falls back to the line-based
      extraction; the constant default is never reached, because the
      extraction cannot throw on a string. */
  function ParseRecipeResponse(jsonParse: string -> Option<Value>, response: string): (r: Value)
    ensures Candidate(response).Some? && jsonParse(Candidate(response).value).Some?
            ==> r == jsonParse(Candidate(response).value).value
    ensures Candidate(response).None? || jsonParse(Candidate(response).value).None?
            ==> r == ExtractedData(response)
  {
    match Candidate(response)
    case Some(c) =>
      (match jsonParse(c)
       case Some(v) => v
       case None => ExtractedData(response))
    case None => ExtractedData(response)
  }

  /** Once a fenced block matches, only its cleaned body is parsed; when that
      parse fails, neither the whole-text nor the brace strategy is tried. */
  lemma FencedBlockDecides(jsonParse: string -> Option<Value>, response: string)
    requires FencedBody(response).Some?
    ensures Candidate(response) == Some(CleanJsonString(FencedBody(response).value))
    ensures jsonParse(CleanJsonString(FencedBody(response).value)).None?
            ==> ParseRecipeResponse(jsonParse, response) == ExtractedData(response)
  {
  }

  /** Without a fenced block, a parse happens exactly when the trimmed reply
      has a `{` with a later `}`. */
  lemma BraceCandidateIff(response: string)
    requires FencedBody(response).None?
    ensures var t := Trim(response);
            Candidate(response).Some? <==> (IndexOf(t, '{') != -1 && LastIndexOf(t, '}') > IndexOf(t, '{'))
  {
    var t := Trim(response);
    if StartsWith(t, "{") && EndsWith(t, "}") {
      WholeTextStrategyRedundant(response);
    }
  }

  /** The whole-text strategy is subsumed by the brace strategy: for a
      trimmed reply that starts with `{` and ends with `}`, the span from
      the first `{` to the last `}` is the whole trimmed reply. */
  lemma WholeTextStrategyRedundant(response: string)
    requires StartsWith(Trim(response), "{") && EndsWith(Trim(response), "}")
    ensures var t := Trim(response);
            var a := IndexOf(t, '{');
            var b := LastIndexOf(t, '}');
            a == 0 && b == |t| - 1 && b > a && t[a..b + 1] == t
  {
    var t := Trim(response);
    assert t[0] == '{';
    assert t[|t| - 1] == '}';
  }

  // ---------------------------------------------------------------------
  // validateRecipeData

  /** How a `validateRecipeData` call ends: it throws (a property read on
      `null`/`undefined`, `.trim` on something that is not a string), it
      returns `false` and leaves the draft alone, or it returns `true`
      with the repaired draft. */
  datatype Verdict = Threw | Rejected | Accepted(repaired: Value)

  const DefaultMainIngredients := ["材料1", "材料2", "材料3"]
  const DefaultFeatures := ["美味しい", "簡単", "栄養満点"]

  /** The description after repair: kept when it is a non-blank string,
      otherwise `${title}の美味しいレシピです。`. */
  function RepairedDescription(title: string, d: Value): (r: Value)
    requires !Truthy(d) || d.Str?
    ensures NonBlankString(d) ==> r == d
    ensures !NonBlankString(d) ==> r == Str(title + "の美味しいレシピです。")
    ensures NonBlankString(r)
  {
    var suffix := "の美味しいレシピです。";
    assert (title + suffix)[|title + suffix| - 1] == suffix[|suffix| - 1];
    TrimEmptyIffBlank(title + suffix);
    if Truthy(d) && Trim(d.s) != "" then d else Str(title + suffix)
  }

  function KeepOr(v: Value, default: seq<string>): (r: Value)
    ensures IsNonEmptyArray(v) ==> r == v
    ensures !IsNonEmptyArray(v) ==> r == Strings(default)
  {
    if IsNonEmptyArray(v) then v else Strings(default)
  }

  /** The cooking time after repair: kept when it is a positive number. */
  function RepairedTime(t: Value): (r: Value)
    ensures PositiveNumber(r)
    ensures PositiveNumber(t) ==> r == t
    ensures !PositiveNumber(t) ==> r == Num(30.0)
  {
    if t.Num? && t.n > 0.0 then t else Num(30.0)
  }

  /** The four summary fields a successful validation may rewrite. */
  predicate IsRepairedKey(k: string) {
    k == "description" || k == "cookingTime" || k == "mainIngredients" || k == "features"
  }

  /** The four writes of a successful validation, one property at a time. */
  function Repair(v: Value, title: string): (w: Value)
    requires v.Obj? && (!Truthy(Prop(v, "description")) || Prop(v, "description").Str?)
    ensures w.Obj?
    ensures Prop(w, "description") == RepairedDescription(title, Prop(v, "description"))
    ensures Prop(w, "cookingTime") == RepairedTime(Prop(v, "cookingTime"))
    ensures Prop(w, "mainIngredients") == KeepOr(Prop(v, "mainIngredients"), DefaultMainIngredients)
    ensures Prop(w, "features") == KeepOr(Prop(v, "features"), DefaultFeatures)
    ensures forall k :: !IsRepairedKey(k) ==> Prop(w, k) == Prop(v, k)
  {
    var w1 := SetProp(v, "description", RepairedDescription(title, Prop(v, "description")));
    var w2 := SetProp(w1, "cookingTime", RepairedTime(Prop(v, "cookingTime")));
    var w3 := SetProp(w2, "mainIngredients", KeepOr(Prop(v, "mainIngredients"), DefaultMainIngredients));
    SetProp(w3, "features", KeepOr(Prop(v, "features"), DefaultFeatures))
  }

  /** The effect of `validateRecipeData` on a draft: it throws, returns
      `false`, or returns `true` and leaves a draft whose summary fields
      are all present; the title is never touched. */
  function Validation(v: Value): (r: Verdict)
    ensures r.Threw? <==> IsNullish(v)
                          || (Truthy(Prop(v, "title")) && !Prop(v, "title").Str?)
                          || (NonBlankString(Prop(v, "title")) && Truthy(Prop(v, "description"))
                              && !Prop(v, "description").Str?)
    ensures r.Rejected? <==> !IsNullish(v) && (!Truthy(Prop(v, "title")) || (Prop(v, "title").Str? && Trim(Prop(v, "title").s) == ""))
    ensures r.Accepted? ==> var w := r.repaired;
      v.Obj? && w.Obj? && NonBlankString(Prop(w, "title"))
      && NonBlankString(Prop(w, "description")) && PositiveNumber(Prop(w, "cookingTime"))
      && IsNonEmptyArray(Prop(w, "mainIngredients")) && IsNonEmptyArray(Prop(w, "features"))
      && (forall k :: !IsRepairedKey(k) ==> Prop(w, k) == Prop(v, k))
    ensures r.Accepted? && NonBlankString(Prop(v, "description")) ==> Prop(r.repaired, "description") == Prop(v, "description")
    ensures r.Accepted? && PositiveNumber(Prop(v, "cookingTime")) ==> Prop(r.repaired, "cookingTime") == Prop(v, "cookingTime")
    ensures r.Accepted? && IsNonEmptyArray(Prop(v, "mainIngredients")) ==> Prop(r.repaired, "mainIngredients") == Prop(v, "mainIngredients")
    ensures r.Accepted? && IsNonEmptyArray(Prop(v, "features")) ==> Prop(r.repaired, "features") == Prop(v, "features")
  {
    if IsNullish(v) then Threw
    else
      var title := Prop(v, "title");
      if !Truthy(title) then Rejected
      else if !title.Str? then Threw
      else if Trim(title.s) == "" then Rejected
      else
        var d := Prop(v, "description");
        if Truthy(d) && !d.Str? then Threw
        else
          var w := Repair(v, title.s);
          assert !IsRepairedKey("title");
          Accepted(w)
  }

  /** A draft whose summary fields are all present and in shape is left
      as it is by the repair. */
  lemma RepairNothingToFix(v: Value, title: string)
    requires v.Obj? && NonBlankString(Prop(v, "description")) && PositiveNumber(Prop(v, "cookingTime"))
    requires IsNonEmptyArray(Prop(v, "mainIngredients")) && IsNonEmptyArray(Prop(v, "features"))
    ensures Repair(v, title) == v
  {
    SetPropSame(v, "description", RepairedDescription(title, Prop(v, "description")));
    SetPropSame(v, "cookingTime", RepairedTime(Prop(v, "cookingTime")));
    SetPropSame(v, "mainIngredients", KeepOr(Prop(v, "mainIngredients"), DefaultMainIngredients));
    SetPropSame(v, "features", KeepOr(Prop(v, "features"), DefaultFeatures));
  }

  /** A draft whose title, description, cooking time and lists are all in
      shape is accepted as it is. */
  lemma CompleteDraftAccepted(v: Value)
    requires v.Obj? && NonBlankString(Prop(v, "title"))
    requires NonBlankString(Prop(v, "description")) && PositiveNumber(Prop(v, "cookingTime"))
    requires IsNonEmptyArray(Prop(v, "mainIngredients")) && IsNonEmptyArray(Prop(v, "features"))
    ensures Validation(v) == Accepted(v)
  {
    RepairNothingToFix(v, Prop(v, "title").s);
  }

  /** A repaired draft passes validation again without further change. */
  lemma ValidationIdempotent(v: Value)
    requires Validation(v).Accepted?
    ensures Validation(Validation(v).repaired) == Validation(v)
  {
    CompleteDraftAccepted(Validation(v).repaired);
  }

  /** The constant default draft is accepted unchanged. */
  lemma DefaultRecipeDataAccepted()
    ensures Validation(DefaultRecipeData()) == Accepted(DefaultRecipeData())
  {
    CompleteDraftAccepted(DefaultRecipeData());
  }

  /** A text without a newline whose ends are not whitespace is one line. */
  lemma SingleLine(text: string)
    requires text != [] && '\n' !in text && !IsSpace(text[0]) && !IsSpace(text[|text| - 1])
    ensures Lines(text) == [text]
  {
    SplitWithoutSep(text, '\n');
    TrimOfTrimmed(text);
    assert NonEmptyTrimmed([text][1..]) == [];
  }

  /** The colon at `i` is the first match of `[:：](.+)` and the rest of the
      line has no line terminator: the captured value is everything after
      the colon. */
  lemma ColonValueAt(s: string, i: nat)
    requires ColonAt(s, i) && forall k :: 0 <= k < i ==> !ColonAt(s, k)
    requires forall k :: i < k < |s| ==> !IsLineTerminator(s[k])
    ensures ColonValue(s) == Some(s[i + 1..])
  {
    var c := ColonFrom(s, 0);
    assert c == Some(i);
    var j := LineRunEnd(s, i + 1);
    assert j == |s|;
    assert ColonValue(s) == Some(s[i + 1..j]);
    assert s[i + 1..j] == s[i + 1..];
  }

  /** For a one-line text whose line sets a non-empty title, that title is
      the extracted one. */
  lemma SingleLineTitle(text: string)
    requires Lines(text) == [text] && TitleOf(text).Some? && TitleOf(text).value != ""
    ensures Prop(ExtractedData(text), "title") == Str(TitleOf(text).value)
  {
    assert Updates([text])[0] == LineUpdateOf(text);
    assert ScanPrefix([text], 1).title == TitleOf(text).value;
  }

  /** The title a `title:<value>` line sets, for a non-empty value with no
      line terminator: the trimmed value with its quotes removed. */
  lemma TitleLineValue(word: string, value: string)
    requires TitleWord(word)
    requires |value| > 0 && forall k :: 0 <= k < |value| ==> !IsLineTerminator(value[k])
    ensures TitleOf(word + ":" + value) == Some(Unquote(value))
  {
    var text := word + ":" + value;
    if Contains(word, "料理名") {
      ContainsPrefix(word, ":" + value, "料理名");
    } else if Contains(word, "タイトル") {
      ContainsPrefix(word, ":" + value, "タイトル");
    } else {
      ContainsPrefix(word, ":" + value, "title");
    }
    assert word + (":" + value) == text;
    assert ColonAt(text, |word|);
    forall k | 0 <= k < |word|
      ensures !ColonAt(text, k)
    {
      assert text[k] == word[k];
    }
    forall k | |word| < k < |text|
      ensures !IsLineTerminator(text[k])
    {
      assert text[k] == value[k - |word| - 1];
    }
    ColonValueAt(text, |word|);
    assert text[|word| + 1..] == value;
  }

  /** A label that makes a line a title line: it contains `料理名`,
      `タイトル` or `title`, has no colon or line break, and does not start
      with whitespace. */
  predicate TitleWord(word: string) {
    word != [] && !IsSpace(word[0]) && IsTitleLine(word)
    && forall k :: 0 <= k < |word| ==> !IsColon(word[k]) && !IsLineTerminator(word[k])
  }

  /** A one-line reply `<word>:<value>` with a title label: the extracted
      title is the value, trimmed and with its quotes removed; so
      `title: Tomato Soup` gives `Tomato Soup`. */
  lemma TitleLineExtracted(word: string, value: string)
    requires TitleWord(word)
    requires value != [] && !IsSpace(value[|value| - 1])
    requires forall k :: 0 <= k < |value| ==> !IsLineTerminator(value[k])
    requires Unquote(value) != ""
    ensures Prop(ExtractedData(word + ":" + value), "title") == Str(Unquote(value))
  {
    TitleLineValue(word, value);
    OneLine(word, value);
    SingleLineTitle(word + ":" + value);
  }

  /** `<word>:<value>` is a single line. */
  lemma OneLine(word: string, value: string)
    requires TitleWord(word)
    requires value != [] && !IsSpace(value[|value| - 1])
    requires forall k :: 0 <= k < |value| ==> !IsLineTerminator(value[k])
    ensures Lines(word + ":" + value) == [word + ":" + value]
  {
    var text := word + ":" + value;
    assert '\n' !in value;
    assert '\n' !in word;
    assert word + ":" + value == word + (":" + value);
    assert text[|text| - 1] == value[|value| - 1];
    assert text[0] == word[0];
    SingleLine(text);
  }

  /** A quoted blank title survives extraction, because the quotes are
      removed only after trimming, and validation then rejects it. */
  lemma QuotedBlankTitleRejected(word: string, value: string)
    requires TitleWord(word)
    requires value != [] && !IsSpace(value[|value| - 1])
    requires forall k :: 0 <= k < |value| ==> !IsLineTerminator(value[k])
    requires Unquote(value) != "" && Trim(Unquote(value)) == ""
    ensures Prop(ExtractedData(word + ":" + value), "title") == Str(Unquote(value))
    ensures Validation(ExtractedData(word + ":" + value)).Rejected?
  {
    var v := ExtractedData(word + ":" + value);
    TitleLineExtracted(word, value);
    BlankTitleRejected(v);
  }

  lemma BlankTitleRejected(v: Value)
    requires Prop(v, "title").Str? && Trim(Prop(v, "title").s) == ""
    ensures Validation(v).Rejected?
  {
  }

  /** `title: " "` is such a reply: its title is a single space. */
  lemma QuotedBlankExample(value: string)
    requires value == " \" \""
    ensures Unquote(value) == " " && Trim(Unquote(value)) == ""
  {
    TrimExact(value, 1, 4);
    assert value[1..4] == "\" \"";
    assert RemoveChar("\" \"", '"') == " ";
  }

  /** The mutable draft `validateRecipeData` works on. */
  class Draft {
    var value: Value

    constructor(v: Value)
      ensures value == v
    {
      value := v;
    }
  }

  /** How a call that may throw ends. */
  datatype Outcome = Thrown | Returned(ok: bool)

  /** `validateRecipeData(data)`: checks the title and repairs the other
      summary fields of the draft in place. */
  method ValidateRecipeData(d: Draft) returns (r: Outcome)
    modifies d
    ensures Validation(old(d.value)).Threw? ==> r == Thrown && d.value == old(d.value)
    ensures Validation(old(d.value)).Rejected? ==> r == Returned(false) && d.value == old(d.value)
    ensures Validation(old(d.value)).Accepted? ==> r == Returned(true) && d.value == Validation(old(d.value)).repaired
  {
    if IsNullish(d.value) {
      return Thrown;
    }
    var title := Prop(d.value, "title");
    if !Truthy(title) {
      return Returned(false);
    }
    if !title.Str? {
      return Thrown;
    }
    if Trim(title.s) == "" {
      return Returned(false);
    }
    var desc := Prop(d.value, "description");
    if Truthy(desc) && !desc.Str? {
      return Thrown;
    }
    ghost var v := d.value;
    FillDescription(d, title.s);
    ghost var w1 := d.value;
    FillCookingTime(d);
    ghost var w2 := d.value;
    FillList(d, "mainIngredients", DefaultMainIngredients);
    ghost var w3 := d.value;
    FillList(d, "features", DefaultFeatures);
    assert Prop(w1, "cookingTime") == Prop(v, "cookingTime");
    assert Prop(w2, "mainIngredients") == Prop(v, "mainIngredients");
    assert Prop(w3, "features") == Prop(v, "features");
    assert d.value == Repair(v, title.s);
    return Returned(true);
  }

  /** The description check: a falsy or blank description is replaced. */
  method FillDescription(d: Draft, title: string)
    modifies d
    requires d.value.Obj?
    requires var desc := Prop(d.value, "description"); !Truthy(desc) || desc.Str?
    ensures d.value == SetProp(old(d.value), "description", RepairedDescription(title, Prop(old(d.value), "description")))
  {
    var desc := Prop(d.value, "description");
    if !Truthy(desc) || Trim(desc.s) == "" {
      d.value := SetProp(d.value, "description", Str(title + "の美味しいレシピです。"));
    } else {
      SetPropSame(d.value, "description", desc);
    }
  }

  /** The cooking-time check: anything but a positive number becomes 30. */
  method FillCookingTime(d: Draft)
    modifies d
    requires d.value.Obj?
    ensures d.value == SetProp(old(d.value), "cookingTime", RepairedTime(Prop(old(d.value), "cookingTime")))
  {
    var time := Prop(d.value, "cookingTime");
    if !time.Num? || time.n <= 0.0 {
      d.value := SetProp(d.value, "cookingTime", Num(30.0));
    } else {
      SetPropSame(d.value, "cookingTime", time);
    }
  }

  /** A list check: a value that is not an array becomes `[]`, and an empty
      array gets the placeholders. */
  method FillList(d: Draft, key: string, default: seq<string>)
    modifies d
    requires d.value.Obj?
    ensures d.value == SetProp(old(d.value), key, KeepOr(Prop(old(d.value), key), default))
  {
    ghost var v := d.value;
    if !Prop(d.value, key).Arr? {
      d.value := SetProp(d.value, key, Arr([]));
    }
    if |Prop(d.value, key).items| == 0 {
      d.value := SetProp(d.value, key, Strings(default));
      assert d.value.fields == v.fields[key := Strings(default)];
    } else {
      SetPropSame(v, key, Prop(v, key));
    }
  }
}
