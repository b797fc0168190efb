/** The AI gateway without its network call: extracting JSON from the model's
    reply, the shape check of each operation, the prompt labels, and the
    error-wrapping policy. `JSON.parse` is the parameter `parse`, and the
    reply (or the transport failure) is an input. */
module GeminiService {
  import opened Outcomes
  import opened JsString
  import opened Json
  import opened Types
  import opened Constants

  const NotConfiguredMessage: string := "خدمة الذكاء الاصطناعي غير مهيأة بسبب عدم توفر مفتاح API."

  const MealsPrefix: string := "خطأ في الاتصال بخدمة اقتراح الوجبات: "
  const MealsGeneric: string := "حدث خطأ غير متوقع أثناء اقتراح الوجبات."
  const MealsShapeMessage: string := "الاقتراحات المستلمة ليست بالتنسيق المتوقع."
  const MealsNotArrayMessage: string := "لم يتمكن الذكاء الاصطناعي من تقديم اقتراحات بالتنسيق المتوقع."

  const RecipePrefix: string := "خطأ في جلب تفاصيل الوصفة: "
  const RecipeGeneric: string := "حدث خطأ غير متوقع أثناء جلب تفاصيل الوصفة."
  const RecipeShapeMessage: string := "لم يتمكن الذكاء الاصطناعي من تقديم تفاصيل الوصفة بالتنسيق المتوقع."

  const VideoPrefix: string := "خطأ في البحث عن فيديو الوصفة: "
  const VideoGeneric: string := "حدث خطأ غير متوقع أثناء البحث عن فيديو الوصفة."
  const VideoShapeMessage: string := "لم يتمكن الذكاء الاصطناعي من تقديم معرّف الفيديو بالتنسيق المتوقع."

  const ExercisesPrefix: string := "خطأ في الاتصال بخدمة اقتراح التمارين: "
  const ExercisesGeneric: string := "حدث خطأ غير متوقع أثناء اقتراح التمارين."
  const ExercisesShapeMessage: string := "اقتراحات التمارين المستلمة ليست بالتنسيق المتوقع."
  const ExercisesNotArrayMessage: string := "لم يتمكن الذكاء الاصطناعي من تقديم اقتراحات تمارين بالتنسيق المتوقع."

  const GenericGoalLabel: string := "تحقيق الهدف المحدد"

  // ---------------------------------------------------------------------------
  // Extracting the JSON text from the reply

  const Fence: string := "```"

  /** Capture group 2 of `/^```(\w*)?\s*\n?(.*?)\n?\s*```$/s` on `t`, or None when
      the pattern does not match. The pattern matches exactly the texts of at
      least six characters that begin and end with a fence. The greedy `(\w*)?`
      then takes every word character after the opening fence, the greedy `\s*`
      all whitespace after those (leaving nothing for `\n?`), and the lazy body
      stops where only whitespace remains before the closing fence: the body is
      what is left, trimmed. */
  function FenceBody(t: string): (b: Option<string>)
    ensures b.Some? <==> IsFencedText(t)
  {
    if IsFencedText(t) then
      Some(Trim(DropWhile(IsWordChar, t[3..|t| - 3])))
    else None
  }

  /** At least six characters, beginning and ending with a fence. */
  predicate IsFencedText(t: string)
  {
    |t| >= 6 && t[..3] == Fence && t[|t| - 3..] == Fence
  }

  /** The text `parseJsonFromMarkdown` hands to `JSON.parse`: the trimmed reply,
      or the trimmed body when the trimmed reply is one fenced block whose body is not empty. */
  function ExtractJsonText(markdown: string): string
  {
    var t := Trim(markdown);
    var body := FenceBody(t);
    if body.Some? && |body.value| > 0 then Trim(body.value) else t
  }

  /** What `parseJsonFromMarkdown` returns: the parsed value, or `null` when parsing fails. */
  function ParsedReply(markdown: string, parse: string -> Option<Json>): Json
  {
    match parse(ExtractJsonText(markdown))
    case Some(j) => j
    case None => JNull
  }

  method ParseJsonFromMarkdown(markdownJson: string, parse: string -> Option<Json>) returns (r: Json)
    ensures r == ParsedReply(markdownJson, parse)
  {
    var jsonStr := Trim(markdownJson);
    var match2 := FenceBody(jsonStr);
    if match2.Some? && |match2.value| > 0 {
      jsonStr := Trim(match2.value);
    }
    var parsed := parse(jsonStr);
    if parsed.Some? {
      r := parsed.value;
    } else {
      r := JNull;
    }
  }

  /** The body the pattern captures from a fenced text. */
  lemma FenceBodyOfBlock(inner: string)
    ensures FenceBody(Fence + inner + Fence) == Some(Trim(DropWhile(IsWordChar, inner)))
  {
    var t := Fence + inner + Fence;
    assert t[..3] == Fence && t[|t| - 3..] == Fence && t[3..|t| - 3] == inner;
  }

  /** A fenced block, padded with whitespace, with an optional word tag, whitespace
      after the tag and around the body: the body is what gets parsed. When
      nothing separates tag and body, the body must not start with a word
      character, or the tag would absorb it. */
  lemma {:induction false} FencedBlockRoundTrip(
    lead: string, tag: string, sep: string, body: string, tail: string, trail: string)
    requires All(IsWhitespace, lead) && All(IsWhitespace, trail)
    requires All(IsWordChar, tag) && All(IsWhitespace, sep) && All(IsWhitespace, tail)
    requires body != [] && !IsWhitespace(body[0]) && !IsWhitespace(body[|body| - 1])
    requires sep != [] || !IsWordChar(body[0])
    ensures ExtractJsonText(lead + Fence + tag + sep + body + tail + Fence + trail) == body
  {
    TaggedBodyIsCaptured(tag, sep, body, tail);
    PaddedBlockYieldsBody(lead, tag + (sep + body + tail), trail, body);
    FencedTextRegrouped(lead, tag, sep, body, tail, trail);
  }

  /** The word tag and the whitespace around the body are not captured. */
  lemma TaggedBodyIsCaptured(tag: string, sep: string, body: string, tail: string)
    requires All(IsWordChar, tag) && All(IsWhitespace, sep) && All(IsWhitespace, tail)
    requires body != [] && !IsWhitespace(body[0]) && !IsWhitespace(body[|body| - 1])
    requires sep != [] || !IsWordChar(body[0])
    ensures FenceBody(Fence + (tag + (sep + body + tail)) + Fence) == Some(body)
  {
    var rest := sep + body + tail;
    assert DropWhile(IsWordChar, tag + rest) == rest by {
      if sep != [] {
        WhitespaceIsNotWord(sep[0]);
        assert rest[0] == sep[0];
      } else {
        assert rest[0] == body[0];
      }
      DropWhileAppend(IsWordChar, tag, rest);
    }
    TrimPadded(sep, body, tail);
    FenceBodyOfBlock(tag + rest);
  }

  /** Whitespace around a fenced text is trimmed before the pattern is tried. */
  lemma PaddedBlockYieldsBody(lead: string, inner: string, trail: string, body: string)
    requires All(IsWhitespace, lead) && All(IsWhitespace, trail)
    requires FenceBody(Fence + inner + Fence) == Some(body)
    requires body != [] && !IsWhitespace(body[0]) && !IsWhitespace(body[|body| - 1])
    ensures ExtractJsonText(lead + (Fence + inner + Fence) + trail) == body
  {
    PaddedBlockIsTrimmed(lead, Fence + inner + Fence, trail);
    TrimmedIsFixed(body);
    BodyOfTrimmedBlock(lead + (Fence + inner + Fence) + trail, Fence + inner + Fence, body);
  }

  lemma PaddedBlockIsTrimmed(lead: string, t: string, trail: string)
    requires All(IsWhitespace, lead) && All(IsWhitespace, trail)
    requires IsFencedText(t)
    ensures Trim(lead + t + trail) == t
  {
    assert t[0] == t[..3][0] && t[|t| - 1] == t[|t| - 3..][2];
    TrimPadded(lead, t, trail);
  }

  lemma BodyOfTrimmedBlock(markdown: string, t: string, body: string)
    requires Trim(markdown) == t && FenceBody(t) == Some(body) && body != [] && Trim(body) == body
    ensures ExtractJsonText(markdown) == body
  {
  }

  lemma FencedTextRegrouped(lead: string, tag: string, sep: string, body: string, tail: string, trail: string)
    ensures lead + Fence + tag + sep + body + tail + Fence + trail
            == lead + (Fence + (tag + (sep + body + tail)) + Fence) + trail
  {
  }

  /** A reply that is not one fenced block is parsed after trimming only. */
  lemma UnfencedReplyIsTrimmed(markdown: string)
    requires !IsFencedText(Trim(markdown))
    ensures ExtractJsonText(markdown) == Trim(markdown)
  {
  }

  /** A fenced block tagged `json` yields its body. */
  lemma TaggedBlockExample()
    ensures ExtractJsonText("```json\n[1]\n```") == "[1]"
  {
    FencedBlockRoundTrip("", "json", "\n", "[1]", "\n", "");
    TaggedBlockSpelling();
  }

  lemma TaggedBlockSpelling()
    ensures "" + Fence + "json" + "\n" + "[1]" + "\n" + Fence + "" == "```json\n[1]\n```"
  {
  }

  /** A bare value is only trimmed. */
  lemma BareValueExample()
    ensures ExtractJsonText(" [1]\n") == "[1]"
  {
    BareValueTrimmed();
  }

  lemma BareValueTrimmed()
    ensures Trim(" [1]\n") == "[1]"
  {
    BareValueSpelling();
    TrimPadded(" ", "[1]", "\n");
  }

  lemma BareValueSpelling()
    ensures " " + "[1]" + "\n" == " [1]\n"
  {
  }

  /** When no white space separates the opening fence from the body, the body's
      leading word characters are read as the tag. A body made only of word
      characters is then captured empty, and the fenced text itself goes to
      `JSON.parse`. */
  lemma TagAbsorbsWordBodyExample()
    ensures ExtractJsonText("```42```") == "```42```"
  {
    FencedNumberIsTrimmed();
    FencedNumberHasEmptyBody();
  }

  lemma FencedNumberIsTrimmed()
    ensures Trim("```42```") == "```42```"
  {
    TrimmedIsFixed("```42```");
  }

  lemma FencedNumberHasEmptyBody()
    ensures FenceBody("```42```") == Some("")
  {
    assert DropWhile(IsWordChar, "42") == [] by {
      DropWhileAppend(IsWordChar, "42", []);
      assert "42" + [] == "42";
    }
    FenceBodyOfBlock("42");
    FencedNumberSpelling();
  }

  /** With a space after the fence, the tag is empty and the body is captured. */
  lemma SpacedNumberExample()
    ensures FenceBody("``` 42```") == Some("42")
  {
    SpacedNumberSpelling();
    SpacedBodyIsTrimmed();
    SpacedBodyHasNoTag();
    FenceBodyOfBlock(" 42");
  }

  lemma SpacedNumberSpelling()
    ensures Fence + " 42" + Fence == "``` 42```"
  {
  }

  lemma SpacedBodyHasNoTag()
    ensures DropWhile(IsWordChar, " 42") == " 42"
  {
    assert !IsWordChar(" 42"[0]);
  }

  lemma SpacedBodyIsTrimmed()
    ensures Trim(" 42") == "42"
  {
    assert " " + "42" + "" == " 42";
    TrimPadded(" ", "42", "");
  }

  /** A tag absorbs only the word characters: in ```123.5``` the capture is ".5". */
  lemma PartialAbsorbExample()
    ensures FenceBody("```123.5```") == Some(".5")
  {
    PartialAbsorbSpelling();
    PartialTagIsDropped();
    TrimmedIsFixed(".5");
    FenceBodyOfBlock("123.5");
  }

  lemma PartialAbsorbSpelling()
    ensures Fence + "123.5" + Fence == "```123.5```"
  {
  }

  lemma PartialTagIsDropped()
    ensures DropWhile(IsWordChar, "123.5") == ".5"
  {
    assert "123" + ".5" == "123.5";
    assert All(IsWordChar, "123");
    DropWhileAppend(IsWordChar, "123", ".5");
  }

  lemma FencedNumberSpelling()
    ensures Fence + "42" + Fence == "```42```"
  {
  }

  // ---------------------------------------------------------------------------
  // Shape checks, one per operation, on the value `parseJsonFromMarkdown` returned

  /** The in-order subsequence of `items` whose members `k1` and `k2` are strings. */
  function WithStrings(items: seq<Json>, k1: string, k2: string): (r: seq<Json>)
    ensures forall x :: x in r <==> x in items && HasString(x, k1) && HasString(x, k2)
    ensures |r| <= |items|
  {
    if items == [] then []
    else if HasString(items[0], k1) && HasString(items[0], k2) then [items[0]] + WithStrings(items[1..], k1, k2)
    else WithStrings(items[1..], k1, k2)
  }

  lemma {:induction false} WithStringsKeepsAllValid(items: seq<Json>, k1: string, k2: string)
    requires forall i :: 0 <= i < |items| ==> HasString(items[i], k1) && HasString(items[i], k2)
    ensures WithStrings(items, k1, k2) == items
  {
    if items != [] {
      WithStringsKeepsAllValid(items[1..], k1, k2);
    }
  }

  /** `items.filter(item => typeof item[k1] === 'string' && typeof item[k2] === 'string')`.
      Reading a member of a `null` item throws, so the call fails when any item is `null`. */
  function FilterWithStrings(items: seq<Json>, k1: string, k2: string): (r: Result<seq<Json>>)
    ensures r.Err? <==> JNull in items
    ensures r.Err? ==> r.message == NullReadMessage(k1)
    ensures r.Ok? ==> r.value == WithStrings(items, k1, k2)
  {
    if items == [] then Ok([])
    else
      var first := Prop(items[0], k1);
      if first.TypeError? then Err(first.message)
      else
        match FilterWithStrings(items[1..], k1, k2)
        case Err(m) =>
          assert JNull in items[1..];
          Err(m)
        case Ok(rest) =>
          if IsStringValue(first) && IsStringValue(Prop(items[0], k2)) then Ok([items[0]] + rest) else Ok(rest)
  }

  /** The meal check: the parsed value must be an array; its items with string
      `mealName` and `description` are kept unchanged and in order; no item may
      be `null`; and a non-empty array must keep at least one item. */
  function CheckMealList(parsed: Json): (r: Result<seq<MealSuggestion>>)
    ensures r.Ok? <==> && parsed.JArray? && JNull !in parsed.items
                       && (parsed.items == [] || exists i :: 0 <= i < |parsed.items| && IsMealSuggestionShape(parsed.items[i]))
    ensures r.Ok? ==> r.value == WithStrings(parsed.items, "mealName", "description")
    ensures !parsed.JArray? ==> r == Err(MealsNotArrayMessage)
    ensures parsed.JArray? && JNull in parsed.items ==> r == Err(NullReadMessage("mealName"))
    ensures parsed.JArray? && JNull !in parsed.items && r.Err? ==> r == Err(MealsShapeMessage)
  {
    if Truthy(parsed) && parsed.JArray? then
      match FilterWithStrings(parsed.items, "mealName", "description")
      case Err(m) => Err(m)
      case Ok(valid) =>
        if |valid| == 0 && |parsed.items| > 0 then
          assert forall i :: 0 <= i < |parsed.items| ==> parsed.items[i] !in valid;
          Err(MealsShapeMessage)
        else
          assert forall x :: x in valid ==> IsMealSuggestionShape(x);
          assert valid != [] ==> valid[0] in valid;
          Ok(valid)
    else Err(MealsNotArrayMessage)
  }

  /** The stored `animationUrl`: the trimmed string when the member is a string
      that is not blank, `null` otherwise. */
  function NormalizedAnimationUrl(a: Access): (u: Json)
    ensures u == JNull || (u.JString? && u.s != "" && Trim(u.s) == u.s)
  {
    if IsStringValue(a) && Trim(a.value.s) != "" then
      TrimIdempotent(a.value.s);
      JString(Trim(a.value.s))
    else JNull
  }

  /** `animationUrl` is present and is either `null` or a non-empty trimmed string. */
  predicate HasNormalizedUrl(j: Json)
  {
    && j.JObject? && "animationUrl" in j.fields
    && (j.fields["animationUrl"] == JNull
        || (j.fields["animationUrl"].JString? && j.fields["animationUrl"].s != ""
            && Trim(j.fields["animationUrl"].s) == j.fields["animationUrl"].s))
  }

  /** `{ ...ex, animationUrl: normalised }`: every other member is kept. */
  function NormalizeExercise(ex: ExerciseSuggestion): (r: ExerciseSuggestion)
    ensures r.fields.Keys == ex.fields.Keys + {"animationUrl"}
    ensures forall k :: k in ex.fields && k != "animationUrl" ==> k in r.fields && r.fields[k] == ex.fields[k]
    ensures HasNormalizedUrl(r)
    ensures r.fields["animationUrl"] == NormalizedAnimationUrl(Prop(ex, "animationUrl"))
  {
    var url := NormalizedAnimationUrl(Prop(ex, "animationUrl"));
    UpdateKeepsShape(ex, url);
    JObject(ex.fields["animationUrl" := url])
  }

  /** Setting `animationUrl` leaves `exerciseName` and `description` alone. */
  lemma UpdateKeepsShape(ex: ExerciseSuggestion, url: Json)
    ensures IsExerciseSuggestionShape(JObject(ex.fields["animationUrl" := url]))
  {
    assert "exerciseName"[0] == 'e' && "description"[0] == 'd' && "animationUrl"[0] == 'a';
  }

  /** Normalising twice is normalising once. */
  lemma NormalizeIsIdempotent(ex: ExerciseSuggestion)
    ensures NormalizeExercise(NormalizeExercise(ex)) == NormalizeExercise(ex)
  {
    var once := NormalizeExercise(ex);
    var u := once.fields["animationUrl"];
    assert NormalizedAnimationUrl(Prop(once, "animationUrl")) == u;
    assert once.fields["animationUrl" := u] == once.fields;
  }

  /** A URL padded with whitespace is stored without the padding. */
  lemma PaddedUrlIsTrimmed(lead: string, url: string, trail: string)
    requires All(IsWhitespace, lead) && All(IsWhitespace, trail)
    requires url != [] && !IsWhitespace(url[0]) && !IsWhitespace(url[|url| - 1])
    ensures NormalizedAnimationUrl(Defined(JString(lead + url + trail))) == JString(url)
  {
    TrimPadded(lead, url, trail);
  }

  /** A blank URL, a missing member and a value of another kind are all stored as `null`. */
  lemma UnusableUrlIsNull(a: Access)
    requires !(a.Defined? && a.value.JString?) || All(IsWhitespace, a.value.s)
    ensures NormalizedAnimationUrl(a) == JNull
  {
    if a.Defined? && a.value.JString? {
      TrimEmptyIffBlank(a.value.s);
    }
  }

  /** `valid.map(normalize)` on items already known to have the exercise shape. */
  function NormalizeAll(valid: seq<Json>): (r: seq<ExerciseSuggestion>)
    requires forall x :: x in valid ==> IsExerciseSuggestionShape(x)
    ensures |r| == |valid|
    ensures forall k :: 0 <= k < |valid| ==> IsExerciseSuggestionShape(valid[k]) && r[k] == NormalizeExercise(valid[k])
  {
    assert forall k :: 0 <= k < |valid| ==> valid[k] in valid;
    seq(|valid|, k requires 0 <= k < |valid| => NormalizeExercise(valid[k]))
  }

  /** The exercise check: the meal rules on `exerciseName` and `description`,
      then every kept item has its `animationUrl` normalised. */
  function CheckExerciseList(parsed: Json): (r: Result<seq<ExerciseSuggestion>>)
    ensures r.Ok? <==> && parsed.JArray? && JNull !in parsed.items
                       && (parsed.items == [] || exists i :: 0 <= i < |parsed.items| && IsExerciseSuggestionShape(parsed.items[i]))
    ensures r.Ok? ==> var valid := WithStrings(parsed.items, "exerciseName", "description");
                      && |r.value| == |valid|
                      && forall k :: 0 <= k < |valid| ==> IsExerciseSuggestionShape(valid[k]) && r.value[k] == NormalizeExercise(valid[k])
    ensures !parsed.JArray? ==> r == Err(ExercisesNotArrayMessage)
    ensures parsed.JArray? && JNull in parsed.items ==> r == Err(NullReadMessage("exerciseName"))
    ensures parsed.JArray? && JNull !in parsed.items && r.Err? ==> r == Err(ExercisesShapeMessage)
  {
    if Truthy(parsed) && parsed.JArray? then
      match FilterWithStrings(parsed.items, "exerciseName", "description")
      case Err(m) => Err(m)
      case Ok(valid) =>
        if |valid| == 0 && |parsed.items| > 0 then
          assert forall i :: 0 <= i < |parsed.items| ==> parsed.items[i] !in valid;
          Err(ExercisesShapeMessage)
        else
          assert valid != [] ==> valid[0] in valid;
          Ok(NormalizeAll(valid))
    else Err(ExercisesNotArrayMessage)
  }

  predicate IsIngredientShape(j: Json)
  {
    HasString(j, "name") && HasString(j, "quantity")
  }

  /** `ings.every(ing => typeof ing.name === 'string' && typeof ing.quantity === 'string')`:
      it stops at the first item that fails the test, and throws when that item is `null`. */
  function EveryIngredient(ings: seq<Json>): (r: Result<bool>)
    ensures r == Ok(true) <==> forall i :: 0 <= i < |ings| ==> IsIngredientShape(ings[i])
    ensures r.Err? <==> exists i :: && 0 <= i < |ings| && ings[i] == JNull
                                    && forall j :: 0 <= j < i ==> IsIngredientShape(ings[j])
    ensures r.Err? ==> r.message == NullReadMessage("name")
  {
    if ings == [] then Ok(true)
    else
      var name := Prop(ings[0], "name");
      if name.TypeError? then Err(name.message)
      else if IsStringValue(name) && IsStringValue(Prop(ings[0], "quantity")) then
        var r := EveryIngredient(ings[1..]);
        assert forall i :: 1 <= i < |ings| ==> ings[i] == ings[1..][i - 1];
        r
      else
        Ok(false)
  }

  predicate AllStrings(steps: seq<Json>)
  {
    forall i :: 0 <= i < |steps| ==> steps[i].JString?
  }

  predicate HasArray(j: Json, key: string)
  {
    j.JObject? && key in j.fields && j.fields[key].JArray?
  }

  /** The whole recipe is accepted or rejected: a string `mealName`, an array of
      ingredients each with string `name` and `quantity`, and an array of string
      steps; empty arrays are accepted. */
  predicate IsRecipeShape(j: Json)
  {
    && HasString(j, "mealName")
    && HasArray(j, "ingredients")
    && (forall i :: 0 <= i < |j.fields["ingredients"].items| ==> IsIngredientShape(j.fields["ingredients"].items[i]))
    && HasArray(j, "preparationSteps")
    && AllStrings(j.fields["preparationSteps"].items)
  }

  /** The recipe a value of the accepted shape denotes. */
  function RecipeOf(j: Json): (r: DetailedMealRecipe)
    requires IsRecipeShape(j)
    ensures r.mealName == StringAt(j, "mealName")
    ensures |r.ingredients| == |j.fields["ingredients"].items|
    ensures forall i :: 0 <= i < |r.ingredients| ==>
              r.ingredients[i] == Ingredient(StringAt(j.fields["ingredients"].items[i], "name"),
                                             StringAt(j.fields["ingredients"].items[i], "quantity"))
    ensures r.preparationSteps == seq(|j.fields["preparationSteps"].items|,
                                      i requires 0 <= i < |j.fields["preparationSteps"].items| => j.fields["preparationSteps"].items[i].s)
    ensures r.youtubeVideoId == None
  {
    var ings := j.fields["ingredients"].items;
    var steps := j.fields["preparationSteps"].items;
    DetailedMealRecipe(
      StringAt(j, "mealName"),
      seq(|ings|, i requires 0 <= i < |ings| => Ingredient(StringAt(ings[i], "name"), StringAt(ings[i], "quantity"))),
      seq(|steps|, i requires 0 <= i < |steps| => steps[i].s),
      None)
  }

  /** The recipe check, all or nothing. Besides the shape error, the one other
      failure is the `TypeError` of a `null` ingredient that `every` reaches. */
  function CheckRecipe(parsed: Json): (r: Result<DetailedMealRecipe>)
    ensures r.Ok? <==> IsRecipeShape(parsed)
    ensures r.Ok? ==> r.value == RecipeOf(parsed)
    ensures r.Err? ==> r.message == RecipeShapeMessage || r.message == NullReadMessage("name")
    ensures r == Err(NullReadMessage("name")) <==>
              && HasString(parsed, "mealName") && HasArray(parsed, "ingredients")
              && exists i :: && 0 <= i < |parsed.fields["ingredients"].items|
                             && parsed.fields["ingredients"].items[i] == JNull
                             && forall j :: 0 <= j < i ==> IsIngredientShape(parsed.fields["ingredients"].items[j])
  {
    assert RecipeShapeMessage != NullReadMessage("name") by {
      assert NullReadMessage("name") == "Cannot read properties of null (reading '" + "name" + "')";
      assert NullReadMessage("name")[0] == 'C';
    }
    if !Truthy(parsed) || !IsStringValue(Prop(parsed, "mealName")) then Err(RecipeShapeMessage)
    else
      var ings := Prop(parsed, "ingredients");
      if !(ings.Defined? && ings.value.JArray?) then Err(RecipeShapeMessage)
      else
        match EveryIngredient(ings.value.items)
        case Err(m) => Err(m)
        case Ok(all) =>
          var steps := Prop(parsed, "preparationSteps");
          if all && steps.Defined? && steps.value.JArray? && AllStrings(steps.value.items) then
            Ok(RecipeOf(parsed))
          else
            Err(RecipeShapeMessage)
  }

  /** The video check: `youtubeVideoId` must be a string or exactly `null`; a
      missing member or any other kind of value is a shape error. */
  function CheckVideo(parsed: Json): (r: Result<Option<string>>)
    ensures r.Ok? <==> parsed.JObject? && "youtubeVideoId" in parsed.fields
                       && (parsed.fields["youtubeVideoId"].JString? || parsed.fields["youtubeVideoId"] == JNull)
    ensures r.Ok? ==> (r.value.Some? <==> HasString(parsed, "youtubeVideoId"))
    ensures r.Ok? && r.value.Some? ==> r.value.value == StringAt(parsed, "youtubeVideoId")
    ensures r.Err? ==> r.message == VideoShapeMessage
  {
    if Truthy(parsed) then
      var id := Prop(parsed, "youtubeVideoId");
      if IsStringValue(id) then Ok(Some(id.value.s))
      else if id == Defined(JNull) then Ok(None)
      else Err(VideoShapeMessage)
    else Err(VideoShapeMessage)
  }

  /** An item missing `description` is dropped and the valid one kept. */
  lemma MealFilterExample()
    ensures var valid := JObject(map["mealName" := JString("a"), "description" := JString("b")]);
            var partial := JObject(map["mealName" := JString("c")]);
            CheckMealList(JArray([valid, partial])) == Ok([valid])
  {
    var valid := JObject(map["mealName" := JString("a"), "description" := JString("b")]);
    var partial := JObject(map["mealName" := JString("c")]);
    assert WithStrings([valid, partial], "mealName", "description") == [valid] by {
      assert [valid, partial][1..] == [partial];
      assert [partial][1..] == [];
    }
  }

  /** A non-empty array with no valid item is a shape error; an empty array is accepted. */
  lemma MealShapeExamples()
    ensures CheckMealList(JArray([JObject(map["mealName" := JString("c")])])) == Err(MealsShapeMessage)
    ensures CheckMealList(JArray([])) == Ok([])
  {
  }

  /** A `null` id is "no video"; a number is a shape error. */
  lemma VideoExamples()
    ensures CheckVideo(JObject(map["youtubeVideoId" := JNull])) == Ok(None)
    ensures CheckVideo(JObject(map["youtubeVideoId" := JNumber(42.0)])) == Err(VideoShapeMessage)
  {
  }

  // ---------------------------------------------------------------------------
  // Prompt labels

  /** The gender as the exercise prompt spells it; the prompt repeats the
      labels of the options table. */
  function GenderLabel(gender: Gender): string
  {
    if gender == MALE then "ذكر" else "أنثى"
  }

  /** The gender label agrees with the gender options table. */
  lemma GenderLabelMatchesOptions(i: int)
    requires 0 <= i < |GenderOptions|
    ensures GenderLabel(GenderOptions[i].value) == GenderOptions[i].labelText
  {
  }

  /** The table's label for the level; the fallback to the raw value is never taken. */
  function ActivityLevelLabel(level: ActivityLevelName): (text: string)
    ensures text == ActivityLevelOptions[ActivityIndex(level)].labelText
  {
    ActivityTableIsComplete(level);
    var option := FindActivityOption(ActivityLevelOptions, level);
    if option.Some? && option.value.labelText != "" then option.value.labelText else level.Value()
  }

  /** The `switch` over the goal's raw value: the label of the goal table for each
      of the four goal values, and a generic phrase for anything else. */
  method ExerciseGoalLabel(exerciseGoal: string) returns (goalText: string)
    ensures forall g: ExerciseGoalValue :: exerciseGoal == g.Value() ==> goalText == ExerciseGoalOptions[GoalIndex(g)].labelText
    ensures (forall g: ExerciseGoalValue :: exerciseGoal != g.Value()) ==> goalText == GenericGoalLabel
  {
    goalText := "";
    match exerciseGoal {
      case "weightLoss" => 
        assert exerciseGoal == WeightLoss.Value();
        goalText := "فقدان الوزن";
      case "muscleGain" => 
        assert exerciseGoal == MuscleGain.Value();
        goalText := "بناء العضلات";
      case "generalFitness" => 
        assert exerciseGoal == GeneralFitness.Value();
        goalText := "تحسين اللياقة العامة";
      case "endurance" => 
        assert exerciseGoal == Endurance.Value();
        goalText := "زيادة القدرة على التحمل";
      case _ => goalText := "تحقيق الهدف المحدد";
    }
  }

  // ---------------------------------------------------------------------------
  // The operations

  /** What the call to the model produced: the reply text, or the value the call threw. */
  datatype Reply = Text(text: string) | Failed(thrown: Thrown)

  /** The `catch` clause shared by the four operations. */
  function Rethrow(prefix: string, generic: string, t: Thrown): string
  {
    match t
    case ErrorValue(m) => prefix + m
    case OtherValue => generic
  }

  /** An operation's `try` block once the client exists: the call, the parse,
      the check, and the re-throw of any failure through `Rethrow`. */
  function Attempt<T>(prefix: string, generic: string, reply: Reply, parse: string -> Option<Json>,
                      check: Json -> Result<T>): Result<T>
  {
    match reply
    case Failed(t) => Err(Rethrow(prefix, generic, t))
    case Text(s) =>
      match check(ParsedReply(s, parse))
      case Ok(v) => Ok(v)
      case Err(m) => Err(Rethrow(prefix, generic, ErrorValue(m)))
  }

  /** Every failure inside the `try`, a shape error or a transport `Error`, is
      re-thrown as the prefix followed by the original message. */
  lemma AttemptWrapsFailures<T>(prefix: string, generic: string, reply: Reply, parse: string -> Option<Json>,
                                check: Json -> Result<T>)
    ensures reply.Text? ==> var c := check(ParsedReply(reply.text, parse));
              Attempt(prefix, generic, reply, parse, check) == if c.Ok? then c else Err(prefix + c.message)
    ensures reply.Failed? && reply.thrown.ErrorValue? ==>
              Attempt(prefix, generic, reply, parse, check) == Err(prefix + reply.thrown.message)
    ensures reply == Failed(OtherValue) ==> Attempt(prefix, generic, reply, parse, check) == Err(generic)
  {
  }

  /** `suggestMealsFromIngredients`. The reply is an input whatever the path, and
      `called` is a flag the method itself sets on the path where the source calls
      `generateContent`: it records that path, not an observed call. The
      ingredients only enter the prompt. */
  method SuggestMealsFromIngredients(clientConfigured: bool, ingredients: string, reply: Reply,
                                     parse: string -> Option<Json>)
    returns (r: Result<seq<MealSuggestion>>, called: bool)
    ensures called == clientConfigured
    ensures !clientConfigured ==> r == Err(NotConfiguredMessage)
    ensures clientConfigured ==> r == Attempt(MealsPrefix, MealsGeneric, reply, parse, CheckMealList)
  {
    if !clientConfigured {
      return Err(NotConfiguredMessage), false;
    }
    called := true;
    match reply {
      case Failed(t) =>
        r := Err(Rethrow(MealsPrefix, MealsGeneric, t));
      case Text(responseText) =>
        var parsedData := ParseJsonFromMarkdown(responseText, parse);
        var checked := CheckMealList(parsedData);
        if checked.Err? {
          r := Err(Rethrow(MealsPrefix, MealsGeneric, ErrorValue(checked.message)));
        } else {
          r := checked;
        }
    }
  }

  /** `getDetailedRecipe`, with `called` as in `SuggestMealsFromIngredients`; the
      meal name only enters the prompt. */
  method GetDetailedRecipe(clientConfigured: bool, mealName: string, reply: Reply, parse: string -> Option<Json>)
    returns (r: Result<DetailedMealRecipe>, called: bool)
    ensures called == clientConfigured
    ensures !clientConfigured ==> r == Err(NotConfiguredMessage)
    ensures clientConfigured ==> r == Attempt(RecipePrefix, RecipeGeneric, reply, parse, CheckRecipe)
  {
    if !clientConfigured {
      return Err(NotConfiguredMessage), false;
    }
    called := true;
    match reply {
      case Failed(t) =>
        r := Err(Rethrow(RecipePrefix, RecipeGeneric, t));
      case Text(responseText) =>
        var parsedData := ParseJsonFromMarkdown(responseText, parse);
        var checked := CheckRecipe(parsedData);
        if checked.Err? {
          r := Err(Rethrow(RecipePrefix, RecipeGeneric, ErrorValue(checked.message)));
        } else {
          r := checked;
        }
    }
  }

  /** `findRecipeVideo`: the video id, or None for an explicit `null`; `called` is
      as in `SuggestMealsFromIngredients`. */
  method FindRecipeVideo(clientConfigured: bool, mealName: string, reply: Reply, parse: string -> Option<Json>)
    returns (r: Result<Option<string>>, called: bool)
    ensures called == clientConfigured
    ensures !clientConfigured ==> r == Err(NotConfiguredMessage)
    ensures clientConfigured ==> r == Attempt(VideoPrefix, VideoGeneric, reply, parse, CheckVideo)
  {
    if !clientConfigured {
      return Err(NotConfiguredMessage), false;
    }
    called := true;
    match reply {
      case Failed(t) =>
        r := Err(Rethrow(VideoPrefix, VideoGeneric, t));
      case Text(responseText) =>
        var parsedData := ParseJsonFromMarkdown(responseText, parse);
        var checked := CheckVideo(parsedData);
        if checked.Err? {
          r := Err(Rethrow(VideoPrefix, VideoGeneric, ErrorValue(checked.message)));
        } else {
          r := checked;
        }
    }
  }

  /** `suggestExercises`, with `called` as in `SuggestMealsFromIngredients`; the
      parameters only enter the prompt, through the labels above. */
  method SuggestExercises(clientConfigured: bool, params: SuggestExercisesParams, reply: Reply,
                          parse: string -> Option<Json>)
    returns (r: Result<seq<ExerciseSuggestion>>, called: bool)
    ensures called == clientConfigured
    ensures !clientConfigured ==> r == Err(NotConfiguredMessage)
    ensures clientConfigured ==> r == Attempt(ExercisesPrefix, ExercisesGeneric, reply, parse, CheckExerciseList)
  {
    if !clientConfigured {
      return Err(NotConfiguredMessage), false;
    }
    called := true;
    match reply {
      case Failed(t) =>
        r := Err(Rethrow(ExercisesPrefix, ExercisesGeneric, t));
      case Text(responseText) =>
        var parsedData := ParseJsonFromMarkdown(responseText, parse);
        var checked := CheckExerciseList(parsedData);
        if checked.Err? {
          r := Err(Rethrow(ExercisesPrefix, ExercisesGeneric, ErrorValue(checked.message)));
        } else {
          r := checked;
        }
    }
  }
}
