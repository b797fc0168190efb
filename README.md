# Calories-Calculator, modelled in Dafny

This project models the core of the Arabic calorie calculator *Calories-Calculator*. It covers four parts:

- **The metabolic calculator** (`CalorieService`, with its option tables in `Constants`). It computes the Mifflin–St Jeor basal metabolic rate (BMR) and the total daily energy expenditure (TDEE, the rate times the activity multiplier). It then splits the TDEE into grams: 40% carbohydrate, 30% protein and 30% fat, at 4, 4 and 9 kcal per gram, each count rounded on its own.
- **The AI gateway without its network call** (`GeminiService`). It covers:
  - pulling the JSON text out of the model's reply (trim, then strip one outer fenced block);
  - the shape check of each of the four operations on the parsed value;
  - normalising each exercise's `animationUrl`;
  - the prompt labels;
  - the "service not configured" guard and the error-wrapping policy.
- **The main component** (`App.AppComponent`). It is a class whose thirteen fields are the component's `useState` values. Each handler is a method. The asynchronous handlers are split into the part before the `await` (`Begin…`), the part after it (`Finish…`) and the whole (`Handle…`). The service outcome is an input.
- **The recipe modal** (`MealDetail.MealDetailModal`). It is a class with the modal's six state values, and its methods are the open effect and the video lookup.

Supporting modules:

- `Outcomes`: `Option`, `Result`, thrown values and settled promises.
- `JsString`: ECMAScript `trim`, `\s` and `\w` on `seq<char>`.
- `Json`: the value kinds of section 3 of RFC 8259, JavaScript property access (including the `TypeError` when reading from `null`) and truthiness.
- `Types`: the record shapes.

How each stateful handler is specified:

- A pure transition function over a snapshot datatype (`AppState`, `ModalState`) describes what the handler does.
- The method ensures `State() == F(old(State()), …)`.
- Lemmas prove the properties of `F`: the guards, exactly one of result and error set, the loading flag cleared, and the stored values.

JavaScript behaviour that the model keeps:

- Numbers are exact `real`s. `Math.round(x)` is `(x + 0.5).Floor`.
- `JSON.parse`, unary `+`, `parseInt` and `parseFloat` are parameters of type `string -> Option<…>`, where `None` stands for a parse failure or `NaN`.
- A `NaN` fails every comparison. So validation lets a non-empty, non-numeric field through (`NonNumericTextPasses`). For example, `+"12kg"` is `NaN` while `parseFloat("12kg")` is 12, so such a form is computed with a weight of 12.
  - The three inputs have `type="number"` (App.tsx:213, :232 and :243), and in a browser such an input delivers only `""` or a valid number. So "12kg" reaches the handler only when the handler is driven directly.
  - The form-error path is reachable from the page as well. An age of ".5" passes validation, because `+".5"` is 0.5. But `parseInt(".5")` is `NaN`, so the submit records only the form error and keeps the previous results. `UnparsableWeightKeepsResults` states this outcome for the weight.
- The fence pattern `/^```(\w*)?\s*\n?(.*?)\n?\s*```$/s` is not run as a regular expression. `FenceBody` states what it captures directly on strings.
  - One consequence: when no white space separates the opening fence from the body, the body's leading word characters are read as the tag (the `sep != [] || !IsWordChar(body[0])` condition of `FencedBlockRoundTrip`). So `` ```42``` `` goes to `JSON.parse` unchanged (`TagAbsorbsWordBodyExample`), `` ``` 42``` `` yields `42` (`SpacedNumberExample`), and `` ```123.5``` `` captures `.5` (`PartialAbsorbExample`).
- `filter` reads `item.mealName` on every item. So a `null` item makes the whole call fail with V8's `TypeError` message, prefixed like every other failure inside the `try`. The message is "Cannot read properties of null (reading 'mealName')". The `null` item is not dropped.

Three consequences of the code as written:

- The code has no separate malformed-JSON failure. A reply that does not parse becomes `null`, and `null` fails the shape check with that operation's format message.
- The gram counts are non-negative whenever the TDEE is (`MacrosAreRoundedShares`). More exactly, all three are non-negative if and only if the TDEE is at least −5 (`MacrosNonNegativeExactly`). Below −5 the carbohydrate count is the first to turn negative.
- A `null` list item makes the call fail; it is not dropped.

## Model

| member | source | states |
|---|---|---|
| CalorieService.CalculateBMR | services/calorieService.ts:11-17 | The Mifflin–St Jeor rate. `MaleMinusFemaleIs166` and `BmrSlopes` pin it: 166 between genders, and slopes +10/kg, +6.25/cm and −5/year. `BmrWorkedExample` gives a value. |
| CalorieService.CalculateTDEE | services/calorieService.ts:26-28 | The rate times the multiplier. `TdeeIsLinear` and `TdeeExceedsBmr` state its properties. |
| CalorieService.CalculateMacronutrients | services/calorieService.ts:39-48 | The 40/30/30 split. `MacrosAreRoundedShares` bounds each count within one half of its exact share, `MacrosAreMonotone` orders it, and `MacrosFor2000` gives a value. |
| CalorieService.Round | services/calorieService.ts:44-46 | `Math.round` returns an integer within one half of its argument. |
| CalorieService.RoundIsMonotone | services/calorieService.ts:44-46 | Rounding is monotone. |
| CalorieService.MaleMinusFemaleIs166 | services/calorieService.ts:13-16 | For equal age, weight and height, the MALE rate exceeds the FEMALE rate by exactly 166. |
| CalorieService.BmrWorkedExample | services/calorieService.ts:13 | Age 30, MALE, 70 kg and 175 cm give 1648.75. |
| CalorieService.BmrSlopes | services/calorieService.ts:13-16 | The rate changes by +10 per kg, +6.25 per cm and −5 per year. With the other inputs fixed, it is strictly monotone in each one. |
| CalorieService.TdeeIsLinear | services/calorieService.ts:26-28 | TDEE is linear in the multiplier and in the rate; doubling the multiplier doubles it. |
| CalorieService.TdeeExceedsBmr | services/calorieService.ts:26-28 | A multiplier above one makes TDEE exceed a positive BMR. |
| CalorieService.MacrosAreRoundedShares | services/calorieService.ts:39-48 | Each gram count lies within one half of its exact share (0.40·t/4, 0.30·t/4, 0.30·t/9). All three are non-negative when t ≥ 0. |
| CalorieService.MacrosNonNegativeExactly | services/calorieService.ts:39-48 | All three gram counts are non-negative if and only if the TDEE is at least −5; carbohydrate is the first to go negative. |
| CalorieService.MacrosFor2000 | services/calorieService.ts:39-48 | A TDEE of 2000 gives 150 g protein, 200 g carbohydrate and 67 g fat. |
| CalorieService.MacrosAreMonotone | services/calorieService.ts:44-46 | Each gram count is non-decreasing in TDEE. |
| Constants.FindActivityOption | App.tsx:82 | `find` returns None exactly when no entry has the level. Otherwise it returns the first entry that has it. |
| Constants.ActivityTableIsComplete | constants.ts:8-14 | The activity table has five entries, with no level twice, and the entry at each level's index has that level. So every lookup finds that entry. |
| Constants.FindsTableEntry | constants.ts:8-14 | Looking up any level returns the table entry at the level's index. |
| Constants.MultipliersIncrease | constants.ts:9-13 | The multipliers are 1.2, 1.375, 1.55, 1.725 and 1.9. All are above one, and they strictly increase in table order. |
| Constants.OptionTablesAreExact | constants.ts:3-21 | The gender options are MALE and FEMALE with their labels. The goal options are the four goal values, each once, in declaration order. |
| JsString.WhitespaceIsNotWord | services/geminiService.ts:16 | No character is both `\s` and `\w`. |
| JsString.Trim | services/geminiService.ts:17 | `trim()`'s result is empty, or neither starts nor ends with white space. |
| JsString.TrimIsSlice | services/geminiService.ts:17 | `trim()`'s result is a contiguous slice of its input, with only white space cut on either side. |
| JsString.TrimmedIsFixed | services/geminiService.ts:21 | A string without white space at either end is its own trim. |
| JsString.TrimIdempotent | services/geminiService.ts:297 | Trimming twice is trimming once. |
| JsString.TrimPadded | services/geminiService.ts:297 | Trimming white space padded around a core gives back the core. |
| JsString.TrimEmptyIffBlank | App.tsx:112 | `s.trim()` is empty exactly when `s` is all white space. |
| Json.Prop | services/geminiService.ts:80 | Reading `v.key` throws exactly when `v` is `null`. It is defined exactly when `v` is an object with that member. |
| Json.Truthy | services/geminiService.ts:78 | JavaScript truthiness, the `parsedData &&` test at :78, :144 and :200. The if-and-only-if ensures of `CheckMealList`, `CheckExerciseList`, `CheckRecipe` and `CheckVideo` prove that the test rejects `null` and passes every array and object. |
| Json.TypeofStringIsHasString | services/geminiService.ts:80 | `typeof v.key === 'string'` holds exactly when `v` is an object whose member `key` is a string. |
| GeminiService.FenceBody | services/geminiService.ts:16-20 | The pattern matches exactly the texts of at least six characters that begin and end with a fence. |
| GeminiService.ExtractJsonText | services/geminiService.ts:16-22 | The text handed to `JSON.parse`. `FencedBlockRoundTrip` proves that every padded, tagged fenced block yields its body. `UnfencedReplyIsTrimmed` proves that any other reply is only trimmed. |
| GeminiService.ParsedReply | services/geminiService.ts:15-30 | The value `parseJsonFromMarkdown` returns: the parse of `ExtractJsonText`, or `null` when parsing fails. The `*ResultMeaning` lemmas prove that a failed parse ends in the operation's prefixed format message. |
| GeminiService.ParseJsonFromMarkdown | services/geminiService.ts:15-30 | The method computes `ParsedReply`. Its reassignments of `jsonStr` produce exactly `ExtractJsonText`. |
| GeminiService.FencedBlockRoundTrip | services/geminiService.ts:15-22 | The function returns the body of a fenced block with any tag, padding and whitespace around it. This holds for every non-empty body that has no white space at its ends and that the tag cannot absorb. |
| GeminiService.TaggedBodyIsCaptured | services/geminiService.ts:16 | A tag followed by a separator, the body and trailing white space captures exactly the body. |
| GeminiService.PaddedBlockYieldsBody | services/geminiService.ts:17-21 | White space around a fenced text is trimmed before the pattern is tried. |
| GeminiService.UnfencedReplyIsTrimmed | services/geminiService.ts:17-25 | A reply whose trimmed text is not fenced is parsed after trimming only. |
| GeminiService.TaggedBlockExample | services/geminiService.ts:15-25 | ```` ```json\n[1]\n``` ```` yields `[1]`. |
| GeminiService.BareValueExample | services/geminiService.ts:17-25 | `" [1]\n"` yields `[1]`. |
| GeminiService.TagAbsorbsWordBodyExample | services/geminiService.ts:16-22 | `` ```42``` `` is handed to `JSON.parse` as it is. |
| GeminiService.SpacedNumberExample | services/geminiService.ts:16-22 | With a space after the fence the tag is empty, and `` ``` 42``` `` captures `42`. |
| GeminiService.PartialAbsorbExample | services/geminiService.ts:16-22 | A tag absorbs only the leading word characters: `` ```123.5``` `` captures `.5`. |
| GeminiService.WithStrings | services/geminiService.ts:79-81 | The kept items are exactly the items whose two members are strings, and there are no more of them than there were items. |
| GeminiService.WithStringsKeepsAllValid | services/geminiService.ts:79-81 | A list of valid items is kept whole. |
| GeminiService.FilterWithStrings | services/geminiService.ts:79-81 | The `filter` fails exactly when some item is `null`, with the `TypeError` for the first key. Otherwise it returns the kept items. |
| GeminiService.CheckMealList | services/geminiService.ts:78-90 | The check succeeds exactly for an array with no `null` item that is empty or has a valid item. The result is then the valid items, unchanged and in order. Each failure has its own message: not an array, a `null` item, or no valid item. |
| GeminiService.MealFilterExample | services/geminiService.ts:78-86 | An item without `description` is dropped and the valid item kept. |
| GeminiService.MealShapeExamples | services/geminiService.ts:82-86 | A non-empty array with no valid item fails; an empty array gives an empty list. |
| GeminiService.NormalizedAnimationUrl | services/geminiService.ts:297 | The stored URL is `null` or a non-empty trimmed string. |
| GeminiService.NormalizeExercise | services/geminiService.ts:295-298 | The spread keeps every other member, and the stored `animationUrl` is `NormalizedAnimationUrl` of the input's member. |
| GeminiService.NormalizeIsIdempotent | services/geminiService.ts:295-298 | Normalising twice is normalising once. |
| GeminiService.PaddedUrlIsTrimmed | services/geminiService.ts:297 | A URL padded with white space is stored without the padding. |
| GeminiService.UnusableUrlIsNull | services/geminiService.ts:297 | A blank URL, a missing member and a non-string value are all stored as `null`. |
| GeminiService.NormalizeAll | services/geminiService.ts:295-298 | The `map` keeps the length, and item k is the normalised item k. |
| GeminiService.CheckExerciseList | services/geminiService.ts:286-302 | The meal rules apply to `exerciseName`/`description`. Item k of the result is valid item k, normalised. Each failure has its own message. |
| GeminiService.EveryIngredient | services/geminiService.ts:147 | `every` is true exactly when every item has string `name` and `quantity`. It throws exactly when a `null` comes before any failing item. |
| GeminiService.RecipeOf | services/geminiService.ts:151 | The recipe has the value's name, its ingredients and its steps, in order, and no video id. |
| GeminiService.CheckRecipe | services/geminiService.ts:144-155 | The check succeeds exactly for the recipe shape and then returns the recipe that value denotes. Otherwise it fails with the shape message, or with the `TypeError` exactly when `every` reaches a `null` ingredient. |
| GeminiService.CheckVideo | services/geminiService.ts:200-205 | The check succeeds exactly when `youtubeVideoId` is a string or `null`. The id is present exactly when it is a string, and then it is that string. |
| GeminiService.VideoExamples | services/geminiService.ts:200-205 | `null` gives no id; `42` fails. |
| GeminiService.GenderLabel | services/geminiService.ts:223 | The prompt spells out the gender literally. `GenderLabelMatchesOptions` proves those literals equal the options table's labels. |
| GeminiService.GenderLabelMatchesOptions | services/geminiService.ts:223 | The gender label equals the label of the gender options table. |
| GeminiService.ActivityLevelLabel | services/geminiService.ts:224 | The activity label is the table's label for the level; the fallback is never taken. |
| GeminiService.ExerciseGoalLabel | services/geminiService.ts:226-233 | The `switch` writes its Arabic labels literally. For each of the four goal values, the label is proved equal to the goal table's label for that value. Any other text gets the generic phrase. |
| GeminiService.Attempt | services/geminiService.ts:66-97 | The `try`/`catch` of an operation, with `Rethrow` as its `catch` (:91-97). `MealsResultMeaning`, `ExercisesResultMeaning`, `RecipeResultMeaning` and `VideoResultMeaning` each prove the full policy for their check. A failed check is re-thrown as the prefix plus the check's message, and a failed parse becomes the prefixed format message. A transport `Error` becomes the prefix plus its message, any other thrown value the generic message, and success passes the checked value through. |
| GeminiService.SuggestMealsFromIngredients | services/geminiService.ts:32-97 | Without a client the call fails with the unprefixed message and `called`, the flag the method sets on the path that calls `generateContent`, stays false. Otherwise the result is the wrapped meal check of the parsed reply. |
| GeminiService.GetDetailedRecipe | services/geminiService.ts:100-162 | The same policy, with the recipe check. |
| GeminiService.FindRecipeVideo | services/geminiService.ts:165-212 | The same policy, with the video check. |
| GeminiService.SuggestExercises | services/geminiService.ts:215-309 | The same policy, with the exercise check. |
| App.WithInput | App.tsx:47 | Only the named text field changes. |
| App.ClearedError | App.tsx:48-50 | The key set stays the same. Only the named entry is blanked, and only when it is shown. |
| App.ClearedMessage | App.tsx:106-108 | A shown message is removed; an absent or empty one is kept. |
| App.ValidationErrors | App.tsx:62-71 | The map has a key exactly for each invalid field (empty, at most 0, or above 120, 500 or 300), with that field's message, and no other key. |
| App.ValidFormMeansInRange | App.tsx:61-74 | The form is valid exactly when each field is non-empty and is either not a number or a number in its range. |
| App.Calculate | App.tsx:79-93 | Results exist exactly when the three numbers parse. They are the calculator applied to those numbers and the table multiplier of the level. |
| App.ResultsFor | App.tsx:85-93 | The record stored by `setResults`: the rate, the TDEE and the split of that TDEE. `Calculate` is proved to use it with the parsed numbers and the table multiplier. The calculator lemmas give its properties. |
| App.SubmitState | App.tsx:76-102 | The whole submit handler. `SubmitOutcomes` and `UnparsableWeightKeepsResults` prove its outcomes. `AppComponent.HandleSubmit` is proved to compute it. |
| App.SubmitOutcomes | App.tsx:76-102 | An invalid form changes only the error map. A valid form whose numbers fail to parse adds only the form error. Otherwise the results are stored and the exercise section is reset. |
| App.NonNumericTextPasses | App.tsx:63-70 | A non-empty, non-numeric text passes its field's test. |
| App.UnparsableWeightKeepsResults | App.tsx:80-100 | A valid form whose weight fails `parseFloat` records only the form error and keeps the old results. |
| App.MealsResultMeaning | services/geminiService.ts:32-97 | The meal service fails with the unprefixed message without a client. A transport `Error` gives the prefix plus its message, and another thrown value the generic message. A failed check gives the prefix plus the check's message, and an unparsable reply the prefixed not-an-array message. When it answers, the reply parsed to an array and the answer is that array's valid items. |
| App.WithMealsOutcome | App.tsx:119-133 | The meal handler after its `await`, `finally` included, with `MessageOr` as the `catch`. `SuggestMealsSettles` proves that loading ends false, exactly one of meals and error is set, and a rejection shows its message. `FinishSuggestMeals` is proved to compute it. |
| App.SuggestMealsState | App.tsx:111-134 | The whole meal handler. `SuggestMealsGuard` and `SuggestMealsSettles` prove its outcomes. `AppComponent.HandleSuggestMeals` is proved to compute it. |
| App.SuggestMealsGuard | App.tsx:111-116 | Blank ingredients only set the error and clear the suggestions. The form, results and exercises are never touched. |
| App.SuggestMealsSettles | App.tsx:117-134 | Past the guard, loading ends false and exactly one of suggestions and error is set. A rejection shows its message and an empty answer the "none found" message. A non-empty answer is stored. |
| App.ExercisesResultMeaning | services/geminiService.ts:215-309 | The exercise service fails like the meal service, with its own prefix and messages. A failed check and an unparsable reply are included. When it answers, the answer is the valid items of the parsed array, in order, each normalised. |
| App.WithExercisesOutcome | App.tsx:181-193 | The exercise handler after its `await`, `finally` included, with `MessageOr` as the `catch`. `SuggestExercisesSettles` proves its outcomes. `FinishSuggestExercises` is proved to compute it. |
| App.SuggestExercisesState | App.tsx:155-194 | The whole exercise handler. `SuggestExercisesGuards` and `SuggestExercisesSettles` prove its outcomes. `AppComponent.HandleSuggestExercises` is proved to compute it. |
| App.SuggestExercisesGuards | App.tsx:155-163 | Missing results, a zero TDEE or no goal only set the error. The form, results and meals are never touched. |
| App.SuggestExercisesSettles | App.tsx:165-193 | Past the guards, loading ends false and exactly one of suggestions and error is set. Each of an unparsable age, a rejection and an empty answer shows its own message. A non-empty answer is stored. |
| App.ModalMealName | App.tsx:419-422 | The modal gets a name exactly when a meal with a non-empty name is selected. `AppComponent.ModalProps` passes it to the modal together with `isModalOpen`. |
| App.AppComponent.constructor | App.tsx:18-42 | The constructor sets the initial state, with nothing loading. |
| App.AppComponent.HandleInputChange | App.tsx:45-51 | The handler sets only the named field and clears only that field's error, when it is shown. |
| App.AppComponent.HandleSelectChange | App.tsx:53-59 | The handler sets only the chosen select's field and clears only its error, when it is shown. |
| App.AppComponent.ValidateForm | App.tsx:61-74 | The handler replaces the error map with the validation map. It reports valid exactly when that map is empty. |
| App.AppComponent.HandleSubmit | App.tsx:76-102 | The new state is `SubmitState` of the old one. |
| App.AppComponent.StoreCalculation | App.tsx:83-100 | Results are stored and the exercise section reset, or the form error is added. |
| App.AppComponent.HandleIngredientsChange | App.tsx:104-109 | The handler sets the ingredients and removes a shown meal error. |
| App.AppComponent.BeginSuggestMeals | App.tsx:111-118 | The request goes out exactly when the ingredients are not blank. The guard state and the started state are as in the handler. |
| App.AppComponent.FinishSuggestMeals | App.tsx:119-133 | The new state is the meal outcome applied to the old state. |
| App.AppComponent.HandleSuggestMeals | App.tsx:111-134 | The new state is `SuggestMealsState` of the old state and the service's result. |
| App.AppComponent.HandleOpenMealModal | App.tsx:136-139 | The handler selects the meal and opens the modal; nothing else changes. |
| App.AppComponent.HandleCloseMealModal | App.tsx:141-144 | The handler closes the modal and clears the selection; nothing else changes. |
| App.AppComponent.HandleExerciseGoalChange | App.tsx:147-153 | The handler sets the goal, removes a shown error and clears the suggestions. |
| App.AppComponent.BeginSuggestExercises | App.tsx:155-180 | Parameters go out exactly when there are results with a non-zero TDEE, a goal and a parsable age. Otherwise the state is the handler's final state, whatever the service would have said. |
| App.AppComponent.FinishSuggestExercises | App.tsx:181-193 | The new state is the exercise outcome applied to the old state. |
| App.AppComponent.HandleSuggestExercises | App.tsx:155-194 | The new state is `SuggestExercisesState` of the old state and the service's result. |
| MealDetail.RecipeResultMeaning | services/geminiService.ts:100-162 | The recipe service answers exactly for a configured client whose reply parses to the recipe shape, and the answer is the recipe that value denotes. Its failures are wrapped like the meal service's: a failed check gives the prefix plus the check's message, and an unparsable reply the prefixed shape message. |
| MealDetail.WithRecipeOutcome | components/MealDetailModal.tsx:38-46 | The recipe fetch after its `await`, `finally` included, with `MessageOr` as the `catch`. `OpenOutcomes` proves that loading ends false and exactly one of recipe and error is set. `FinishFetchRecipe` is proved to compute it. |
| MealDetail.OpenState | components/MealDetailModal.tsx:31-56 | The open effect. `OpenOutcomes` proves its outcomes. `MealDetailModal.HandleOpen` is proved to compute it. |
| MealDetail.OpenOutcomes | components/MealDetailModal.tsx:31-56 | Closed, or without a name, the effect changes nothing. Opened on a meal, nothing of the previous meal survives. Loading ends false, and exactly one of recipe and error is set, from the service's answer. |
| MealDetail.VideoResultMeaning | services/geminiService.ts:165-212 | An id comes only from a reply whose parsed `youtubeVideoId` is a string, and it is that string. Failures are wrapped as for the other services, and an unparsable reply gives the prefixed shape message. |
| MealDetail.WithVideoOutcome | components/MealDetailModal.tsx:64-76 | The video lookup after its `await`, with `MessageOr` as the `catch`; only a non-empty id counts as found. `FindVideoOutcomes` proves its outcomes. `FinishFindVideo` is proved to compute it. |
| Outcomes.MessageOr | App.tsx:129 | `error instanceof Error ? error.message : fallback`, also at App.tsx:189 and components/MealDetailModal.tsx:43 and :73. `SuggestMealsSettles`, `SuggestExercisesSettles`, `OpenOutcomes` and `FindVideoOutcomes` prove that a service rejection shows the service's own message. |
| MealDetail.FindVideoState | components/MealDetailModal.tsx:59-77 | The video lookup. `FindVideoOutcomes` and `FindVideoForgetsPreviousLookup` prove its outcomes. `MealDetailModal.HandleFindVideo` is proved to compute it. |
| MealDetail.FindVideoOutcomes | components/MealDetailModal.tsx:59-77 | Without a named recipe the handler changes nothing. Otherwise the recipe part is kept and loading ends false. Exactly one of id and error is set: a found non-empty id, the "no video" message for `null` or an empty id, or the thrown message. |
| MealDetail.FindVideoForgetsPreviousLookup | components/MealDetailModal.tsx:61-63 | A second lookup's state does not depend on the first lookup. |
| MealDetail.MealDetailModal.constructor | components/MealDetailModal.tsx:14-20 | All six values start cleared. |
| MealDetail.MealDetailModal.ResetState | components/MealDetailModal.tsx:22-29 | All six values are cleared. |
| MealDetail.MealDetailModal.BeginOpen | components/MealDetailModal.tsx:32-37 | A fetch starts exactly when the modal is open on a non-empty name. It starts from cleared state with the recipe loading. |
| MealDetail.MealDetailModal.FinishFetchRecipe | components/MealDetailModal.tsx:38-46 | The new state is the recipe outcome applied to the old state. |
| MealDetail.MealDetailModal.HandleOpen | components/MealDetailModal.tsx:31-56 | The new state is `OpenState` of the old state and the service's result. |
| MealDetail.MealDetailModal.BeginFindVideo | components/MealDetailModal.tsx:60-63 | A lookup starts exactly for a recipe with a name. It clears the id and error and sets loading. |
| MealDetail.MealDetailModal.FinishFindVideo | components/MealDetailModal.tsx:64-76 | The new state is the video outcome applied to the old state. |
| MealDetail.MealDetailModal.HandleFindVideo | components/MealDetailModal.tsx:59-77 | The new state is `FindVideoState` of the old state and the service's result. |

## Left out

- The `GoogleGenAI` client, the `API_KEY` read, `generateContent` and the model ids are a foreign network API. The reply text, or what the call threw, is an input (`Reply`), and whether a client exists is a boolean.
- A reply whose `text` is `undefined` is not modelled: the reply is always a string or a thrown value.
- The prompt texts are left out, including the `Math.round(tdee)` inside the exercise prompt. The labels the prompts use are kept.
- IEEE-754 arithmetic is left out: numbers are exact reals, so rounding error, `Infinity` and `-0` do not arise.
- `JSON.parse`, unary `+`, `parseInt` and `parseFloat` are abstract partial functions passed as parameters; their parsing rules are not modelled.
- Member order in objects, and so the key order of `{ ...ex, animationUrl }`, is not modelled, because objects are maps.
- The recipe check's extra members are dropped: the model's recipe keeps only name, ingredients and steps. The source returns the parsed object as it is.
- Promise scheduling and interleaving are left out. Each asynchronous handler runs to completion, and a later handler cannot run between its `Begin` and `Finish` halves.
- `useEffect`'s dependency tracking and cleanup are left out, along with `document.body.classList`, rendering, `toLocaleString` and `console` logging.
- The presentational components (Button, Input, Select, TextArea, LoadingSpinner, ResultCard, InfoTooltip, MealSuggestionCard, ExerciseSuggestionCard) are view code and are left out.
- App.AppComponent.HandleSelectChange: the select's value is taken as one of the enumeration's values. A raw string outside the enumeration, which the source's cast would let through, is not modelled.
