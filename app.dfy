/** The main screen's state and its event handlers. Each `useState` variable is a
    field of `AppComponent`; each handler is a method that sets those fields in
    the order the source's setters run. An `async` handler is split at its
    `await`: `Begin…` runs up to the service call and `Finish…` takes how the
    call settled. `Handle…` runs both around the modelled service. Number
    coercions (`+s`, `parseInt`, `parseFloat`) are inputs. */
module App {
  import opened Outcomes
  import opened JsString
  import opened Json
  import opened Types
  import opened Constants
  import opened CalorieService
  import opened GeminiService

  const AgeErrorMessage: string := "أدخل عمرًا صالحًا (١-١٢٠)."
  const WeightErrorMessage: string := "أدخل وزنًا صالحًا (١-٥٠٠ كجم)."
  const HeightErrorMessage: string := "أدخل طولًا صالحًا (١-٣٠٠ سم)."
  const FormInvalidMessage: string := "بيانات غير صالحة للحساب."
  const EnterIngredientsMessage: string := "الرجاء إدخال المكونات المتوفرة لديك."
  const NoMealsFoundMessage: string := "لم يتم العثور على اقتراحات وجبات بناءً على المكونات المقدمة. حاول تعديل المدخلات."
  const MealsFailedMessage: string := "حدث خطأ أثناء محاولة اقتراح الوجبات. يرجى المحاولة مرة أخرى."
  const CalculateFirstMessage: string := "يرجى حساب السعرات الحرارية والمغذيات أولاً."
  const ChooseGoalMessage: string := "الرجاء اختيار هدف التمرين أولاً."
  const InvalidAgeMessage: string := "العمر المدخل غير صالح."
  const NoExercisesFoundMessage: string := "لم يتم العثور على اقتراحات تمارين بناءً على مدخلاتك. حاول تعديل الهدف أو المحاولة لاحقاً."
  const ExercisesFailedMessage: string := "حدث خطأ أثناء محاولة اقتراح التمارين. يرجى المحاولة مرة أخرى."

  /** JavaScript's string-to-number coercions; None stands for `NaN`. */
  datatype Coercions = Coercions(
    toNumber: string -> Option<real>,
    parseInt: string -> Option<int>,
    parseFloat: string -> Option<real>)

  /** The values of all the screen's state variables at one moment. */
  datatype AppState = AppState(
    userData: UserData,
    results: Option<CalculationResults>,
    errors: map<string, string>,
    ingredients: string,
    suggestedMeals: Option<seq<MealSuggestion>>,
    isSuggestingMeals: bool,
    mealSuggestionError: Option<string>,
    selectedMealForDetail: Option<MealSuggestion>,
    isModalOpen: bool,
    exerciseGoal: string,
    suggestedExercises: Option<seq<ExerciseSuggestion>>,
    isSuggestingExercises: bool,
    exerciseSuggestionError: Option<string>)

  const InitialState: AppState := AppState(
    UserData("", MALE, "", "", SEDENTARY), None, map[], "", None, false, None, None, false, "", None, false, None)

  // ---------------------------------------------------------------------------
  // The form

  datatype InputField = AgeField | WeightField | HeightField

  /** The `name` attribute of each text input: the key of its error. */
  function InputName(field: InputField): string
  {
    match field
    case AgeField => "age"
    case WeightField => "weightKg"
    case HeightField => "heightCm"
  }

  /** `{ ...prev, [name]: value }` for a text input. */
  function WithInput(data: UserData, field: InputField, value: string): (r: UserData)
    ensures r.gender == data.gender && r.activityLevel == data.activityLevel
    ensures r.age == (if field == AgeField then value else data.age)
    ensures r.weightKg == (if field == WeightField then value else data.weightKg)
    ensures r.heightCm == (if field == HeightField then value else data.heightCm)
  {
    match field
    case AgeField => data.(age := value)
    case WeightField => data.(weightKg := value)
    case HeightField => data.(heightCm := value)
  }

  /** The choice made in one of the two selects. */
  datatype SelectChoice = GenderChoice(gender: Gender) | ActivityChoice(level: ActivityLevelName)

  function SelectName(choice: SelectChoice): string
  {
    match choice
    case GenderChoice(_) => "gender"
    case ActivityChoice(_) => "activityLevel"
  }

  /** `if (errors[name]) setErrors(prev => ({ ...prev, [name]: '' }))`: only an
      error that is shown is blanked; every other entry is kept. */
  function ClearedError(errors: map<string, string>, name: string): (r: map<string, string>)
    ensures r.Keys == errors.Keys
    ensures forall k :: k in errors && k != name ==> r[k] == errors[k]
    ensures name in errors ==> r[name] == ""
  {
    if name in errors && errors[name] != "" then errors[name := ""] else errors
  }

  /** `if (error) setError(null)`: a message that is shown is removed; an absent or empty one is kept. */
  function ClearedMessage(error: Option<string>): (r: Option<string>)
    ensures r == None || r == Some("")
    ensures error.Some? && error.value != "" ==> r == None
    ensures error == None || error == Some("") ==> r == error
  {
    if error.Some? && error.value != "" then None else error
  }

  /** The test of one numeric field: empty, or a number at most zero or above
      `max`. A text that is not a number (`NaN`) fails every comparison and so passes. */
  predicate FieldInvalid(s: string, max: real, toNumber: string -> Option<real>)
  {
    s == "" || (toNumber(s).Some? && (toNumber(s).value <= 0.0 || toNumber(s).value > max))
  }

  /** The `newErrors` map `validateForm` builds: one entry per invalid field. */
  function ValidationErrors(data: UserData, toNumber: string -> Option<real>): (e: map<string, string>)
    ensures "age" in e <==> FieldInvalid(data.age, 120.0, toNumber)
    ensures "weightKg" in e <==> FieldInvalid(data.weightKg, 500.0, toNumber)
    ensures "heightCm" in e <==> FieldInvalid(data.heightCm, 300.0, toNumber)
    ensures e.Keys <= {"age", "weightKg", "heightCm"}
    ensures "age" in e ==> e["age"] == AgeErrorMessage
    ensures "weightKg" in e ==> e["weightKg"] == WeightErrorMessage
    ensures "heightCm" in e ==> e["heightCm"] == HeightErrorMessage
  {
    var withAge: map<string, string> := if FieldInvalid(data.age, 120.0, toNumber) then map["age" := AgeErrorMessage] else map[];
    var withWeight := if FieldInvalid(data.weightKg, 500.0, toNumber) then withAge["weightKg" := WeightErrorMessage] else withAge;
    if FieldInvalid(data.heightCm, 300.0, toNumber) then withWeight["heightCm" := HeightErrorMessage] else withWeight
  }

  /** The form is valid exactly when each field is non-empty and is either not a
      number or a number in its range. */
  lemma ValidFormMeansInRange(data: UserData, toNumber: string -> Option<real>)
    ensures ValidationErrors(data, toNumber) == map[] <==>
              && data.age != "" && (toNumber(data.age).None? || 0.0 < toNumber(data.age).value <= 120.0)
              && data.weightKg != "" && (toNumber(data.weightKg).None? || 0.0 < toNumber(data.weightKg).value <= 500.0)
              && data.heightCm != "" && (toNumber(data.heightCm).None? || 0.0 < toNumber(data.heightCm).value <= 300.0)
  {
    var e := ValidationErrors(data, toNumber);
    if e != map[] {
      var k :| k in e;
    }
  }

  /** The results `handleSubmit` computes once validation passed, or None when
      one of the parsed numbers is `NaN`. The activity lookup always succeeds. */
  function Calculate(data: UserData, coerce: Coercions): (r: Option<CalculationResults>)
    ensures r.Some? <==> && coerce.parseInt(data.age).Some?
                         && coerce.parseFloat(data.weightKg).Some? && coerce.parseFloat(data.heightCm).Some?
    ensures r.Some? ==>
              r.value == ResultsFor(CalculationData(coerce.parseInt(data.age).value, data.gender,
                                                    coerce.parseFloat(data.weightKg).value,
                                                    coerce.parseFloat(data.heightCm).value),
                                    ActivityLevelOptions[ActivityIndex(data.activityLevel)].multiplier)
  {
    FindsTableEntry(data.activityLevel);
    var ageNum := coerce.parseInt(data.age);
    var weightNum := coerce.parseFloat(data.weightKg);
    var heightNum := coerce.parseFloat(data.heightCm);
    var activityOption := FindActivityOption(ActivityLevelOptions, data.activityLevel);
    if activityOption.Some? && ageNum.Some? && weightNum.Some? && heightNum.Some? then
      Some(ResultsFor(CalculationData(ageNum.value, data.gender, weightNum.value, heightNum.value),
                      activityOption.value.multiplier))
    else None
  }

  /** The record `setResults` stores: the rate, the rate times the multiplier, and
      the macronutrient split of that total. */
  function ResultsFor(data: CalculationData, multiplier: real): CalculationResults
  {
    var bmr := CalculateBMR(data);
    var tdee := CalculateTDEE(bmr, multiplier);
    var macros := CalculateMacronutrients(tdee);
    CalculationResults(bmr, tdee, macros.proteinGrams, macros.carbsGrams, macros.fatsGrams)
  }

  /** The whole of `handleSubmit`. */
  function SubmitState(s: AppState, coerce: Coercions): AppState
  {
    var validated := ValidationErrors(s.userData, coerce.toNumber);
    if validated != map[] then s.(errors := validated)
    else
      match Calculate(s.userData, coerce)
      case None => s.(errors := validated["form" := FormInvalidMessage])
      case Some(r) => s.(errors := validated, results := Some(r), suggestedExercises := None,
                         exerciseSuggestionError := None, exerciseGoal := "")
  }

  /** `SubmitState` with the validated map written out in each case: once
      validation passed the map is empty. */
  lemma SubmitStateByCases(s: AppState, coerce: Coercions)
    ensures var e := ValidationErrors(s.userData, coerce.toNumber);
            SubmitState(s, coerce) ==
              if e != map[] then s.(errors := e)
              else match Calculate(s.userData, coerce)
                   case None => s.(errors := map["form" := FormInvalidMessage])
                   case Some(r) => s.(errors := map[], results := Some(r), suggestedExercises := None,
                                      exerciseSuggestionError := None, exerciseGoal := "")
  {
  }

  /** A submit either stores the calculator's results and resets the exercise
      section, or changes only the error map: an invalid form keeps only the
      field errors, and a valid form whose numbers do not parse keeps only the form error. */
  lemma SubmitOutcomes(s: AppState, coerce: Coercions)
    ensures var t := SubmitState(s, coerce);
            var validated := ValidationErrors(s.userData, coerce.toNumber);
            var computed := Calculate(s.userData, coerce);
            && (validated != map[] ==> t == s.(errors := validated))
            && (validated == map[] && computed.None? ==> t == s.(errors := map["form" := FormInvalidMessage]))
            && (validated == map[] && computed.Some? ==>
                  && t.results == computed && t.errors == map[]
                  && t.suggestedExercises == None && t.exerciseSuggestionError == None && t.exerciseGoal == "")
            && t.userData == s.userData && t.ingredients == s.ingredients && t.suggestedMeals == s.suggestedMeals
            && t.isSuggestingMeals == s.isSuggestingMeals && t.isSuggestingExercises == s.isSuggestingExercises
  {
  }

  /** A non-empty text that is not a number passes its field's test, whatever the bound. */
  lemma NonNumericTextPasses(text: string, max: real, toNumber: string -> Option<real>)
    requires text != "" && toNumber(text).None?
    ensures !FieldInvalid(text, max, toNumber)
  {
  }

  /** `+"12kg"` is `NaN`, so such a field passes validation, while
      `parseFloat("12kg")` is 12 and the calculation runs on it. When the parse
      fails too, the submit records only the form error and keeps the old results. */
  lemma UnparsableWeightKeepsResults(s: AppState, coerce: Coercions)
    requires ValidationErrors(s.userData, coerce.toNumber) == map[]
    requires coerce.parseFloat(s.userData.weightKg).None?
    ensures SubmitState(s, coerce) == s.(errors := map["form" := FormInvalidMessage])
    ensures SubmitState(s, coerce).results == s.results
  {
  }

  // ---------------------------------------------------------------------------
  // The meal suggester

  /** What `suggestMealsFromIngredients` settles with. */
  function MealsResult(clientConfigured: bool, reply: Reply, parse: string -> Option<Json>): Result<seq<MealSuggestion>>
  {
    if clientConfigured then Attempt(MealsPrefix, MealsGeneric, reply, parse, CheckMealList) else Err(NotConfiguredMessage)
  }

  /** The part of `handleSuggestMeals` after the `await`, `finally` included. */
  function WithMealsOutcome(s: AppState, outcome: Settled<seq<MealSuggestion>>): AppState
  {
    match outcome
    case Fulfilled(meals) =>
      if |meals| > 0 then s.(suggestedMeals := Some(meals), isSuggestingMeals := false)
      else s.(mealSuggestionError := Some(NoMealsFoundMessage), isSuggestingMeals := false)
    case Rejected(t) => s.(mealSuggestionError := Some(MessageOr(t, MealsFailedMessage)), isSuggestingMeals := false)
  }

  /** A missing client rejects with the unprefixed message, a transport `Error`
      with the prefixed one; an answer comes only from a reply that parses to an
      array, and is then the list of that array's valid items. */
  lemma MealsResultMeaning(clientConfigured: bool, reply: Reply, parse: string -> Option<Json>)
    ensures var r := MealsResult(clientConfigured, reply, parse);
            && (!clientConfigured ==> r == Err(NotConfiguredMessage))
            && (clientConfigured && reply.Failed? && reply.thrown.ErrorValue? ==>
                  r == Err(MealsPrefix + reply.thrown.message))
            && (clientConfigured && reply == Failed(OtherValue) ==> r == Err(MealsGeneric))
            && (clientConfigured && reply.Text? && CheckMealList(ParsedReply(reply.text, parse)).Err? ==>
                  r == Err(MealsPrefix + CheckMealList(ParsedReply(reply.text, parse)).message))
            && (clientConfigured && reply.Text? && parse(ExtractJsonText(reply.text)).None? ==>
                  r == Err(MealsPrefix + MealsNotArrayMessage))
            && (r.Ok? ==>
                  && clientConfigured && reply.Text? && ParsedReply(reply.text, parse).JArray?
                  && r.value == WithStrings(ParsedReply(reply.text, parse).items, "mealName", "description"))
  {
    AttemptWrapsFailures(MealsPrefix, MealsGeneric, reply, parse, CheckMealList);
  }

  /** The whole of `handleSuggestMeals`, given what the service call settles with
      (consulted only past the guard). */
  function SuggestMealsState(s: AppState, service: Result<seq<MealSuggestion>>): AppState
  {
    if IsBlank(s.ingredients) then s.(mealSuggestionError := Some(EnterIngredientsMessage), suggestedMeals := None)
    else
      WithMealsOutcome(s.(isSuggestingMeals := true, mealSuggestionError := None, suggestedMeals := None),
                       Settle(service))
  }

  /** A blank list of ingredients only sets the error and clears the
      suggestions; the handler never touches the form, the results or the exercises. */
  lemma SuggestMealsGuard(s: AppState, service: Result<seq<MealSuggestion>>)
    ensures var t := SuggestMealsState(s, service);
            && (IsBlank(s.ingredients) ==> t == s.(mealSuggestionError := Some(EnterIngredientsMessage), suggestedMeals := None))
            && t.userData == s.userData && t.results == s.results && t.suggestedExercises == s.suggestedExercises
  {
  }

  /** Past the guard, the loading flag ends false and exactly one of suggestions
      and error is set: a rejection shows its own message, an empty answer the
      "none found" message, and a non-empty answer is stored as it is. */
  lemma SuggestMealsSettles(s: AppState, service: Result<seq<MealSuggestion>>)
    requires !IsBlank(s.ingredients)
    ensures var t := SuggestMealsState(s, service);
            && !t.isSuggestingMeals
            && (t.mealSuggestionError.Some? <==> t.suggestedMeals.None?)
            && (service.Err? ==> t.mealSuggestionError == Some(service.message))
            && (service == Ok([]) ==> t.mealSuggestionError == Some(NoMealsFoundMessage))
            && (t.suggestedMeals.Some? <==> service.Ok? && |service.value| > 0)
            && (t.suggestedMeals.Some? ==> t.suggestedMeals.value == service.value)
  {
  }

  // ---------------------------------------------------------------------------
  // The exercise suggester

  /** What `suggestExercises` settles with. */
  function ExercisesResult(clientConfigured: bool, reply: Reply, parse: string -> Option<Json>)
    : Result<seq<ExerciseSuggestion>>
  {
    if clientConfigured then Attempt(ExercisesPrefix, ExercisesGeneric, reply, parse, CheckExerciseList)
    else Err(NotConfiguredMessage)
  }

  /** The parameters passed to the service, from the state and the parsed age. */
  function ExerciseParams(s: AppState, age: int): (p: SuggestExercisesParams)
    requires s.results.Some?
  {
    SuggestExercisesParams(s.results.value.tdee, s.userData.gender, age, s.userData.activityLevel, s.exerciseGoal)
  }

  /** The part of `handleSuggestExercises` after the `await`, `finally` included. */
  function WithExercisesOutcome(s: AppState, outcome: Settled<seq<ExerciseSuggestion>>): AppState
  {
    match outcome
    case Fulfilled(exercises) =>
      if |exercises| > 0 then s.(suggestedExercises := Some(exercises), isSuggestingExercises := false)
      else s.(exerciseSuggestionError := Some(NoExercisesFoundMessage), isSuggestingExercises := false)
    case Rejected(t) =>
      s.(exerciseSuggestionError := Some(MessageOr(t, ExercisesFailedMessage)), isSuggestingExercises := false)
  }

  /** `!results || !results.tdee`: no results, or a zero `tdee`. */
  predicate NoCalculation(s: AppState)
  {
    s.results.None? || s.results.value.tdee == 0.0
  }

  /** Like `MealsResultMeaning`: an answer comes only from a reply that parses to
      an array, and is then that array's valid items, in order, each normalised. */
  lemma ExercisesResultMeaning(clientConfigured: bool, reply: Reply, parse: string -> Option<Json>)
    ensures var r := ExercisesResult(clientConfigured, reply, parse);
            && (!clientConfigured ==> r == Err(NotConfiguredMessage))
            && (clientConfigured && reply.Failed? && reply.thrown.ErrorValue? ==>
                  r == Err(ExercisesPrefix + reply.thrown.message))
            && (clientConfigured && reply == Failed(OtherValue) ==> r == Err(ExercisesGeneric))
            && (clientConfigured && reply.Text? && CheckExerciseList(ParsedReply(reply.text, parse)).Err? ==>
                  r == Err(ExercisesPrefix + CheckExerciseList(ParsedReply(reply.text, parse)).message))
            && (clientConfigured && reply.Text? && parse(ExtractJsonText(reply.text)).None? ==>
                  r == Err(ExercisesPrefix + ExercisesNotArrayMessage))
            && (r.Ok? ==>
                  && clientConfigured && reply.Text? && ParsedReply(reply.text, parse).JArray?
                  && var valid := WithStrings(ParsedReply(reply.text, parse).items, "exerciseName", "description");
                     && |r.value| == |valid|
                     && forall k :: 0 <= k < |valid| ==>
                          IsExerciseSuggestionShape(valid[k]) && r.value[k] == NormalizeExercise(valid[k]))
  {
    AttemptWrapsFailures(ExercisesPrefix, ExercisesGeneric, reply, parse, CheckExerciseList);
  }

  /** The whole of `handleSuggestExercises`, given what the service call settles
      with (consulted only past the guards and the age check). */
  function SuggestExercisesState(s: AppState, parseInt: string -> Option<int>,
                                 service: Result<seq<ExerciseSuggestion>>): AppState
  {
    if NoCalculation(s) then s.(exerciseSuggestionError := Some(CalculateFirstMessage))
    else if s.exerciseGoal == "" then s.(exerciseSuggestionError := Some(ChooseGoalMessage))
    else
      var started := s.(isSuggestingExercises := true, exerciseSuggestionError := None, suggestedExercises := None);
      if parseInt(s.userData.age).None? then
        started.(exerciseSuggestionError := Some(InvalidAgeMessage), isSuggestingExercises := false)
      else
        WithExercisesOutcome(started, Settle(service))
  }

  /** The two guards change only the error, and the handler never touches the
      form, the results or the meal suggestions. */
  lemma SuggestExercisesGuards(s: AppState, parseInt: string -> Option<int>, service: Result<seq<ExerciseSuggestion>>)
    ensures var t := SuggestExercisesState(s, parseInt, service);
            && (NoCalculation(s) ==> t == s.(exerciseSuggestionError := Some(CalculateFirstMessage)))
            && (!NoCalculation(s) && s.exerciseGoal == "" ==> t == s.(exerciseSuggestionError := Some(ChooseGoalMessage)))
            && t.userData == s.userData && t.results == s.results && t.suggestedMeals == s.suggestedMeals
  {
  }

  /** Past the guards, the loading flag ends false and exactly one of
      suggestions and error is set: an unparsable age, a rejection and an empty
      answer each show their own message, and a non-empty answer is stored as it is. */
  lemma SuggestExercisesSettles(s: AppState, parseInt: string -> Option<int>, service: Result<seq<ExerciseSuggestion>>)
    requires !NoCalculation(s) && s.exerciseGoal != ""
    ensures var t := SuggestExercisesState(s, parseInt, service);
            && !t.isSuggestingExercises
            && (t.exerciseSuggestionError.Some? <==> t.suggestedExercises.None?)
            && (parseInt(s.userData.age).None? ==> t.exerciseSuggestionError == Some(InvalidAgeMessage))
            && (parseInt(s.userData.age).Some? && service.Err? ==> t.exerciseSuggestionError == Some(service.message))
            && (parseInt(s.userData.age).Some? && service == Ok([]) ==>
                  t.exerciseSuggestionError == Some(NoExercisesFoundMessage))
            && (t.suggestedExercises.Some? <==> parseInt(s.userData.age).Some? && service.Ok? && |service.value| > 0)
            && (t.suggestedExercises.Some? ==> t.suggestedExercises.value == service.value)
  {
  }

  // ---------------------------------------------------------------------------
  // The meal detail modal's inputs

  /** `selectedMealForDetail?.mealName || null`: an empty name counts as none. */
  function ModalMealName(selected: Option<MealSuggestion>): (name: Option<string>)
    ensures name.Some? <==> selected.Some? && MealName(selected.value) != ""
    ensures name.Some? ==> name.value == MealName(selected.value)
  {
    if selected.Some? && MealName(selected.value) != "" then Some(MealName(selected.value)) else None
  }

  // ---------------------------------------------------------------------------
  // The component

  class AppComponent {
    var userData: UserData
    var results: Option<CalculationResults>
    var errors: map<string, string>
    var ingredients: string
    var suggestedMeals: Option<seq<MealSuggestion>>
    var isSuggestingMeals: bool
    var mealSuggestionError: Option<string>
    var selectedMealForDetail: Option<MealSuggestion>
    var isModalOpen: bool
    var exerciseGoal: string
    var suggestedExercises: Option<seq<ExerciseSuggestion>>
    var isSuggestingExercises: bool
    var exerciseSuggestionError: Option<string>

    function State(): AppState
      reads this
    {
      AppState(userData, results, errors, ingredients, suggestedMeals, isSuggestingMeals, mealSuggestionError,
               selectedMealForDetail, isModalOpen, exerciseGoal, suggestedExercises, isSuggestingExercises,
               exerciseSuggestionError)
    }

    constructor ()
      ensures State() == InitialState
    {
      userData := UserData("", MALE, "", "", SEDENTARY);
      results := None;
      errors := map[];
      ingredients := "";
      suggestedMeals := None;
      isSuggestingMeals := false;
      mealSuggestionError := None;
      selectedMealForDetail := None;
      isModalOpen := false;
      exerciseGoal := "";
      suggestedExercises := None;
      isSuggestingExercises := false;
      exerciseSuggestionError := None;
    }

    method HandleInputChange(field: InputField, value: string)
      modifies this
      ensures State() == old(State()).(userData := WithInput(old(userData), field, value),
                                       errors := ClearedError(old(errors), InputName(field)))
    {
      var name := InputName(field);
      userData := WithInput(userData, field, value);
      if name in errors && errors[name] != "" {
        errors := errors[name := ""];
      }
    }

    method HandleSelectChange(choice: SelectChoice)
      modifies this
      ensures State() == old(State()).(userData := match choice
                                                   case GenderChoice(g) => old(userData).(gender := g)
                                                   case ActivityChoice(level) => old(userData).(activityLevel := level),
                                       errors := ClearedError(old(errors), SelectName(choice)))
    {
      var name := SelectName(choice);
      match choice {
        case GenderChoice(g) => userData := userData.(gender := g);
        case ActivityChoice(level) => userData := userData.(activityLevel := level);
      }
      if name in errors && errors[name] != "" {
        errors := errors[name := ""];
      }
    }

    /** Replaces the error map with this submission's field errors and reports whether there were none. */
    method ValidateForm(toNumber: string -> Option<real>) returns (valid: bool)
      modifies this
      ensures State() == old(State()).(errors := ValidationErrors(old(userData), toNumber))
      ensures valid <==> errors == map[]
    {
      var newErrors: map<string, string> := map[];
      if FieldInvalid(userData.age, 120.0, toNumber) {
        newErrors := newErrors["age" := AgeErrorMessage];
      }
      if FieldInvalid(userData.weightKg, 500.0, toNumber) {
        newErrors := newErrors["weightKg" := WeightErrorMessage];
      }
      if FieldInvalid(userData.heightCm, 300.0, toNumber) {
        newErrors := newErrors["heightCm" := HeightErrorMessage];
      }
      errors := newErrors;
      valid := newErrors == map[];
    }

    method HandleSubmit(coerce: Coercions)
      modifies this
      ensures State() == SubmitState(old(State()), coerce)
    {
      ghost var before := State();
      var valid := ValidateForm(coerce.toNumber);
      SubmitStateByCases(before, coerce);
      if valid {
        StoreCalculation(Calculate(userData, coerce));
      }
    }

    /** The branch of `handleSubmit` after a successful validation. */
    method StoreCalculation(calculated: Option<CalculationResults>)
      modifies this
      ensures calculated.None? ==> State() == old(State()).(errors := old(errors)["form" := FormInvalidMessage])
      ensures calculated.Some? ==>
                State() == old(State()).(results := calculated, suggestedExercises := None,
                                         exerciseSuggestionError := None, exerciseGoal := "")
    {
      if calculated.Some? {
        results := calculated;
        suggestedExercises := None;
        exerciseSuggestionError := None;
        exerciseGoal := "";
      } else {
        errors := errors["form" := FormInvalidMessage];
      }
    }

    method HandleIngredientsChange(value: string)
      modifies this
      ensures State() == old(State()).(ingredients := value, mealSuggestionError := ClearedMessage(old(mealSuggestionError)))
    {
      ingredients := value;
      if mealSuggestionError.Some? && mealSuggestionError.value != "" {
        mealSuggestionError := None;
      }
    }

    /** Up to the `await`: the ingredients to send, or None when the guard returned. */
    method BeginSuggestMeals() returns (request: Option<string>)
      modifies this
      ensures request.Some? <==> !IsBlank(old(ingredients))
      ensures request.Some? ==>
                && request.value == old(ingredients)
                && State() == old(State()).(isSuggestingMeals := true, mealSuggestionError := None, suggestedMeals := None)
      ensures request.None? ==>
                State() == old(State()).(mealSuggestionError := Some(EnterIngredientsMessage), suggestedMeals := None)
    {
      if IsBlank(ingredients) {
        mealSuggestionError := Some(EnterIngredientsMessage);
        suggestedMeals := None;
        return None;
      }
      isSuggestingMeals := true;
      mealSuggestionError := None;
      suggestedMeals := None;
      request := Some(ingredients);
    }

    method FinishSuggestMeals(outcome: Settled<seq<MealSuggestion>>)
      modifies this
      ensures State() == WithMealsOutcome(old(State()), outcome)
    {
      match outcome {
        case Fulfilled(meals) =>
          if |meals| > 0 {
            suggestedMeals := Some(meals);
          } else {
            mealSuggestionError := Some(NoMealsFoundMessage);
          }
        case Rejected(t) =>
          mealSuggestionError := Some(MessageOr(t, MealsFailedMessage));
      }
      isSuggestingMeals := false;
    }

    method HandleSuggestMeals(clientConfigured: bool, reply: Reply, parse: string -> Option<Json>)
      modifies this
      ensures State() == SuggestMealsState(old(State()), MealsResult(clientConfigured, reply, parse))
    {
      var request := BeginSuggestMeals();
      if request.Some? {
        var meals, _ := SuggestMealsFromIngredients(clientConfigured, request.value, reply, parse);
        FinishSuggestMeals(Settle(meals));
      }
    }

    method HandleOpenMealModal(meal: MealSuggestion)
      modifies this
      ensures State() == old(State()).(selectedMealForDetail := Some(meal), isModalOpen := true)
    {
      selectedMealForDetail := Some(meal);
      isModalOpen := true;
    }

    method HandleCloseMealModal()
      modifies this
      ensures State() == old(State()).(isModalOpen := false, selectedMealForDetail := None)
    {
      isModalOpen := false;
      selectedMealForDetail := None;
    }

    /** The props the meal detail modal receives. */
    function ModalProps(): (props: (bool, Option<string>))
      reads this
      ensures props.0 == isModalOpen && props.1 == ModalMealName(selectedMealForDetail)
    {
      (isModalOpen, ModalMealName(selectedMealForDetail))
    }

    method HandleExerciseGoalChange(value: string)
      modifies this
      ensures State() == old(State()).(exerciseGoal := value, exerciseSuggestionError := ClearedMessage(old(exerciseSuggestionError)),
                                       suggestedExercises := None)
    {
      exerciseGoal := value;
      if exerciseSuggestionError.Some? && exerciseSuggestionError.value != "" {
        exerciseSuggestionError := None;
      }
      suggestedExercises := None;
    }

    /** Up to the `await`: the service parameters, or None when a guard returned
        or the age did not parse (the `try` then already ran its `catch` and `finally`). */
    method BeginSuggestExercises(parseInt: string -> Option<int>) returns (params: Option<SuggestExercisesParams>)
      modifies this
      ensures params.Some? <==> !NoCalculation(old(State())) && old(exerciseGoal) != "" && parseInt(old(userData).age).Some?
      ensures params.Some? ==>
                && params.value == ExerciseParams(old(State()), parseInt(old(userData).age).value)
                && State() == old(State()).(isSuggestingExercises := true, exerciseSuggestionError := None,
                                            suggestedExercises := None)
      ensures params.None? ==> forall service :: State() == SuggestExercisesState(old(State()), parseInt, service)
    {
      if results.None? || results.value.tdee == 0.0 {
        exerciseSuggestionError := Some(CalculateFirstMessage);
        return None;
      }
      if exerciseGoal == "" {
        exerciseSuggestionError := Some(ChooseGoalMessage);
        return None;
      }
      isSuggestingExercises := true;
      exerciseSuggestionError := None;
      suggestedExercises := None;
      var ageNum := parseInt(userData.age);
      if ageNum.None? {
        exerciseSuggestionError := Some(InvalidAgeMessage);
        isSuggestingExercises := false;
        return None;
      }
      params := Some(SuggestExercisesParams(results.value.tdee, userData.gender, ageNum.value,
                                            userData.activityLevel, exerciseGoal));
    }

    method FinishSuggestExercises(outcome: Settled<seq<ExerciseSuggestion>>)
      modifies this
      ensures State() == WithExercisesOutcome(old(State()), outcome)
    {
      match outcome {
        case Fulfilled(exercises) =>
          if |exercises| > 0 {
            suggestedExercises := Some(exercises);
          } else {
            exerciseSuggestionError := Some(NoExercisesFoundMessage);
          }
        case Rejected(t) =>
          exerciseSuggestionError := Some(MessageOr(t, ExercisesFailedMessage));
      }
      isSuggestingExercises := false;
    }

    method HandleSuggestExercises(parseInt: string -> Option<int>, clientConfigured: bool, reply: Reply,
                                  parse: string -> Option<Json>)
      modifies this
      ensures State() == SuggestExercisesState(old(State()), parseInt, ExercisesResult(clientConfigured, reply, parse))
    {
      var params := BeginSuggestExercises(parseInt);
      if params.Some? {
        var exercises, _ := SuggestExercises(clientConfigured, params.value, reply, parse);
        FinishSuggestExercises(Settle(exercises));
      }
    }
  }
}
