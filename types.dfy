/** The record shapes of the application. Enumerations carry the string values
    they have at run time; the suggestion records are the parsed JSON objects
    themselves, since the gateway only casts them. */
module Types {
  import opened Outcomes
  import opened Json

  datatype Gender = MALE | FEMALE
  {
    function Value(): string
    {
      match this
      case MALE => "male"
      case FEMALE => "female"
    }
  }

  datatype ActivityLevelName = SEDENTARY | LIGHTLY_ACTIVE | MODERATELY_ACTIVE | VERY_ACTIVE | SUPER_ACTIVE
  {
    function Value(): string
    {
      match this
      case SEDENTARY => "sedentary"
      case LIGHTLY_ACTIVE => "lightly_active"
      case MODERATELY_ACTIVE => "moderately_active"
      case VERY_ACTIVE => "very_active"
      case SUPER_ACTIVE => "super_active"
    }
  }

  datatype ExerciseGoalValue = WeightLoss | MuscleGain | GeneralFitness | Endurance
  {
    function Value(): string
    {
      match this
      case WeightLoss => "weightLoss"
      case MuscleGain => "muscleGain"
      case GeneralFitness => "generalFitness"
      case Endurance => "endurance"
    }
  }

  /** The form state: the numeric fields are kept as the text typed in. */
  datatype UserData = UserData(
    age: string, gender: Gender, weightKg: string, heightCm: string, activityLevel: ActivityLevelName)

  datatype CalculationData = CalculationData(age: int, gender: Gender, weightKg: real, heightCm: real)

  datatype CalculationResults = CalculationResults(
    bmr: real, tdee: real, proteinGrams: int, carbsGrams: int, fatsGrams: int)

  predicate IsMealSuggestionShape(j: Json)
  {
    HasString(j, "mealName") && HasString(j, "description")
  }

  predicate IsExerciseSuggestionShape(j: Json)
  {
    HasString(j, "exerciseName") && HasString(j, "description")
  }

  /** A meal suggestion: a parsed object with string `mealName` and `description`;
      its other members (the estimate strings) are kept as the model sent them. */
  type MealSuggestion = j: Json | IsMealSuggestionShape(j)
    witness JObject(map["mealName" := JString(""), "description" := JString("")])

  /** An exercise suggestion: a parsed object with string `exerciseName` and `description`. */
  type ExerciseSuggestion = j: Json | IsExerciseSuggestionShape(j)
    witness JObject(map["exerciseName" := JString(""), "description" := JString("")])

  function MealName(m: MealSuggestion): string { StringAt(m, "mealName") }

  datatype Ingredient = Ingredient(name: string, quantity: string)

  datatype DetailedMealRecipe = DetailedMealRecipe(
    mealName: string, ingredients: seq<Ingredient>, preparationSteps: seq<string>,
    youtubeVideoId: Option<string>)

  /** `exerciseGoal` is the raw value of the goal selector. */
  datatype SuggestExercisesParams = SuggestExercisesParams(
    tdee: real, gender: Gender, age: int, currentActivityLevel: ActivityLevelName, exerciseGoal: string)
}
