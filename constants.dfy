/** The fixed option tables of the application. */
module Constants {
  import opened Outcomes
  import opened Types

  datatype GenderOption = GenderOption(value: Gender, labelText: string)

  datatype ActivityLevelOption = ActivityLevelOption(value: ActivityLevelName, labelText: string, multiplier: real)

  datatype ExerciseGoalOption = ExerciseGoalOption(value: ExerciseGoalValue, labelText: string)

  const MaleLabel: string := "ذكر"
  const FemaleLabel: string := "أنثى"

  const GenderOptions: seq<GenderOption> := [
    GenderOption(MALE, MaleLabel),
    GenderOption(FEMALE, FemaleLabel)
  ]

  const SedentaryLabel: string := "خامل (قليل أو بدون تمارين)"
  const LightlyActiveLabel: string := "نشاط خفيف (تمارين خفيفة/رياضة ١-٣ أيام/أسبوع)"
  const ModeratelyActiveLabel: string := "نشاط معتدل (تمارين معتدلة/رياضة ٣-٥ أيام/أسبوع)"
  const VeryActiveLabel: string := "نشيط جدًا (تمارين شاقة/رياضة ٦-٧ أيام/أسبوع)"
  const SuperActiveLabel: string := "نشيط للغاية (تمارين شاقة جدًا/رياضة وعمل بدني أو تدريب مضاعف)"

  const ActivityLevelOptions: seq<ActivityLevelOption> := [
    ActivityLevelOption(SEDENTARY, SedentaryLabel, 1.2),
    ActivityLevelOption(LIGHTLY_ACTIVE, LightlyActiveLabel, 1.375),
    ActivityLevelOption(MODERATELY_ACTIVE, ModeratelyActiveLabel, 1.55),
    ActivityLevelOption(VERY_ACTIVE, VeryActiveLabel, 1.725),
    ActivityLevelOption(SUPER_ACTIVE, SuperActiveLabel, 1.9)
  ]

  const WeightLossLabel: string := "فقدان الوزن"
  const MuscleGainLabel: string := "بناء العضلات"
  const GeneralFitnessLabel: string := "تحسين اللياقة العامة"
  const EnduranceLabel: string := "زيادة القدرة على التحمل"

  const ExerciseGoalOptions: seq<ExerciseGoalOption> := [
    ExerciseGoalOption(WeightLoss, WeightLossLabel),
    ExerciseGoalOption(MuscleGain, MuscleGainLabel),
    ExerciseGoalOption(GeneralFitness, GeneralFitnessLabel),
    ExerciseGoalOption(Endurance, EnduranceLabel)
  ]

  /** `options.find(opt => opt.value === level)`: the first entry for `level`, if any. */
  function FindActivityOption(options: seq<ActivityLevelOption>, level: ActivityLevelName)
    : (r: Option<ActivityLevelOption>)
    ensures r.None? <==> forall i :: 0 <= i < |options| ==> options[i].value != level
    ensures r.Some? ==> exists i :: && 0 <= i < |options| && options[i] == r.value
                                    && r.value.value == level
                                    && forall j :: 0 <= j < i ==> options[j].value != level
  {
    if options == [] then None
    else if options[0].value == level then Some(options[0])
    else
      var r := FindActivityOption(options[1..], level);
      assert forall i :: 1 <= i < |options| ==> options[i] == options[1..][i - 1];
      r
  }

  /** The position of each activity level in the table: the enumeration's declaration order. */
  function ActivityIndex(level: ActivityLevelName): nat
  {
    match level
    case SEDENTARY => 0
    case LIGHTLY_ACTIVE => 1
    case MODERATELY_ACTIVE => 2
    case VERY_ACTIVE => 3
    case SUPER_ACTIVE => 4
  }

  /** The activity table has five entries, one per level, in declaration order,
      with no level twice; so every lookup finds the entry at the level's index. */
  lemma ActivityTableIsComplete(level: ActivityLevelName)
    ensures |ActivityLevelOptions| == 5
    ensures forall i, j :: 0 <= i < j < 5 ==> ActivityLevelOptions[i].value != ActivityLevelOptions[j].value
    ensures ActivityIndex(level) < 5 && ActivityLevelOptions[ActivityIndex(level)].value == level
    ensures FindActivityOption(ActivityLevelOptions, level) == Some(ActivityLevelOptions[ActivityIndex(level)])
  {
    FindsTableEntry(level);
  }

  /** `find` on the activity table always returns the entry at the level's index. */
  lemma FindsTableEntry(level: ActivityLevelName)
    ensures FindActivityOption(ActivityLevelOptions, level) == Some(ActivityLevelOptions[ActivityIndex(level)])
  {
    var t := ActivityLevelOptions;
    assert t[1..][1..][1..][1..][1..] == [];
  }

  /** The multipliers are 1.2, 1.375, 1.55, 1.725 and 1.9: all above one and strictly increasing. */
  lemma MultipliersIncrease()
    ensures ActivityLevelOptions[0].multiplier == 1.2 && ActivityLevelOptions[1].multiplier == 1.375
    ensures ActivityLevelOptions[2].multiplier == 1.55 && ActivityLevelOptions[3].multiplier == 1.725
    ensures ActivityLevelOptions[4].multiplier == 1.9
    ensures forall i :: 0 <= i < |ActivityLevelOptions| ==> ActivityLevelOptions[i].multiplier > 1.0
    ensures forall i, j :: 0 <= i < j < |ActivityLevelOptions| ==>
              ActivityLevelOptions[i].multiplier < ActivityLevelOptions[j].multiplier
  {
  }

  /** The position of each goal in the goal table: the declaration order of the goal values. */
  function GoalIndex(goal: ExerciseGoalValue): nat
  {
    match goal
    case WeightLoss => 0
    case MuscleGain => 1
    case GeneralFitness => 2
    case Endurance => 3
  }

  /** The gender options are exactly MALE and FEMALE with their labels, and the
      exercise-goal options are the four goal values, each once, in declaration order. */
  lemma OptionTablesAreExact(goal: ExerciseGoalValue)
    ensures GenderOptions == [GenderOption(MALE, MaleLabel), GenderOption(FEMALE, FemaleLabel)]
    ensures |ExerciseGoalOptions| == 4
    ensures forall i, j :: 0 <= i < j < 4 ==> ExerciseGoalOptions[i].value != ExerciseGoalOptions[j].value
    ensures GoalIndex(goal) < 4 && ExerciseGoalOptions[GoalIndex(goal)].value == goal
  {
  }
}
