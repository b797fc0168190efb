/** The metabolic calculator: Mifflin–St Jeor BMR, TDEE and the 40/30/30 macronutrient split.
    Numbers are exact reals; the source's IEEE-754 doubles are not modelled. */
module CalorieService {
  import opened Types

  /** `Math.round(x)`: the nearest integer, halves rounded towards +∞. */
  function Round(x: real): (n: int)
    ensures x - 0.5 < n as real <= x + 0.5
  {
    (x + 0.5).Floor
  }

  lemma RoundIsMonotone(x: real, y: real)
    requires x <= y
    ensures Round(x) <= Round(y)
  {
  }

  /** The basal metabolic rate by the Mifflin–St Jeor equation; every gender other
      than MALE takes the female constant. */
  function CalculateBMR(data: CalculationData): real
  {
    if data.gender == MALE then
      10.0 * data.weightKg + 6.25 * data.heightCm - 5.0 * data.age as real + 5.0
    else
      10.0 * data.weightKg + 6.25 * data.heightCm - 5.0 * data.age as real - 161.0
  }

  function CalculateTDEE(bmr: real, activityMultiplier: real): real
  {
    bmr * activityMultiplier
  }

  datatype Macronutrients = Macronutrients(proteinGrams: int, carbsGrams: int, fatsGrams: int)

  /** 40% of the energy from carbohydrate and 30% each from protein and fat, at
      4, 4 and 9 kcal per gram, each gram count rounded on its own. */
  function CalculateMacronutrients(tdee: real): Macronutrients
  {
    var caloriesFromCarbs := tdee * 0.40;
    var caloriesFromProtein := tdee * 0.30;
    var caloriesFromFats := tdee * 0.30;
    Macronutrients(Round(caloriesFromProtein / 4.0), Round(caloriesFromCarbs / 4.0), Round(caloriesFromFats / 9.0))
  }

  /** Each gram count is within one half of its exact share, and none is negative
      for a non-negative total. */
  lemma MacrosAreRoundedShares(tdee: real)
    ensures var m := CalculateMacronutrients(tdee);
            && tdee * 0.40 / 4.0 - 0.5 < m.carbsGrams as real <= tdee * 0.40 / 4.0 + 0.5
            && tdee * 0.30 / 4.0 - 0.5 < m.proteinGrams as real <= tdee * 0.30 / 4.0 + 0.5
            && tdee * 0.30 / 9.0 - 0.5 < m.fatsGrams as real <= tdee * 0.30 / 9.0 + 0.5
            && (tdee >= 0.0 ==> m.carbsGrams >= 0 && m.proteinGrams >= 0 && m.fatsGrams >= 0)
  {
  }

  /** All three counts are non-negative exactly when the total is at least −5:
      carbohydrate, the largest share, is the first to round below zero. */
  lemma MacrosNonNegativeExactly(tdee: real)
    ensures var m := CalculateMacronutrients(tdee);
            m.carbsGrams >= 0 && m.proteinGrams >= 0 && m.fatsGrams >= 0 <==> tdee >= -5.0
  {
    var m := CalculateMacronutrients(tdee);
    if tdee >= -5.0 {
      assert tdee * 0.40 / 4.0 >= -0.5 && tdee * 0.30 / 4.0 >= -0.5 && tdee * 0.30 / 9.0 >= -0.5;
    } else {
      assert tdee * 0.40 / 4.0 + 0.5 < 0.0;
    }
  }

  /** For equal age, weight and height, the MALE rate exceeds the FEMALE rate by exactly 166. */
  lemma MaleMinusFemaleIs166(age: int, weightKg: real, heightCm: real)
    ensures CalculateBMR(CalculationData(age, MALE, weightKg, heightCm))
         == CalculateBMR(CalculationData(age, FEMALE, weightKg, heightCm)) + 166.0
  {
  }

  lemma BmrWorkedExample()
    ensures CalculateBMR(CalculationData(30, MALE, 70.0, 175.0)) == 1648.75
  {
  }

  /** The rate rises by 10 per kilogram, by 6.25 per centimetre and falls by 5 per
      year, so it is strictly monotone in each input when the others are fixed. */
  lemma BmrSlopes(data: CalculationData, age: int, weightKg: real, heightCm: real)
    ensures CalculateBMR(data.(weightKg := weightKg)) - CalculateBMR(data) == 10.0 * (weightKg - data.weightKg)
    ensures CalculateBMR(data.(heightCm := heightCm)) - CalculateBMR(data) == 6.25 * (heightCm - data.heightCm)
    ensures CalculateBMR(data.(age := age)) - CalculateBMR(data) == -5.0 * (age - data.age) as real
    ensures weightKg > data.weightKg ==> CalculateBMR(data.(weightKg := weightKg)) > CalculateBMR(data)
    ensures heightCm > data.heightCm ==> CalculateBMR(data.(heightCm := heightCm)) > CalculateBMR(data)
    ensures age > data.age ==> CalculateBMR(data.(age := age)) < CalculateBMR(data)
  {
  }

  /** TDEE is linear in the multiplier and in the rate. */
  lemma TdeeIsLinear(bmr: real, m: real, k: real)
    ensures CalculateTDEE(bmr, k * m) == k * CalculateTDEE(bmr, m)
    ensures CalculateTDEE(k * bmr, m) == k * CalculateTDEE(bmr, m)
    ensures CalculateTDEE(bmr, 2.0 * m) == 2.0 * CalculateTDEE(bmr, m)
  {
  }

  /** A multiplier above one makes TDEE exceed a positive BMR. */
  lemma TdeeExceedsBmr(bmr: real, m: real)
    requires bmr > 0.0 && m > 1.0
    ensures CalculateTDEE(bmr, m) > bmr
  {
    assert bmr * m - bmr == bmr * (m - 1.0);
    assert bmr * (m - 1.0) > 0.0;
  }

  lemma MacrosFor2000()
    ensures CalculateMacronutrients(2000.0) == Macronutrients(150, 200, 67)
  {
    assert Round(2000.0 * 0.30 / 9.0) == 67 by {
      assert 2000.0 * 0.30 / 9.0 + 0.5 == 604.5 / 9.0;
    }
  }

  /** Each gram count is non-decreasing in TDEE. */
  lemma MacrosAreMonotone(t1: real, t2: real)
    requires t1 <= t2
    ensures CalculateMacronutrients(t1).carbsGrams <= CalculateMacronutrients(t2).carbsGrams
    ensures CalculateMacronutrients(t1).proteinGrams <= CalculateMacronutrients(t2).proteinGrams
    ensures CalculateMacronutrients(t1).fatsGrams <= CalculateMacronutrients(t2).fatsGrams
  {
    RoundIsMonotone(t1 * 0.40 / 4.0, t2 * 0.40 / 4.0);
    RoundIsMonotone(t1 * 0.30 / 4.0, t2 * 0.30 / 4.0);
    RoundIsMonotone(t1 * 0.30 / 9.0, t2 * 0.30 / 9.0);
  }
}
