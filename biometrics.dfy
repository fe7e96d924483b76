/**
 * Daily calorie target: the Mifflin–St Jeor basal metabolic rate and the
 * fixed goal offset applied to it (app.py, calculate_bmr and get_calorie_goal).
 * The sidebar inputs are whole numbers, so the arithmetic is exact in `real`.
 */
module Biometrics {

  /** The gender value that selects the male formula; every other value selects the female one. */
  const Male: string := "남성"
  /** Goal values with an offset; every other goal keeps the BMR. */
  const Diet: string := "다이어트"
  const MuscleGain: string := "근육 증가"

  /** Bounds of the sidebar number inputs for age, height and weight. */
  predicate InInputRange(weight: int, height: int, age: int)
  {
    30 <= weight <= 200 && 100 <= height <= 250 && 10 <= age <= 100
  }

  /** Basal metabolic rate in kcal. */
  function Bmr(gender: string, weight: int, height: int, age: int): (r: real)
    ensures InInputRange(weight, height, age) ==> 264.0 <= r <= 3517.5
  {
    var base := 10.0 * (weight as real) + 6.25 * (height as real) - 5.0 * (age as real);
    if gender == Male then base + 5.0 else base - 161.0
  }

  /** The two formulas differ only in their constant: male minus female is 166 kcal. */
  lemma BmrGenderGap(other: string, weight: int, height: int, age: int)
    requires other != Male
    ensures Bmr(Male, weight, height, age) - Bmr(other, weight, height, age) == 166.0
  {
  }

  /** Each extra kilogram adds 10 kcal, each extra centimetre 6.25 kcal, each extra year removes 5 kcal. */
  lemma BmrSlopes(gender: string, weight: int, height: int, age: int)
    ensures Bmr(gender, weight + 1, height, age) == Bmr(gender, weight, height, age) + 10.0
    ensures Bmr(gender, weight, height + 1, age) == Bmr(gender, weight, height, age) + 6.25
    ensures Bmr(gender, weight, height, age + 1) == Bmr(gender, weight, height, age) - 5.0
  {
  }

  /** The sidebar defaults (70 kg, 170 cm, 25 years). */
  lemma BmrDefaults()
    ensures Bmr(Male, 70, 170, 25) == 1642.5
    ensures Bmr("여성", 70, 170, 25) == 1476.5
  {
  }

  /** Daily calorie target: 300 kcal below the BMR for a diet, 300 above for muscle gain, the BMR otherwise. */
  function CalorieGoal(bmr: real, goal: string): (r: real)
    ensures goal == Diet ==> r == bmr - 300.0
    ensures goal == MuscleGain ==> r == bmr + 300.0
    ensures goal != Diet && goal != MuscleGain ==> r == bmr
  {
    if goal == Diet then bmr - 300.0
    else if goal == MuscleGain then bmr + 300.0
    else bmr
  }

  /** For the same BMR the three goals are ordered diet < maintain < muscle gain, 300 kcal apart. */
  lemma CalorieGoalOrder(bmr: real, other: string)
    requires other != Diet && other != MuscleGain
    ensures CalorieGoal(bmr, Diet) + 300.0 == CalorieGoal(bmr, other) == CalorieGoal(bmr, MuscleGain) - 300.0
  {
  }
}
