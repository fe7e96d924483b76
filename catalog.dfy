/**
 * The food catalog: records, the allergen filter, the calorie value of a
 * food registered from its macronutrients, and the daily intake sum
 * (app.py lines 82, 106-115 and 124).
 */
module Catalog {

  /** One catalog record; `allergens` is the record's list of allergen tags. */
  datatype Food = Food(name: string, calories: real, protein: real, allergens: seq<string>)

  /** Calories and protein of every record are non-negative. */
  predicate WellFormed(foods: seq<Food>)
  {
    forall i :: 0 <= i < |foods| ==> foods[i].calories >= 0.0 && foods[i].protein >= 0.0
  }

  /** A food is safe when none of the user's allergies is among its tags. */
  predicate Safe(f: Food, allergies: seq<string>)
  {
    forall a :: a in allergies ==> a !in f.allergens
  }

  /** The records whose tags avoid every allergy, in catalog order. */
  function FilterAllergens(foods: seq<Food>, allergies: seq<string>): (r: seq<Food>)
    ensures |r| <= |foods|
    ensures forall i :: 0 <= i < |r| ==> Safe(r[i], allergies) && r[i] in foods
  {
    if foods == [] then []
    else if Safe(foods[0], allergies) then [foods[0]] + FilterAllergens(foods[1..], allergies)
    else FilterAllergens(foods[1..], allergies)
  }

  /** A record is in the filtered catalog exactly when it is in the catalog and shares no allergen with the user. */
  lemma {:induction false} FilterMembership(foods: seq<Food>, allergies: seq<string>, f: Food)
    ensures f in FilterAllergens(foods, allergies) <==> f in foods && Safe(f, allergies)
  {
    if foods != [] {
      FilterMembership(foods[1..], allergies, f);
      assert foods == [foods[0]] + foods[1..];
    }
  }

  /** Filtering works record by record: the filter of a concatenation is the concatenation of the filters, so catalog order is kept. */
  lemma {:induction false} FilterAppend(a: seq<Food>, b: seq<Food>, allergies: seq<string>)
    ensures FilterAllergens(a + b, allergies) == FilterAllergens(a, allergies) + FilterAllergens(b, allergies)
  {
    if a == [] {
      assert a + b == b;
    } else {
      assert (a + b)[1..] == a[1..] + b;
      FilterAppend(a[1..], b, allergies);
    }
  }

  /** Every safe record is kept with all its duplicates; every unsafe record is dropped entirely. */
  lemma {:induction false} FilterCounts(foods: seq<Food>, allergies: seq<string>, f: Food)
    ensures multiset(FilterAllergens(foods, allergies))[f] == if Safe(f, allergies) then multiset(foods)[f] else 0
  {
    if foods != [] {
      FilterCounts(foods[1..], allergies, f);
      assert foods == [foods[0]] + foods[1..];
    }
  }

  /** A catalog that is already free of the allergies passes the filter unchanged. */
  lemma {:induction false} FilterAllSafe(foods: seq<Food>, allergies: seq<string>)
    requires forall i :: 0 <= i < |foods| ==> Safe(foods[i], allergies)
    ensures FilterAllergens(foods, allergies) == foods
  {
    if foods != [] {
      FilterAllSafe(foods[1..], allergies);
    }
  }

  /** Filtering twice with the same allergies is filtering once. */
  lemma FilterIdempotent(foods: seq<Food>, allergies: seq<string>)
    ensures FilterAllergens(FilterAllergens(foods, allergies), allergies) == FilterAllergens(foods, allergies)
  {
    FilterAllSafe(FilterAllergens(foods, allergies), allergies);
  }

  /** Calories of a food registered from grams of carbohydrate, protein and fat: 4, 4 and 9 kcal per gram. */
  function MacroCalories(carbs: real, protein: real, fat: real): (r: real)
    ensures 0.0 <= carbs && 0.0 <= protein && 0.0 <= fat ==> r >= 0.0
    ensures carbs <= 200.0 && protein <= 100.0 && fat <= 100.0 ==> r <= 2100.0
  {
    carbs * 4.0 + protein * 4.0 + fat * 9.0
  }

  /** The record the registration form builds. */
  function NewFood(name: string, carbs: real, protein: real, fat: real, allergens: seq<string>): (f: Food)
    ensures f.name == name && f.protein == protein && f.allergens == allergens
    ensures f.calories == MacroCalories(carbs, protein, fat)
  {
    Food(name, MacroCalories(carbs, protein, fat), protein, allergens)
  }

  /** Sum of the calories of all records. */
  function Total(foods: seq<Food>): (r: real)
  {
    if foods == [] then 0.0 else foods[0].calories + Total(foods[1..])
  }

  /** The records whose name was selected, duplicates included, in catalog order. */
  function Matching(foods: seq<Food>, selected: seq<string>): (r: seq<Food>)
    ensures forall i :: 0 <= i < |r| ==> r[i].name in selected && r[i] in foods
  {
    if foods == [] then []
    else if foods[0].name in selected then [foods[0]] + Matching(foods[1..], selected)
    else Matching(foods[1..], selected)
  }

  /** Every record whose name was selected is returned as often as it occurs in the catalog; no other record is. */
  lemma {:induction false} MatchingCounts(foods: seq<Food>, selected: seq<string>, f: Food)
    ensures multiset(Matching(foods, selected))[f] == if f.name in selected then multiset(foods)[f] else 0
  {
    if foods != [] {
      MatchingCounts(foods[1..], selected, f);
      assert foods == [foods[0]] + foods[1..];
    }
  }

  /** Daily intake: calories summed over every record whose name was selected. */
  function Intake(foods: seq<Food>, selected: seq<string>): (r: real)
    ensures selected == [] ==> r == 0.0
    ensures WellFormed(foods) ==> 0.0 <= r <= Total(foods)
  {
    if foods == [] then 0.0
    else (if foods[0].name in selected then foods[0].calories else 0.0) + Intake(foods[1..], selected)
  }

  /** The intake is the total of the matching records. */
  lemma {:induction false} IntakeIsTotalOfMatching(foods: seq<Food>, selected: seq<string>)
    ensures Intake(foods, selected) == Total(Matching(foods, selected))
  {
    if foods != [] {
      IntakeIsTotalOfMatching(foods[1..], selected);
    }
  }

  /** Intake over a concatenation is the sum of the intakes, so records sharing a selected name are all counted. */
  lemma {:induction false} IntakeAppend(a: seq<Food>, b: seq<Food>, selected: seq<string>)
    ensures Intake(a + b, selected) == Intake(a, selected) + Intake(b, selected)
  {
    if a == [] {
      assert a + b == b;
    } else {
      assert (a + b)[1..] == a[1..] + b;
      IntakeAppend(a[1..], b, selected);
    }
  }

  /** When every record is selected by name, the intake is the catalog total. */
  lemma {:induction false} IntakeAllSelected(foods: seq<Food>, selected: seq<string>)
    requires forall i :: 0 <= i < |foods| ==> foods[i].name in selected
    ensures Intake(foods, selected) == Total(foods)
  {
    if foods != [] {
      IntakeAllSelected(foods[1..], selected);
    }
  }

  /** A selection that names no record gives zero. */
  lemma {:induction false} IntakeNoneSelected(foods: seq<Food>, selected: seq<string>)
    requires forall i :: 0 <= i < |foods| ==> foods[i].name !in selected
    ensures Intake(foods, selected) == 0.0
  {
    if foods != [] {
      IntakeNoneSelected(foods[1..], selected);
    }
  }

  /** Registering a food adds its calories to the intake exactly when its name is selected. */
  lemma IntakeAfterRegister(foods: seq<Food>, f: Food, selected: seq<string>)
    ensures Intake(foods + [f], selected) == Intake(foods, selected) + (if f.name in selected then f.calories else 0.0)
  {
    IntakeAppend(foods, [f], selected);
  }
}
