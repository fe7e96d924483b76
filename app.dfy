/**
 * The session: the food catalog and the intake log held by one object whose
 * methods update them in place (app.py lines 11-23, 82-91, 106-115, 123-130).
 */
module App {
  import opened Catalog
  import opened Meals
  import opened Ledger

  /** The eight built-in foods a new session starts with. */
  function DefaultFoods(): (r: seq<Food>)
    ensures |r| == 8 && WellFormed(r)
  {
    [ Food("닭가슴살", 165.0, 31.0, []),
      Food("현미밥", 220.0, 4.0, []),
      Food("두부", 76.0, 8.0, ["콩"]),
      Food("우유", 150.0, 8.0, ["우유"]),
      Food("계란", 70.0, 6.0, ["달걀"]),
      Food("사과", 52.0, 0.3, []),
      Food("오트밀", 150.0, 5.0, []),
      Food("그릭요거트", 100.0, 10.0, ["우유"]) ]
  }

  /** Which built-in foods a milk allergy rules out: milk and Greek yogurt. */
  lemma MilkSafety()
    ensures !Safe(DefaultFoods()[3], ["우유"]) && !Safe(DefaultFoods()[7], ["우유"])
    ensures forall i :: 0 <= i < 8 && i != 3 && i != 7 ==> Safe(DefaultFoods()[i], ["우유"])
  {
    var d, milk := DefaultFoods(), ["우유"];
    assert "우유" != "콩" && "우유" != "달걀";
    assert milk[0] in milk && milk[0] == d[3].allergens[0] == d[7].allergens[0];
  }

  /** A milk allergy removes milk and Greek yogurt and keeps the other six built-ins, tofu and egg included. */
  lemma MilkAllergyOnDefaults()
    ensures FilterAllergens(DefaultFoods(), ["우유"])
         == [DefaultFoods()[0], DefaultFoods()[1], DefaultFoods()[2], DefaultFoods()[4], DefaultFoods()[5], DefaultFoods()[6]]
  {
    MilkSafety();
    FilterDropsThirdAndSeventh(DefaultFoods(), ["우유"]);
  }

  /** A safe run followed by an unsafe record: the run is kept, the record is dropped. */
  lemma FilterSafeRunThenUnsafe(run: seq<Food>, x: Food, rest: seq<Food>, allergies: seq<string>)
    requires forall i :: 0 <= i < |run| ==> Safe(run[i], allergies)
    requires !Safe(x, allergies)
    ensures FilterAllergens(run + [x] + rest, allergies) == run + FilterAllergens(rest, allergies)
  {
    FilterAllSafe(run, allergies);
    assert FilterAllergens([x] + rest, allergies) == FilterAllergens(rest, allergies) by {
      assert ([x] + rest)[1..] == rest;
    }
    assert run + [x] + rest == run + ([x] + rest);
    FilterAppend(run, [x] + rest, allergies);
  }

  lemma FilterDropsThirdAndSeventh(d: seq<Food>, allergies: seq<string>)
    requires |d| == 8 && !Safe(d[3], allergies) && !Safe(d[7], allergies)
    requires forall i :: 0 <= i < 8 && i != 3 && i != 7 ==> Safe(d[i], allergies)
    ensures FilterAllergens(d, allergies) == [d[0], d[1], d[2], d[4], d[5], d[6]]
  {
    var front, middle := [d[0], d[1], d[2]], [d[4], d[5], d[6]];
    var tail := middle + [d[7]] + [];
    assert d == front + [d[3]] + tail;
    FilterSafeRunThenUnsafe(middle, d[7], [], allergies);
    FilterSafeRunThenUnsafe(front, d[3], tail, allergies);
  }

  class DietApp {
    /** The catalog, built-ins first and registered foods after them. */
    var foods: seq<Food>
    /** The intake log keyed by date. */
    var log: Log

    ghost predicate Valid()
      reads this
    {
      WellFormed(foods)
    }

    /** A new session: the built-in catalog and the stored log, empty when there is none. */
    constructor (stored: Option<Log>)
      ensures Valid()
      ensures foods == DefaultFoods()
      ensures log == LoadLog(stored)
    {
      foods := DefaultFoods();
      log := LoadLog(stored);
    }

    /** The recommended meals: the allergen-free foods dealt round-robin into breakfast, lunch and dinner. */
    method Recommend(allergies: seq<string>) returns (breakfast: seq<Food>, lunch: seq<Food>, dinner: seq<Food>)
      requires Valid()
      ensures breakfast == Slot(FilterAllergens(foods, allergies), Breakfast)
      ensures lunch == Slot(FilterAllergens(foods, allergies), Lunch)
      ensures dinner == Slot(FilterAllergens(foods, allergies), Dinner)
      ensures forall f :: f in breakfast || f in lunch || f in dinner <==> f in foods && Safe(f, allergies)
    {
      var filtered := FilterAllergens(foods, allergies);
      breakfast, lunch, dinner := SplitMeals(filtered);
      forall f ensures f in breakfast || f in lunch || f in dinner <==> f in foods && Safe(f, allergies) {
        assert f in breakfast || f in lunch || f in dinner <==> f in multiset(filtered);
        FilterMembership(foods, allergies, f);
      }
    }

    /** Registers a food from its macronutrients; the record goes at the end, duplicates by name included. */
    method RegisterFood(name: string, carbs: real, protein: real, fat: real, allergens: seq<string>)
      requires Valid()
      requires 0.0 <= carbs <= 200.0 && 0.0 <= protein <= 100.0 && 0.0 <= fat <= 100.0
      modifies this
      ensures Valid()
      ensures foods == old(foods) + [NewFood(name, carbs, protein, fat, allergens)]
      ensures log == old(log)
    {
      foods := foods + [NewFood(name, carbs, protein, fat, allergens)];
    }

    /** Computes today's intake from the selected names and saves it under `today`, replacing that date's entry. */
    method SaveToday(today: Date, selected: seq<string>) returns (intake: real)
      requires Valid()
      modifies this
      ensures Valid()
      ensures intake == Intake(foods, selected) && intake >= 0.0
      ensures foods == old(foods)
      ensures log == Record(old(log), today, Entry(selected, intake))
    {
      intake := Intake(foods, selected);
      log := Record(log, today, Entry(selected, intake));
    }
  }
}
