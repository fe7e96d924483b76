# Personal diet planner — verified model of the calculation core

This project models the calculation logic of a single-screen diet-planning app
(`app.py`). The app:

- computes a daily calorie target from age, sex, height and weight (Mifflin–St Jeor BMR plus a goal offset);
- drops the foods in its catalog that carry one of the user's allergens;
- deals the remaining foods round-robin into breakfast, lunch and dinner suggestions;
- lets the user register a food from its macronutrients;
- sums the calories of the foods eaten today and stores them in a date-keyed log;
- shows the last seven logged days with their average.

The widget values and `st.session_state` become explicit parameters and object fields:

- the catalog is a `seq<Food>`;
- the log is a `map<Date, Entry>`;
- "today" is a parameter.

A date is its day number. ISO `YYYY-MM-DD` strings sort in the same order as those numbers, so the log's `sorted(keys)` becomes integer order. Calorie and protein values are `real`. The BMR inputs are whole numbers and 6.25 is exact, so the BMR is computed exactly.

Modules, one per component of the script:

- `Biometrics` (`biometrics.dfy`): `calculate_bmr` and `get_calorie_goal`.
- `Catalog` (`catalog.dfy`): the food record, the allergen filter, the macronutrient calorie formula and the intake sum.
- `Meals` (`meals.dfy`): the mod-3 meal split. `SplitMeals` is a loop proved against the specification function `Slot`.
- `Ledger` (`ledger.dfy`): the date-keyed log, the overwrite by date, the seven-day window and its average.
- `App` (`app.dfy`): the built-in catalog and the class `DietApp`. `DietApp` holds the catalog and the log and updates them in place: it registers foods, saves today's intake and builds the recommendations.

Facts about `app.py` that the model makes explicit:

- For 70 kg, 170 cm and 25 years, `calculate_bmr` gives 1642.5 kcal for "남성" and 1476.5 kcal for any other value, 166 kcal apart (`BmrDefaults`, `BmrGenderGap`).
- The intake counts every catalog record whose name is selected, so records sharing a name are all counted (`IntakeAppend`, `IntakeIsTotalOfMatching`, `MatchingCounts`).
- The meal suggestion is the deterministic split of the filtered catalog by position mod 3.

## Model

| member | source | states |
|---|---|---|
| Biometrics.Bmr | app.py:26-30 | for inputs inside the sidebar ranges (app.py:56-59) the BMR lies between 264 and 3517.5 kcal |
| Biometrics.BmrGenderGap | app.py:26-30 | for any value other than "남성", the male formula exceeds the other one by exactly 166 kcal |
| Biometrics.BmrSlopes | app.py:26-30 | one more kg adds 10 kcal, one more cm adds 6.25 kcal, one more year removes 5 kcal |
| Biometrics.BmrDefaults | app.py:26-30 | the default inputs 70 kg / 170 cm / 25 y give 1642.5 kcal (male) and 1476.5 kcal (female) |
| Biometrics.CalorieGoal | app.py:33-39 | "다이어트" gives bmr − 300, "근육 증가" gives bmr + 300, any other goal string gives bmr unchanged |
| Biometrics.CalorieGoalOrder | app.py:33-39 | for one BMR, the diet, maintain and muscle-gain targets are 300 kcal apart in that order |
| Catalog.FilterAllergens | app.py:82 | the filtered list is no longer than the catalog, and each kept record comes from the catalog and shares no allergen with the user |
| Catalog.FilterMembership | app.py:82 | a record is kept if and only if it is in the catalog and none of the user's allergies is among its tags |
| Catalog.FilterCounts | app.py:82 | every safe record is kept as many times as it occurs; every record sharing an allergen is dropped entirely |
| Catalog.FilterAppend | app.py:82 | the filter of a concatenation is the concatenation of the filters, so catalog order is preserved |
| Catalog.FilterAllSafe | app.py:82 | a catalog already free of the allergies passes the filter unchanged |
| Catalog.FilterIdempotent | app.py:82 | filtering twice with the same allergies equals filtering once |
| Catalog.MacroCalories | app.py:101-106 | macronutrient calories are non-negative for non-negative grams and at most 2100 kcal within the form's bounds |
| Catalog.NewFood | app.py:106-114 | the registered record keeps the given name, protein and allergens and has calories 4·carbs + 4·protein + 9·fat |
| Catalog.Matching | app.py:124 | each record it returns is a catalog record whose name is in the selection |
| Catalog.MatchingCounts | app.py:124 | every catalog record whose name is selected is returned exactly as often as it occurs in the catalog, and no other record is |
| Catalog.Intake | app.py:124 | an empty selection gives 0; on a well-formed catalog the intake lies between 0 and the catalog total |
| Catalog.IntakeIsTotalOfMatching | app.py:124 | the intake equals the calorie total of the catalog records whose name is selected |
| Catalog.IntakeAppend | app.py:124 | intake over a concatenation is the sum of the intakes, so every record with a selected name is counted, duplicates included |
| Catalog.IntakeAllSelected | app.py:124 | when every record's name is selected, the intake is the calorie total of the catalog |
| Catalog.IntakeNoneSelected | app.py:124 | when no record's name is selected, the intake is 0 |
| Catalog.IntakeAfterRegister | app.py:115-124 | appending a record adds its calories to the intake exactly when its name is selected |
| Meals.SlotAt | app.py:85-91 | slot k (k < 3) holds ceil((n − k)/3) foods, and its j-th food is the filtered food at position 3j + k |
| Meals.IndexLandsInItsSlot | app.py:85-91 | the filtered food at position i is the (i / 3)-th food of slot i mod 3 |
| Meals.SlotsPartition | app.py:85-91 | breakfast, lunch and dinner together hold every filtered food exactly as often as the filtered list does |
| Meals.SlotSizes | app.py:85-91 | slot sizes are non-increasing from breakfast to dinner and differ by at most one |
| Meals.SplitMeals | app.py:85-91 | the loop produces exactly the three slots, and together they are a permutation of the filtered list |
| Ledger.LoadLog | app.py:42-47 | a missing or unreadable store reads as the empty log; otherwise the stored log is returned |
| Ledger.Record | app.py:129 | the new log maps today to the new entry, has the old dates plus today, and keeps every other date's entry |
| Ledger.RecordTwice | app.py:129 | saving twice on the same date equals saving only the second entry |
| Ledger.RecordSize | app.py:129 | saving adds one date when today was not logged and none otherwise |
| Ledger.SortedDates | app.py:136 | the sorted keys are strictly ascending and hold exactly the given dates |
| Ledger.Window | app.py:136 | the window has min(7, number of dates) dates in ascending order; all are logged, and every logged date left out is older than every date in the window |
| Ledger.WindowNonEmpty | app.py:134-136 | a non-empty log gives a non-empty window |
| Ledger.Intakes | app.py:137 | one intake per window date, the one logged for that date |
| Ledger.AverageBetween | app.py:148 | the average of a non-empty list of intakes lies between its minimum and its maximum |
| Ledger.WeeklySummary | app.py:133-148 | no chart when the log is empty; otherwise the window dates, their logged intakes (at least one) and their average Sum/count, which lies between the smallest and largest of them |
| App.DefaultFoods | app.py:11-21 | the session starts with eight built-in foods, all with non-negative calories and protein |
| App.MilkSafety | app.py:12-21 | among the built-ins, only milk and Greek yogurt carry the milk allergen |
| App.MilkAllergyOnDefaults | app.py:82 | a milk allergy removes milk and Greek yogurt and keeps the other six built-ins in order, including tofu (soy) and egg |
| App.DietApp.constructor | app.py:11-23 | a new session holds the built-in catalog and the stored log, which is empty when there is no store |
| App.DietApp.Recommend | app.py:82-91 | breakfast, lunch and dinner are the three slots of the filtered catalog; a food appears in one of them if and only if it is in the catalog and allergen-safe |
| App.DietApp.RegisterFood | app.py:106-115 | exactly one record is appended at the end with the macronutrient calories; earlier records and the log are unchanged, and duplicate names are accepted |
| App.DietApp.SaveToday | app.py:123-130 | the intake is the selected-name sum (non-negative), the catalog is unchanged, and the log entry for today is set or overwritten with the selection and the intake |

## Left out

- Streamlit page setup, sidebar widgets, buttons and messages (app.py:7-8, 55-67, 94-96, 99-104, 116, 119-121, 125). These are the user interface. Their values are parameters of the model. The widget bounds appear only as the ranges in the postconditions of `Bmr` and `MacroCalories` and in `RegisterFood`'s precondition.
- Chart drawing with matplotlib (app.py:139-146). This is rendering; `WeeklySummary` gives the data the chart shows.
- Reading and writing `meals_log.json` (app.py:42-52, 128, 130, 133). This is file I/O. The log is an in-memory map held by `DietApp`. `LoadLog` models the store's result: a missing or unreadable store gives the empty map.
- `datetime.date.today()` (app.py:127). This is a clock; today's date is a parameter of `SaveToday`.
- Persistence of the catalog across Streamlit reruns (app.py:11-23). This is framework behaviour; the catalog is a field of `DietApp`.
- The free-text custom allergen and the unused health-status input (app.py:62-66). They only feed the widget options.
- App.DietApp.RegisterFood: stores calories and protein unrounded. The source stores `round(x, 1)` of each (app.py:111-112), which is float display rounding.
- Ledger.WeeklySummary: gives the exact average. The source displays it truncated with `int(...)` (app.py:149), and likewise the calorie target (app.py:71).
