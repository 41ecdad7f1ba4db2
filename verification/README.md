# Health dashboard computation core, in Dafny

This project models the computations behind the health dashboard in
`newback.py`, leaving out the Streamlit pages and file handling around them:

- **Profile targets** (`save_profile`): Mifflin–St Jeor BMR, an activity
  multiplier chosen by the first word of the activity label, and a goal table
  of calorie offsets and macro splits. From these it derives the calorie and
  protein targets.
- **Effective hydration** (`HYDRATION_FACTORS`, `log_beverage_advanced`): a
  drink's volume scaled by the factor for its beverage.
- **Logging streak** (`calculate_streak`): the count of consecutive logged days
  ending today, or ending yesterday when today has no entry yet.
- **Smart insights** (`generate_smart_insights`): five rules (calorie balance,
  breakfast protein, hydration, exercise recency, late snacking), checked in
  that order. A default message appears when none of them fires.
- **Meal plan** (`generate_meal_plan`): per day, four meal slots, each with a
  share of the calorie target. Each slot gets a food whose serving is within
  150 kcal of its share when some row is, otherwise any row, and a quantity
  scaled toward the share.

## Modules

- `Wrappers`: `Option` and `Result`.
- `Seqs`: boolean-mask selection and column sums.
- `Numeric`: Python's numeric helpers as the dashboard uses them.
  - `int()` truncates toward zero.
  - `round()` rounds half to even.
  - `max(lo, min(x, hi))` clamps.
  - Two facts about real arithmetic the proofs share: scaling by a bounded
    factor, and comparing a mean with a bound.
- `Text`: two string operations.
  - `str.split()[0]`, using Python's whitespace set.
  - Python's string `<`, plus the fact that on `HH:MM:SS` texts it is clock order.
- `Logs`: the rows of the food, exercise and water logs.
  - Each date cell is a day number, or `None` when its text does not parse.
- `Profiles`, `Hydration`, `Streak`, `Insights`, `MealPlan`: the five computations above.

The clock is a parameter: today's day number, plus the microseconds since
midnight. The random `sample(1)` of the meal planner is an oracle argument.
It gives one number per day and slot, and the number's remainder modulo the
candidate count picks the row, so every candidate can be picked.

Two facts about `save_profile` that a reader might not expect:

- **Macro triple order.** The goal table's tuples are (carbs, protein, fat),
  and the protein target uses `macros[1]` (newback.py:79).
- **Worked example.** For a 70 kg, 170 cm, 25-year-old male at "Sedentary",
  the formula gives 1642.5 kcal BMR and 1971.0 TDEE
  (`Profiles.SedentaryMaleExample`). With the weight-loss goal that becomes
  1471 kcal and 147 g protein (`Profiles.WeightLossExample`).

## Model

| member | source | states |
|---|---|---|
| Profiles.BmrCoefficients | newback.py:60-64 | Mifflin–St Jeor's coefficients: +10 kcal per kg, +6.25 per cm, −5 per year, and a constant of +5 for "Male" and −161 for every other gender value. |
| Profiles.BmrGenderGap | newback.py:60-64 | For equal weight, height and age, the "Male" BMR exceeds the BMR of any other gender value by exactly 166 kcal (+5 against −161). |
| Profiles.ActivityFactor | newback.py:66-67 | Every activity multiplier, known word or fallback, lies between 1.2 and 1.9. |
| Profiles.TdeeForWord | newback.py:66-67 | TDEE lies between 1.2× and 1.9× the BMR (reversed for a negative BMR); a first word missing from the table gives exactly 1.2× BMR. |
| Profiles.Tdee | newback.py:66-67 | Fails (the IndexError of `split()[0]`) exactly when the activity label is all whitespace; otherwise bounded by 1.2× and 1.9× BMR. |
| Profiles.ActivityByFirstWord | newback.py:66-67 | Whatever whitespace precedes a label's first word and whatever follows it, TDEE is BMR times that word's multiplier. |
| Profiles.ActivityTdee | newback.py:66-67 | A label whose `split()[0]` is a given word gets BMR times that word's multiplier. |
| Profiles.LightlyLabel | newback.py:448 | The offered label "Lightly Active" splits to "Lightly". |
| Profiles.LightlyActiveExample | newback.py:66-67 | A label read as "Lightly" gets the multiplier 1.375, and "Lightly Active" is such a label. |
| Profiles.UnmatchedActivityIsSedentary | newback.py:66-67 | Any label whose first word is not a table key gets TDEE = 1.2 × BMR, whatever precedes or follows the word. |
| Profiles.OfficeLabelIsSedentary | newback.py:448 | The offered label "Sedentary (Office)" splits to the key "Sedentary". |
| Profiles.PlanFor | newback.py:69-77 | Every goal's macro split sums to 100 %, with carbs at least protein; the calorie offset lies in [−500, 500]. |
| Profiles.TargetsFor | newback.py:79-84 | Calorie target is `int()` of TDEE plus the offset (within 1 kcal, truncated toward zero); protein grams are the protein share over 4 kcal/g, truncated toward zero, for a negative target too; water and split are carried unchanged. |
| Profiles.SaveProfile | newback.py:59-86 | Fails exactly on a blank activity label; otherwise echoes every input, sets start and current weight to the entered weight, keeps the water goal, and carries the targets computed from the BMR, the activity multiplier and the goal. |
| Profiles.NegativeTargetExample | app.py:28-31 | The lowest-BMR female the form allows (30 kg, 100 cm, 100 years), sedentary and losing weight: BMR 264, TDEE 316.8, target −183 kcal and −18 g protein. |
| Profiles.SedentaryMaleExample | newback.py:60-67 | Male, 70 kg, 170 cm, 25 y, sedentary: BMR 1642.5, TDEE 1971.0. |
| Profiles.WeightLossTargets | newback.py:69-84 | From TDEE 1971 with "Weight Loss": 1471 kcal, 147 g protein, split (40, 40, 20). |
| Profiles.WeightLossExample | newback.py:59-86 | The whole saved profile for that person and goal. |
| Hydration.Factor | newback.py:21-24 | Every beverage factor lies in [0.8, 1.0]. |
| Hydration.EffectiveVolume | newback.py:117-119 | Effective volume is between 80 % and 100 % of the volume; an unlisted beverage counts fully. |
| Hydration.LogBeverage | newback.py:117-123 | The appended row keeps date, time, beverage and volume, and its effective column is the volume times the beverage's factor, so in [0, volume] for a non-negative volume. |
| Hydration.CoffeeExample | newback.py:21-24 | 250 ml of coffee counts as 225 ml. |
| Hydration.EffectiveVolumeMonotone | newback.py:117-119 | More of the same drink never counts as less. |
| Text.FirstWord | newback.py:67 | `split()[0]`: absent exactly when the text is all whitespace; otherwise a non-empty word without whitespace, preceded only by whitespace and followed by whitespace or the end. |
| Text.FirstWordOfLabel | newback.py:67 | Any whitespace, a word, then whitespace or the end: the first word is that word. |
| Text.LexLessIrreflexive | newback.py:639 | No time text sorts above itself. |
| Text.ClockTextOrder | newback.py:639 | On zero-padded `HH:MM:SS` texts, string order is the order of the seconds since midnight. |
| Insights.LateMeansAfterTen | newback.py:639 | A food time compares above "22:00:00" exactly when it is later than 22:00:00 on the clock. |
| Insights.RecentWindow | newback.py:589 | A day is recent exactly when it is today − 2 or later, future days included; today − 3 counts only at exact midnight. |
| Insights.CalorieRule | newback.py:587-603 | Exactly one calorie message when recent food exists, none otherwise. |
| Insights.CalorieRuleCondition | newback.py:592-603 | High-calorie, under-eating and on-track each fire exactly when the per-day mean of recent intake is more than 500 above target, more than 500 below, or within ±500. |
| Insights.ProteinRule | newback.py:606-613 | At most one message, and only the breakfast-protein one. |
| Insights.DrinkCountsToday | newback.py:618 | A drink logged today adds exactly its effective volume (volume × factor) to the water counted for today. |
| Insights.HydrationRule | newback.py:616-624 | At most one message, and only the dehydration one. |
| Insights.ExerciseRule | newback.py:627-634 | At most one message, and only the get-moving one. |
| Insights.LateRule | newback.py:637-642 | At most one message, and only the late-snacking one. |
| Insights.ProteinRuleCondition | newback.py:606-613 | The protein message fires exactly when breakfasts exist and they average under 15 g of protein. |
| Insights.LatestDay | newback.py:629 | The latest dated workout: a date in the log that no other date exceeds; absent only when nothing is dated. |
| Insights.ExerciseRuleCondition | newback.py:627-634 | The exercise message fires exactly when workouts exist and all are more than three days old. |
| Insights.LateHour | newback.py:622 | `hour > 18` holds exactly from 19:00:00 on. |
| Insights.Fired | newback.py:586-642 | The rule messages come out in rule order, each from rules 1 to 5. |
| Insights.GenerateInsights | newback.py:574-647 | Without a profile, only the create-profile prompt. An unparsable date fails exactly when a profile exists. Otherwise the output is non-empty and in rule order, never asks for a profile, and holds the default message only as the sole message. |
| Insights.SavedProfileOutput | newback.py:586-645 | With a profile, each non-default message is present exactly when its rule produced it. |
| Insights.CalorieMessages | newback.py:587-603 | Each calorie message is in the output exactly under its intake condition. |
| Insights.OneCalorieVerdict | newback.py:591-603 | At most one calorie verdict, and one exactly when recent food exists. |
| Insights.FoodMessages | newback.py:606-642 | Protein-boost and late-snacking messages appear exactly under their conditions. |
| Insights.ActivityMessages | newback.py:616-634 | Dehydration and get-moving messages appear exactly under their conditions: water log present, 19:00 or later, under half the goal drunk today; all workouts older than three days. |
| Insights.DefaultMessage | newback.py:644-645 | The default message appears exactly when no rule's condition holds. |
| Insights.HighIntakeExample | newback.py:592-598 | Averaging 600 kcal over target draws the high-calorie alert and neither other verdict. |
| Streak.RunEndingAt | newback.py:521-523 | The walk-back count: every day of the run is logged and the day before it is not. |
| Streak.StreakFrom | newback.py:513-524 | Zero exactly when neither today nor yesterday is logged; otherwise the full run ending at the anchor day. |
| Streak.Streak | newback.py:500-524 | The same, over a log's parsed dates; never more than the number of distinct logged days. |
| Streak.CollectDates | newback.py:505-506 | The loop collects exactly the set of days whose cells parse. |
| Streak.WalkBack | newback.py:521-523 | The loop computes the run ending at the anchor day. |
| Streak.CalculateStreak | newback.py:500-524 | The imperative procedure equals the functional streak on every log and day. |
| Streak.RunUnique | newback.py:521-523 | A run is determined by its present days and the absent day before it. |
| Streak.ValidDatesAppend | newback.py:505-506 | Appending a row adds its day, if it parses, to the logged days. |
| Streak.StreakLoggingToday | newback.py:500-524 | Logging food today adds one to the streak unless today was already logged. |
| Streak.AddingToday | newback.py:514-523 | The same on sets of days. |
| Streak.StreakIgnoresDuplicates | newback.py:506 | A repeated date does not change the streak. |
| Streak.StreakIgnoresUnparsable | newback.py:505-506 | A cell that does not parse does not change the streak. |
| Streak.StreakStopsAtGap | newback.py:521-523 | An unlogged day before today caps the streak at the days after it. |
| Streak.ThreeDayExample | newback.py:500-524 | Entries for today and the two days before give a streak of three. |
| Numeric.Trunc | newback.py:79 | `int()` truncates toward zero: within one unit of its argument on the side of zero. |
| Numeric.RoundHalfEven | newback.py:314 | Python `round`: within 0.5 of the argument, with ties going to the even integer. |
| Numeric.RoundHalfEvenNearest | newback.py:314 | An integer strictly within 0.5 is the rounded result. |
| Numeric.Clamp | newback.py:314 | `max(lo, min(x, hi))` lies in [lo, hi] and is `x` when `x` already does. |
| MealPlan.DietFilter | newback.py:296-297 | A vegetarian's table holds only rows tagged "Veg", all from the table; any other preference keeps the table. |
| MealPlan.VegetarianKeepsVeg | newback.py:296-297 | No "Veg" row is dropped for a vegetarian. |
| MealPlan.BudgetsSumToTarget | newback.py:294 | The four slot budgets add up to the daily target. |
| MealPlan.Candidates | newback.py:308-311 | Candidates are rows of the table, non-empty for a non-empty table, all within 150 kcal of the budget when any row is; the whole table when none is. |
| MealPlan.CandidatesKeepBand | newback.py:309-310 | Every row within 150 kcal of the budget is a candidate, so the oracle can reach each one. |
| MealPlan.Quantity | newback.py:314 | The quantity is 0.5 to 3.0 servings, in tenths. Within 0.05 servings of `budget / cps` when that ratio is in [0.5, 3.0]; 3.0 above it, 0.5 below it. |
| MealPlan.OneServing | newback.py:315 | Ten tenths of a serving count the row's calories per serving, truncated. |
| MealPlan.Serve | newback.py:307-321 | A served meal names its slot, uses a row of the table, serves the clamped, rounded quantity that brings that row nearest the slot's budget, truncates its kcal, stays in band whenever a row is, and uses the oracle's row when the pick is in range. |
| MealPlan.PlanDay | newback.py:305-322 | A day holds the four slots in order, each well served, with a total equal to the sum of their kcal. |
| MealPlan.TotalOfFour | newback.py:321 | The running total of four meals is their sum. |
| MealPlan.PlanDays | newback.py:304-322 | One day per oracle entry, numbered consecutively, each well planned. |
| MealPlan.PlannedFromIndex | newback.py:304-322 | Day `d` of the plan is day `first + d` and is well planned. |
| MealPlan.GeneratePlan | newback.py:292-323 | Fails (sampling an empty table) exactly when days are requested and the diet leaves no rows. Otherwise day `d` is "Day d+1", and every day is well planned from the filtered table. |
| MealPlan.PlanDrawsFromTable | newback.py:296-318 | Every planned meal is a table row; for a vegetarian every one is tagged "Veg". |
| Seqs.Filter | newback.py:608 | A mask selection keeps only matching rows, all from the input, in at most as many rows. |
| Seqs.FilterAppend | newback.py:608 | Selecting from a table with one more row gives the earlier selection followed by that row exactly when it matches: order and multiplicity are kept. |
| Seqs.SumAppend | newback.py:618 | A column sum over one more row adds that row's entry. |
| Seqs.FilterKeeps | newback.py:608 | A mask selection drops no matching row. |

## Left out

- File I/O and start-up: the CSV and JSON reads and writes (`load_data_safe`, `log_data`, `initialize_databases`, `load_all_databases`). An absent log and an empty log both become the empty sequence.
- `save_profile`'s weight-log seeding: it is only a file write.
- `load_profile`'s migration of old profiles: it adds `Start_Weight` and `Current_Weight` from `Weight` (default 70) and rewrites the file. A profile saved by `save_profile` already has both keys, so no field the model reads changes.
- The Streamlit pages (`show_*`) and `app.py`: they are user interface.
- `get_simple_streak`: it reads an undefined variable, so it cannot complete.
- `get_daily_stats`, `generate_nutrition_plan`, diet keyword tagging and weekly resampling are not part of this model.
- Numeric.RoundHalfEven: rounds exact reals, so binary floating-point representation error in `round(x, 1)` and in `int(cps * qty)` is not modelled. The same holds for every real-valued quantity (`Numeric.Trunc`, `MealPlan.Quantity`, `Profiles.TargetsFor`).
- Insights.GenerateInsights: empty (NaN) cells are not modelled. A date cell is either a day or text that does not parse, and numeric cells always hold numbers, so pandas' skipping of NaN in `mean`, `sum` and `max` does not arise.
- MealPlan.GeneratePlan: the goal's pre-sort is dropped. Sampling is the oracle, so ordering does not restrict which rows can be picked.
- MealPlan.GeneratePlan: requires non-zero calories per serving in the rows the diet keeps. Division by a zero `Calories per Serving` (numpy infinity) is outside the model.
- MealPlan.Serve: the oracle reduces any number modulo the candidate count. It stands for `sample(1)`; randomness itself is not modelled.
- MealPlan.Quantity: the kcal of an unclamped serving lies within cps/20 (+1) of its budget, but that bound is not stated as a separate lemma. It follows from `Quantity`'s 0.05-serving bound.
- Streak.CalculateStreak: takes today's day number as a parameter instead of reading the clock.
- Insights.GenerateInsights: takes today's day number and the time of day as one parameter. `generate_smart_insights` reads `datetime.now()` separately for the recent window, today's water, the hour test and the workout age (newback.py:589, 618, 622, 630). The model takes all four reads at one instant, so a run that crosses midnight or an hour boundary is not modelled.
