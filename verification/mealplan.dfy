/**
 * The meal-plan generator (`generate_meal_plan`): for each day and each meal
 * slot, pick a food whose calories per serving lie within 150 kcal of the
 * slot's budget (any food when none does), and scale its quantity toward the
 * budget. The random `sample(1)` is an oracle: the caller supplies, for every
 * day and slot, a number whose remainder modulo the number of candidates is
 * the index of the row picked, so every candidate can be picked.
 */
module MealPlan {
  import opened Wrappers
  import opened Seqs
  import opened Numeric

  datatype Meal = Breakfast | Lunch | Dinner | Snack

  /** The slots of a day, in the order the plan lists them. */
  const Meals: seq<Meal> := [Breakfast, Lunch, Dinner, Snack]

  /** Each slot's share of the daily calorie target. */
  function Share(m: Meal): real
  {
    match m
    case Breakfast => 0.25
    case Lunch => 0.35
    case Dinner => 0.30
    case Snack => 0.10
  }

  /** A row of the food reference table; `cps` is calories per serving. */
  datatype Food = Food(name: string, cps: real, protein: real, diet: string, unit: string)

  /** One planned meal: the picked row, its quantity in tenths of a serving, its whole kcal. */
  datatype Serving = Serving(meal: Meal, food: Food, tenths: int, cals: int)

  /** Day `day` of the plan ("Day 1", "Day 2", ...), its four meals and their kcal total. */
  datatype DayPlan = DayPlan(day: int, meals: seq<Serving>, total: int)

  /** `sample(1)` on an empty table raises ValueError. */
  datatype PlanError = NoFoodToSample

  predicate NonZeroCps(foods: seq<Food>)
  {
    forall i | 0 <= i < |foods| :: foods[i].cps != 0.0
  }

  /** The table the plan draws from: only rows tagged "Veg" for a vegetarian. */
  function DietFilter(table: seq<Food>, pref: string): (r: seq<Food>)
    ensures forall i | 0 <= i < |r| :: r[i] in table
    ensures pref == "Vegetarian" ==> forall i | 0 <= i < |r| :: r[i].diet == "Veg"
    ensures pref != "Vegetarian" ==> r == table
  {
    if pref == "Vegetarian" then Filter(table, (f: Food) => f.diet == "Veg") else table
  }

  /** A vegetarian's table keeps every row tagged "Veg". */
  lemma VegetarianKeepsVeg(table: seq<Food>)
    ensures forall i | 0 <= i < |table| :: table[i].diet == "Veg" ==>
      table[i] in DietFilter(table, "Vegetarian")
  {
    FilterKeeps(table, (f: Food) => f.diet == "Veg");
  }

  function Budget(target: int, m: Meal): real
  {
    target as real * Share(m)
  }

  /** The four slot budgets add up to the daily target. */
  lemma BudgetsSumToTarget(target: int)
    ensures Budget(target, Breakfast) + Budget(target, Lunch) + Budget(target, Dinner)
      + Budget(target, Snack) == target as real
  {
  }

  /** Calories per serving within 150 kcal of the budget, both ends included. */
  predicate InBand(f: Food, budget: real)
  {
    budget - 150.0 <= f.cps <= budget + 150.0
  }

  /** Some row of the table lies in the band. */
  predicate AnyInBand(foods: seq<Food>, budget: real)
  {
    exists i | 0 <= i < |foods| :: InBand(foods[i], budget)
  }

  /** The rows a slot samples from: those in the band, or every row when none is. */
  function Candidates(foods: seq<Food>, budget: real): (c: seq<Food>)
    ensures forall i | 0 <= i < |c| :: c[i] in foods
    ensures |foods| > 0 ==> |c| > 0
    ensures AnyInBand(foods, budget) ==>
      forall i | 0 <= i < |c| :: InBand(c[i], budget)
    ensures (forall i | 0 <= i < |foods| :: !InBand(foods[i], budget)) ==> c == foods
  {
    var band := Filter(foods, (f: Food) => InBand(f, budget));
    assert AnyInBand(foods, budget) ==> |band| > 0 by {
      FilterKeeps(foods, (f: Food) => InBand(f, budget));
    }
    if |band| == 0 then foods
    else
      assert band[0] in foods;
      band
  }

  /** No row in the band is left out of the candidates. */
  lemma CandidatesKeepBand(foods: seq<Food>, budget: real)
    ensures forall i | 0 <= i < |foods| && InBand(foods[i], budget) ::
      foods[i] in Candidates(foods, budget)
  {
    FilterKeeps(foods, (f: Food) => InBand(f, budget));
  }

  /**
   * Servings, in tenths, that bring a row nearest the budget: `budget / cps`
   * rounded to one decimal, then clamped to [0.5, 3.0].
   */
  function Quantity(budget: real, cps: real): (q: int)
    requires cps != 0.0
    ensures 5 <= q <= 30
    ensures 0.5 <= budget / cps <= 3.0 ==> -0.05 <= q as real / 10.0 - budget / cps <= 0.05
    ensures budget / cps >= 3.0 ==> q == 30
    ensures budget / cps <= 0.5 ==> q == 5
  {
    Clamp(5, RoundHalfEven(10.0 * (budget / cps)), 30)
  }

  /** Whole kcal of `tenths` tenths of a serving of `f`, truncated as `int()` does. */
  function Cals(f: Food, tenths: int): int
  {
    Trunc(f.cps * (tenths as real / 10.0))
  }

  /** A whole serving, ten tenths, counts the row's calories per serving, truncated. */
  lemma OneServing(f: Food)
    ensures Cals(f, 10) == Trunc(f.cps)
  {
  }

  /**
   * What every planned meal satisfies: the slot, a row of the table, the
   * quantity that brings that row nearest the slot's budget, its calories
   * truncated to whole kcal, and a row in the slot's band whenever the table
   * has one.
   */
  predicate WellServed(s: Serving, foods: seq<Food>, target: int, m: Meal)
  {
    && s.meal == m
    && s.food in foods
    && s.food.cps != 0.0
    && s.tenths == Quantity(Budget(target, m), s.food.cps)
    && s.cals == Cals(s.food, s.tenths)
    && (AnyInBand(foods, Budget(target, m)) ==>
          InBand(s.food, Budget(target, m)))
  }

  /** The meal for slot `m` when the oracle picks candidate `pick`. */
  function Serve(foods: seq<Food>, target: int, m: Meal, pick: nat): (s: Serving)
    requires |foods| > 0 && NonZeroCps(foods)
    ensures WellServed(s, foods, target, m)
    ensures var c := Candidates(foods, Budget(target, m)); pick < |c| ==> s.food == c[pick]
  {
    var budget := Budget(target, m);
    var c := Candidates(foods, budget);
    var f := c[if pick < |c| then pick else pick % |c|];
    assert f in foods;
    assert f.cps != 0.0;
    var q := Quantity(budget, f.cps);
    assert AnyInBand(foods, budget) ==> InBand(f, budget);
    Serving(m, f, q, Cals(f, q))
  }

  /** The kcal of a day's meals, summed in order. */
  function TotalCals(meals: seq<Serving>): int
  {
    if |meals| == 0 then 0 else meals[0].cals + TotalCals(meals[1..])
  }

  lemma TotalOfFour(a: Serving, b: Serving, c: Serving, d: Serving)
    ensures TotalCals([a, b, c, d]) == a.cals + b.cals + c.cals + d.cals
  {
    assert [d][1..] == [];
    assert TotalCals([d]) == d.cals;
    assert [c, d][1..] == [d];
    assert TotalCals([c, d]) == c.cals + d.cals;
    assert [b, c, d][1..] == [c, d];
    assert TotalCals([b, c, d]) == b.cals + c.cals + d.cals;
    assert [a, b, c, d][1..] == [b, c, d];
  }

  /** What every planned day satisfies, stated without reference to the oracle. */
  predicate WellPlanned(d: DayPlan, foods: seq<Food>, target: int)
  {
    && |d.meals| == 4
    && d.total == TotalCals(d.meals)
    && WellServed(d.meals[0], foods, target, Breakfast)
    && WellServed(d.meals[1], foods, target, Lunch)
    && WellServed(d.meals[2], foods, target, Dinner)
    && WellServed(d.meals[3], foods, target, Snack)
  }

  /** Day `day` of the plan: breakfast, lunch, dinner and snack, and their total. */
  function PlanDay(foods: seq<Food>, target: int, day: int, picks: seq<nat>): (d: DayPlan)
    requires |foods| > 0 && NonZeroCps(foods) && |picks| == 4
    ensures d.day == day && WellPlanned(d, foods, target)
  {
    var b := Serve(foods, target, Breakfast, picks[0]);
    var l := Serve(foods, target, Lunch, picks[1]);
    var n := Serve(foods, target, Dinner, picks[2]);
    var s := Serve(foods, target, Snack, picks[3]);
    var meals := [b, l, n, s];
    TotalOfFour(b, l, n, s);
    DayPlan(day, meals, b.cals + l.cals + n.cals + s.cals)
  }

  /** Consecutive well-planned days numbered from `first`. */
  predicate PlannedFrom(r: seq<DayPlan>, foods: seq<Food>, target: int, first: int)
    decreases |r|
  {
    |r| == 0 ||
    (r[0].day == first && WellPlanned(r[0], foods, target) &&
     PlannedFrom(r[1..], foods, target, first + 1))
  }

  /** Day `d` of a plan numbered from `first` is day `first + d`, and well planned. */
  lemma {:induction false} PlannedFromIndex(r: seq<DayPlan>, foods: seq<Food>, target: int, first: int)
    requires PlannedFrom(r, foods, target, first)
    ensures forall d | 0 <= d < |r| :: r[d].day == first + d && WellPlanned(r[d], foods, target)
  {
    if |r| > 0 {
      PlannedFromIndex(r[1..], foods, target, first + 1);
      assert forall d | 1 <= d < |r| :: r[d] == r[1..][d - 1];
    }
  }

  /** Days `first`, `first + 1`, ... one per entry of `picks`. */
  function PlanDays(foods: seq<Food>, target: int, first: int, picks: seq<seq<nat>>)
    : (r: seq<DayPlan>)
    requires |picks| > 0 ==> |foods| > 0
    requires NonZeroCps(foods)
    requires forall d | 0 <= d < |picks| :: |picks[d]| == 4
    ensures |r| == |picks| && PlannedFrom(r, foods, target, first)
    decreases |picks|
  {
    if |picks| == 0 then []
    else
      var head := PlanDay(foods, target, first, picks[0]);
      var tail := PlanDays(foods, target, first + 1, picks[1..]);
      assert ([head] + tail)[1..] == tail;
      [head] + tail
  }

  /**
   * `generate_meal_plan` with the oracle's picks; the goal's pre-sort is left
   * out because it does not change which rows can be picked.
   */
  function GeneratePlan(table: seq<Food>, target: int, dietPref: string, days: int,
                        picks: seq<seq<nat>>): (r: Result<seq<DayPlan>, PlanError>)
    requires NonZeroCps(DietFilter(table, dietPref))
    requires |picks| == if days > 0 then days else 0
    requires forall d | 0 <= d < |picks| :: |picks[d]| == 4
    ensures r.Err? <==> days > 0 && |DietFilter(table, dietPref)| == 0
    ensures r.Ok? ==> |r.value| == |picks|
    ensures r.Ok? ==> forall d | 0 <= d < |r.value| ::
      r.value[d].day == d + 1 && WellPlanned(r.value[d], DietFilter(table, dietPref), target)
  {
    var foods := DietFilter(table, dietPref);
    if days > 0 && |foods| == 0 then Err(NoFoodToSample)
    else
      var plan := PlanDays(foods, target, 1, picks);
      PlannedFromIndex(plan, foods, target, 1);
      Ok(plan)
  }

  /** Every planned meal is a row of the table, and a vegetarian's are all tagged "Veg". */
  lemma PlanDrawsFromTable(table: seq<Food>, target: int, dietPref: string, days: int,
                           picks: seq<seq<nat>>)
    requires NonZeroCps(DietFilter(table, dietPref))
    requires |picks| == if days > 0 then days else 0
    requires forall d | 0 <= d < |picks| :: |picks[d]| == 4
    ensures var r := GeneratePlan(table, target, dietPref, days, picks);
      r.Ok? ==> forall d, k | 0 <= d < |r.value| && 0 <= k < |r.value[d].meals| ::
        && r.value[d].meals[k].food in table
        && (dietPref == "Vegetarian" ==> r.value[d].meals[k].food.diet == "Veg")
  {
    var r := GeneratePlan(table, target, dietPref, days, picks);
    var foods := DietFilter(table, dietPref);
    if r.Ok? {
      forall d, k | 0 <= d < |r.value| && 0 <= k < |r.value[d].meals|
        ensures r.value[d].meals[k].food in table
        ensures dietPref == "Vegetarian" ==> r.value[d].meals[k].food.diet == "Veg"
      {
        assert WellPlanned(r.value[d], foods, target);
        assert k == 0 || k == 1 || k == 2 || k == 3;
        assert r.value[d].meals[k].food in foods;
      }
    }
  }
}
