/**
 * The target calculator behind `save_profile`: Mifflin–St Jeor BMR, an
 * activity multiplier picked by the first word of the activity label, and a
 * goal table of calorie offsets and macro splits.
 */
module Profiles {
  import opened Wrappers
  import opened Numeric
  import Text

  /** Macro split in percent, in the source's tuple order (carbs, protein, fat). */
  datatype Macros = Macros(carbs: int, protein: int, fat: int)
  {
    function Total(): int { carbs + protein + fat }
  }

  /** The derived targets: integer kcal, integer protein grams, the water goal as entered. */
  datatype Targets = Targets(calories: int, protein: int, water: real, split: Macros)

  datatype Profile = Profile(
    name: string, age: real, gender: string, height: real,
    startWeight: real, currentWeight: real,
    activity: string, goal: string, targets: Targets)

  /** `activity.split()[0]` raises IndexError when the label holds no word. */
  datatype ProfileError = NoActivityWord

  /** Basal metabolic rate (Mifflin–St Jeor); every gender other than "Male" takes the female constant. */
  function Bmr(gender: string, weight: real, height: real, age: real): real
  {
    if gender == "Male" then 10.0 * weight + 6.25 * height - 5.0 * age + 5.0
    else 10.0 * weight + 6.25 * height - 5.0 * age - 161.0
  }

  /** The multiplier for each recognised first word of an activity label. */
  const ActivityFactors: map<string, real> :=
    map["Sedentary" := 1.2, "Lightly" := 1.375, "Moderately" := 1.55,
        "Very" := 1.725, "Super" := 1.9]

  /** The activity multiplier for a first word, the sedentary 1.2 when the word is not in the table. */
  function ActivityFactor(word: string): (f: real)
    ensures 1.2 <= f <= 1.9
  {
    if word in ActivityFactors then ActivityFactors[word] else 1.2
  }

  /** BMR scaled by the multiplier of an activity word. */
  function TdeeForWord(bmr: real, word: string): (t: real)
    ensures bmr >= 0.0 ==> 1.2 * bmr <= t <= 1.9 * bmr
    ensures bmr < 0.0 ==> 1.9 * bmr <= t <= 1.2 * bmr
    ensures word !in ActivityFactors ==> t == 1.2 * bmr
  {
    var f := ActivityFactor(word);
    ScaleBetween(bmr, f, 1.2, 1.9);
    bmr * f
  }

  /** Total daily energy expenditure: BMR times the multiplier of the label's first word. */
  function Tdee(bmr: real, activity: string): (r: Result<real, ProfileError>)
    ensures r.Err? <==> Text.AllSpace(activity)
    ensures r.Ok? && bmr >= 0.0 ==> 1.2 * bmr <= r.value <= 1.9 * bmr
    ensures r.Ok? && bmr < 0.0 ==> 1.9 * bmr <= r.value <= 1.2 * bmr
  {
    match Text.FirstWord(activity)
    case None => Err(NoActivityWord)
    case Some(word) => Ok(TdeeForWord(bmr, word))
  }

  /** A goal's calorie offset from TDEE and its macro split. */
  datatype GoalPlan = GoalPlan(offset: real, split: Macros)

  function PlanFor(goal: string): (g: GoalPlan)
    ensures g.split.Total() == 100
    ensures -500.0 <= g.offset <= 500.0
    ensures g.split.carbs >= g.split.protein
  {
    if goal == "Weight Loss" then GoalPlan(-500.0, Macros(40, 40, 20))
    else if goal == "Weight Gain" then GoalPlan(500.0, Macros(50, 25, 25))
    else if goal == "Muscle Gain" then GoalPlan(250.0, Macros(45, 35, 20))
    else GoalPlan(0.0, Macros(50, 20, 30))
  }

  /**
   * The targets for a TDEE and goal: the calorie target and the protein grams
   * (protein share of the target over 4 kcal per gram) truncated toward zero.
   */
  function TargetsFor(tdee: real, goal: string, water: real): (t: Targets)
    ensures t.water == water && t.split == PlanFor(goal).split
    ensures var target := tdee + PlanFor(goal).offset;
      target >= 0.0 ==> t.calories as real <= target < t.calories as real + 1.0
    ensures var target := tdee + PlanFor(goal).offset;
      target < 0.0 ==> t.calories as real - 1.0 < target <= t.calories as real
    ensures var target := tdee + PlanFor(goal).offset;
      target >= 0.0 ==>
        t.protein as real * 400.0 <= target * t.split.protein as real < (t.protein + 1) as real * 400.0
    ensures var target := tdee + PlanFor(goal).offset;
      target < 0.0 ==>
        (t.protein - 1) as real * 400.0 < target * t.split.protein as real <= t.protein as real * 400.0
  {
    var g := PlanFor(goal);
    var target := tdee + g.offset;
    Targets(Trunc(target), Trunc(target * (g.split.protein as real / 100.0) / 4.0), water, g.split)
  }

  /** `save_profile` without the file writes: the new profile record, or the IndexError. */
  function SaveProfile(
    name: string, age: real, gender: string, height: real, weight: real,
    activity: string, goal: string, water: real): (r: Result<Profile, ProfileError>)
    ensures r.Err? <==> Text.AllSpace(activity)
    ensures r.Ok? ==>
      && r.value.name == name && r.value.age == age && r.value.gender == gender
      && r.value.height == height && r.value.activity == activity && r.value.goal == goal
      && r.value.startWeight == weight && r.value.currentWeight == weight
      && r.value.targets.water == water && r.value.targets.split.Total() == 100
    ensures r.Ok? ==>
      r.value.targets == TargetsFor(Tdee(Bmr(gender, weight, height, age), activity).value, goal, water)
  {
    match Tdee(Bmr(gender, weight, height, age), activity)
    case Err(e) => Err(e)
    case Ok(tdee) =>
      Ok(Profile(name, age, gender, height, weight, weight, activity, goal,
                 TargetsFor(tdee, goal, water)))
  }

  /**
   * Each kilogram adds 10 kcal, each centimetre 6.25 kcal, and each year
   * takes 5 kcal away, for either gender constant.
   */
  lemma BmrCoefficients(gender: string, weight: real, height: real, age: real, d: real)
    ensures Bmr(gender, weight + d, height, age) - Bmr(gender, weight, height, age) == 10.0 * d
    ensures Bmr(gender, weight, height + d, age) - Bmr(gender, weight, height, age) == 6.25 * d
    ensures Bmr(gender, weight, height, age + d) - Bmr(gender, weight, height, age) == -5.0 * d
    ensures Bmr(gender, 0.0, 0.0, 0.0) == if gender == "Male" then 5.0 else -161.0
  {
  }

  /** For the same body measurements the male BMR exceeds the other one by 166 kcal. */
  lemma BmrGenderGap(other: string, weight: real, height: real, age: real)
    requires other != "Male"
    ensures Bmr("Male", weight, height, age) - Bmr(other, weight, height, age) == 166.0
  {
  }

  /** The multiplier applied to a label is the one for its first word, whatever surrounds it. */
  lemma ActivityByFirstWord(bmr: real, pre: string, word: string, rest: string)
    requires Text.AllSpace(pre) && word != [] && Text.NoSpace(word) && Text.Separated(rest)
    ensures Tdee(bmr, pre + word + rest) == Ok(bmr * ActivityFactor(word))
  {
    Text.FirstWordOfLabel(pre, word, rest);
  }

  /** A label whose first word is known gets that word's multiplier. */
  lemma ActivityTdee(bmr: real, act: string, word: string)
    requires Text.FirstWord(act) == Some(word)
    ensures Tdee(bmr, act) == Ok(bmr * ActivityFactor(word))
  {
  }

  /** An activity label whose first word is not in the table gets the sedentary 1.2. */
  lemma UnmatchedActivityIsSedentary(
    bmr: real, pre: string, word: string, rest: string)
    requires Text.AllSpace(pre) && word != [] && Text.NoSpace(word) && Text.Separated(rest)
    requires word !in ActivityFactors
    ensures Tdee(bmr, pre + word + rest) == Ok(1.2 * bmr)
  {
    ActivityByFirstWord(bmr, pre, word, rest);
  }

  /** The settings label "Lightly Active" reads as "Lightly". */
  lemma LightlyLabel()
    ensures Text.FirstWord("Lightly Active") == Some("Lightly")
  {
    Text.FirstWordOfLabel([], "Lightly", " Active");
    assert "Lightly Active" == [] + "Lightly" + " Active";
  }

  /** Any label read as "Lightly" scales BMR by 1.375; "Lightly Active" is one. */
  lemma LightlyActiveExample(bmr: real, act: string)
    requires Text.FirstWord(act) == Some("Lightly")
    ensures ActivityFactor("Lightly") == 1.375
    ensures Tdee(bmr, act) == Ok(bmr * ActivityFactor("Lightly"))
    ensures Text.FirstWord("Lightly Active") == Some("Lightly")
  {
    LightlyLabel();
    ActivityTdee(bmr, act, "Lightly");
  }

  /** Female, 30 kg, 100 cm, 100 years, losing weight: a negative target, whose protein truncates toward zero. */
  lemma NegativeTargetExample(act: string)
    requires Text.FirstWord(act) == Some("Sedentary")
    ensures Bmr("Female", 30.0, 100.0, 100.0) == 264.0
    ensures Tdee(264.0, act) == Ok(316.8)
    ensures TargetsFor(316.8, "Weight Loss", 2000.0) == Targets(-183, -18, 2000.0, Macros(40, 40, 20))
  {
    assert PlanFor("Weight Loss") == GoalPlan(-500.0, Macros(40, 40, 20));
    assert Trunc(-183.2) == -183;
    assert Trunc(-183.2 * (40 as real / 100.0) / 4.0) == -18;
  }

  /** The label the settings page offers first reads as "Sedentary". */
  lemma OfficeLabelIsSedentary()
    ensures Text.FirstWord("Sedentary (Office)") == Some("Sedentary")
  {
    Text.FirstWordOfLabel([], "Sedentary", " (Office)");
    assert "Sedentary (Office)" == [] + "Sedentary" + " (Office)";
  }

  /** Male, 70 kg, 170 cm, 25 years, any label read as sedentary: BMR 1642.5 and TDEE 1971. */
  lemma SedentaryMaleExample(act: string)
    requires Text.FirstWord(act) == Some("Sedentary")
    ensures Bmr("Male", 70.0, 170.0, 25.0) == 1642.5
    ensures Tdee(Bmr("Male", 70.0, 170.0, 25.0), act) == Ok(1971.0)
  {
  }

  /** The same person losing weight: 1471 kcal, 147 g protein, split (40, 40, 20). */
  lemma WeightLossExample(act: string)
    requires Text.FirstWord(act) == Some("Sedentary")
    ensures SaveProfile("A", 25.0, "Male", 170.0, 70.0, act, "Weight Loss", 2500.0)
      == Ok(Profile("A", 25.0, "Male", 170.0, 70.0, 70.0, act, "Weight Loss",
                    Targets(1471, 147, 2500.0, Macros(40, 40, 20))))
  {
    SedentaryMaleExample(act);
    WeightLossTargets();
  }

  /** From a TDEE of 1971 kcal, losing weight: 1471 kcal and 147 g protein. */
  lemma WeightLossTargets()
    ensures TargetsFor(1971.0, "Weight Loss", 2500.0) == Targets(1471, 147, 2500.0, Macros(40, 40, 20))
  {
    assert PlanFor("Weight Loss") == GoalPlan(-500.0, Macros(40, 40, 20));
    assert Trunc(1471.0) == 1471;
    assert Trunc(1471.0 * (40 as real / 100.0) / 4.0) == 147;
  }
}
