/**
 * The advice engine (`generate_smart_insights`): five rules evaluated in a
 * fixed order over the logs, the profile targets and the current time, each
 * adding at most one message, with a default message when none fires.
 * Messages are tags; the wording of each canned text is not modelled.
 */
module Insights {
  import opened Wrappers
  import opened Seqs
  import opened Logs
  import Text
  import Numeric
  import Profiles
  import Hydration

  const MicrosPerHour: int := 3600000000
  const MicrosPerDay: int := 86400000000

  /** `datetime.now()`: today's day number and the microseconds elapsed since midnight. */
  datatype Now = Now(today: int, micros: int)
  {
    predicate Valid()
    {
      0 <= micros < MicrosPerDay
    }

    function Hour(): int
    {
      micros / MicrosPerHour
    }
  }

  datatype Insight =
    | CreateProfile    // no profile saved yet
    | HighCalorie      // recent mean intake more than 500 kcal over target
    | UnderEating      // recent mean intake more than 500 kcal under target
    | CalorieOnTrack   // recent mean intake within 500 kcal of target
    | ProteinBoost     // breakfasts average under 15 g protein
    | DehydrationRisk  // from 19:00:00 on, under half the water goal drunk today
    | GetMoving        // last workout more than three days ago
    | LateSnacking     // some food logged later than 22:00:00
    | GreatJob         // default when no rule fired

  /** The position of the rule that emits each message. */
  function Rank(i: Insight): nat
  {
    match i
    case CreateProfile => 0
    case HighCalorie => 1
    case UnderEating => 1
    case CalorieOnTrack => 1
    case ProteinBoost => 2
    case DehydrationRisk => 3
    case GetMoving => 4
    case LateSnacking => 5
    case GreatJob => 6
  }

  /** Messages in strictly increasing rule position, so at most one per rule. */
  predicate InRuleOrder(s: seq<Insight>)
  {
    forall i, j | 0 <= i < j < |s| :: Rank(s[i]) < Rank(s[j])
  }

  /** Dates are parsed without coercion here, so one unparsable date raises. */
  datatype InsightError = UnparsableDate

  /** The midnight that starts day `d` is no earlier than three days before now. */
  predicate IsRecent(d: int, now: Now)
  {
    d * MicrosPerDay >= now.today * MicrosPerDay + now.micros - 3 * MicrosPerDay
  }

  /** The window is today − 2 and every later day, future days included, plus today − 3 only at exact midnight. */
  lemma RecentWindow(d: int, now: Now)
    requires now.Valid()
    ensures IsRecent(d, now) <==> d >= now.today - 2 || (now.micros == 0 && d == now.today - 3)
  {
    var k := d - now.today + 3;
    assert d * MicrosPerDay - (now.today * MicrosPerDay - 3 * MicrosPerDay) == k * MicrosPerDay;
    if k >= 1 {
      assert k * MicrosPerDay >= MicrosPerDay;
    } else if k <= -1 {
      assert k * MicrosPerDay <= -MicrosPerDay;
    }
  }

  function RecentFood(food: seq<FoodRow>, now: Now): seq<FoodRow>
  {
    Filter(food, (r: FoodRow) => r.date.Some? && IsRecent(r.date.value, now))
  }

  /** The distinct days that have at least one of `rows`. */
  function DaysOf(rows: seq<FoodRow>): set<int>
  {
    set i | 0 <= i < |rows| && rows[i].date.Some? :: rows[i].date.value
  }

  function Calories(rows: seq<FoodRow>): real
  {
    Sum(rows, (r: FoodRow) => r.calories)
  }

  /**
   * Rule 1: the mean over the recent days of each day's total intake, against
   * the calorie target. The mean of per-day totals is the recent total over the
   * number of distinct recent days.
   */
  function CalorieRule(food: seq<FoodRow>, target: int, now: Now): (r: seq<Insight>)
    ensures |r| <= 1 && (|r| == 1 <==> |RecentFood(food, now)| > 0)
    ensures forall k | 0 <= k < |r| :: Rank(r[k]) == 1
  {
    var recent := RecentFood(food, now);
    if |recent| == 0 then []
    else
      assert recent[0].date.value in DaysOf(recent);
      var mean := Calories(recent) / |DaysOf(recent)| as real;
      var diff := mean - target as real;
      if diff > 500.0 then [HighCalorie]
      else if diff < -500.0 then [UnderEating]
      else [CalorieOnTrack]
  }

  /** Every breakfast ever logged, whatever its date. */
  function Breakfasts(food: seq<FoodRow>): seq<FoodRow>
  {
    Filter(food, (r: FoodRow) => r.mealType == "Breakfast")
  }

  function Protein(rows: seq<FoodRow>): real
  {
    Sum(rows, (r: FoodRow) => r.protein)
  }

  /** Rule 2: the mean protein of all breakfasts below 15 g. */
  function ProteinRule(food: seq<FoodRow>): (r: seq<Insight>)
    ensures |r| <= 1 && forall k | 0 <= k < |r| :: r[k] == ProteinBoost
  {
    var breakfasts := Breakfasts(food);
    if |breakfasts| > 0 && Protein(breakfasts) / |breakfasts| as real < 15.0 then [ProteinBoost]
    else []
  }

  /** Effective millilitres drunk on `day`. */
  function DrunkOn(water: seq<WaterRow>, day: int): real
  {
    Sum(Filter(water, (r: WaterRow) => r.date == Some(day)), (r: WaterRow) => r.effective)
  }

  /** A drink logged today adds its effective volume to what today counts. */
  lemma DrinkCountsToday(water: seq<WaterRow>, day: int, time: string, beverage: string, volume: real)
    ensures DrunkOn(water + [Hydration.LogBeverage(day, time, beverage, volume)], day)
      == DrunkOn(water, day) + Hydration.EffectiveVolume(beverage, volume)
  {
    var row := Hydration.LogBeverage(day, time, beverage, volume);
    var today := (r: WaterRow) => r.date == Some(day);
    FilterAppend(water, row, today);
    SumAppend(Filter(water, today), row, (r: WaterRow) => r.effective);
  }

  /** Rule 3: past hour 18 with less than half the water goal drunk today; needs a water log. */
  function HydrationRule(water: seq<WaterRow>, goal: real, now: Now): (r: seq<Insight>)
    ensures |r| <= 1 && forall k | 0 <= k < |r| :: r[k] == DehydrationRisk
  {
    if |water| == 0 then []
    else if now.Hour() > 18 && DrunkOn(water, now.today) < goal * 0.5 then [DehydrationRisk]
    else []
  }

  /** The latest day among the rows' dates (`max`, skipping cells without a date). */
  function LatestDay(rows: seq<ExerciseRow>): (r: Option<int>)
    ensures r.None? <==> forall i | 0 <= i < |rows| :: rows[i].date.None?
    ensures r.Some? ==> exists i | 0 <= i < |rows| :: rows[i].date == r
    ensures r.Some? ==> forall i | 0 <= i < |rows| && rows[i].date.Some? :: rows[i].date.value <= r.value
  {
    if |rows| == 0 then None
    else
      var rest := LatestDay(rows[1..]);
      assert forall i | 1 <= i < |rows| :: rows[i] == rows[1..][i - 1];
      match rows[0].date
      case None => rest
      case Some(d) => if rest.Some? && rest.value > d then rest else Some(d)
  }

  /** Rule 4: more than three whole days since the latest workout. */
  function ExerciseRule(exercise: seq<ExerciseRow>, now: Now): (r: seq<Insight>)
    ensures |r| <= 1 && forall k | 0 <= k < |r| :: r[k] == GetMoving
  {
    match LatestDay(exercise)
    case None => []
    case Some(last) => if now.today - last > 3 then [GetMoving] else []
  }

  /** The time text food logged later than 22:00 compares above. */
  const LateCutoff: string := "22:00:00"

  /** Rule 5: some food row's time text compares above "22:00:00" as a string. */
  function LateRule(food: seq<FoodRow>): (r: seq<Insight>)
    ensures |r| <= 1 && forall k | 0 <= k < |r| :: r[k] == LateSnacking
  {
    if exists i | 0 <= i < |food| :: Text.LexLess(LateCutoff, food[i].time) then [LateSnacking]
    else []
  }

  /** Every date cell of every log parses. */
  predicate AllDated(food: seq<FoodRow>, exercise: seq<ExerciseRow>, water: seq<WaterRow>)
  {
    && (forall i | 0 <= i < |food| :: food[i].date.Some?)
    && (forall i | 0 <= i < |exercise| :: exercise[i].date.Some?)
    && (forall i | 0 <= i < |water| :: water[i].date.Some?)
  }

  /** Every message of `s` comes from a rule at a position in [lo, hi]. */
  predicate RanksWithin(s: seq<Insight>, lo: nat, hi: nat)
  {
    forall k | 0 <= k < |s| :: lo <= Rank(s[k]) <= hi
  }

  /** Messages of earlier rules followed by messages of later rules stay in rule order. */
  lemma OrderedConcat(a: seq<Insight>, b: seq<Insight>, lo: nat, mid: nat, hi: nat)
    requires lo <= mid < hi
    requires InRuleOrder(a) && RanksWithin(a, lo, mid)
    requires InRuleOrder(b) && RanksWithin(b, mid + 1, hi)
    ensures InRuleOrder(a + b) && RanksWithin(a + b, lo, hi)
  {
    var ab := a + b;
    assert forall k | 0 <= k < |a| :: ab[k] == a[k];
    assert forall k | |a| <= k < |ab| :: ab[k] == b[k - |a|];
  }

  /** Five rules' messages, at most one each from rules 1 to 5, concatenate in rule order. */
  lemma FiveInOrder(c: seq<Insight>, p: seq<Insight>, h: seq<Insight>, e: seq<Insight>,
                    l: seq<Insight>)
    requires |c| <= 1 && |p| <= 1 && |h| <= 1 && |e| <= 1 && |l| <= 1
    requires RanksWithin(c, 1, 1) && RanksWithin(p, 2, 2) && RanksWithin(h, 3, 3)
    requires RanksWithin(e, 4, 4) && RanksWithin(l, 5, 5)
    ensures InRuleOrder(c + p + h + e + l) && RanksWithin(c + p + h + e + l, 1, 5)
  {
    OrderedConcat(c, p, 1, 1, 2);
    OrderedConcat(c + p, h, 1, 2, 3);
    OrderedConcat(c + p + h, e, 1, 3, 4);
    OrderedConcat(c + p + h + e, l, 1, 4, 5);
  }

  /** The messages of the five rules, in rule order, before the default is added. */
  function Fired(targets: Profiles.Targets, food: seq<FoodRow>, exercise: seq<ExerciseRow>,
                 water: seq<WaterRow>, now: Now): (r: seq<Insight>)
    ensures InRuleOrder(r) && RanksWithin(r, 1, 5)
  {
    var c := CalorieRule(food, targets.calories, now);
    var p := ProteinRule(food);
    var h := HydrationRule(water, targets.water, now);
    var e := ExerciseRule(exercise, now);
    var l := LateRule(food);
    FiveInOrder(c, p, h, e, l);
    c + p + h + e + l
  }

  /** `generate_smart_insights` over explicit inputs; `profile` is None before one is saved. */
  function GenerateInsights(profile: Option<Profiles.Targets>, food: seq<FoodRow>,
                            exercise: seq<ExerciseRow>, water: seq<WaterRow>, now: Now)
    : (r: Result<seq<Insight>, InsightError>)
    ensures profile.None? ==> r == Ok([CreateProfile])
    ensures r.Err? <==> profile.Some? && !AllDated(food, exercise, water)
    ensures r.Ok? ==> |r.value| > 0 && InRuleOrder(r.value)
    ensures r.Ok? && profile.Some? ==> CreateProfile !in r.value
    ensures r.Ok? && profile.Some? ==> (GreatJob in r.value <==> r.value == [GreatJob])
  {
    if profile.None? then Ok([CreateProfile])
    else if !AllDated(food, exercise, water) then Err(UnparsableDate)
    else
      var fired := Fired(profile.value, food, exercise, water, now);
      Ok(if |fired| == 0 then [GreatJob] else fired)
  }

  /** The hour of day exceeds 18 exactly from 19:00:00.000000 on. */
  lemma LateHour(now: Now)
    requires now.Valid()
    ensures now.Hour() > 18 <==> now.micros >= 19 * MicrosPerHour
  {
  }

  /** With every workout dated, the latest one is over three days old iff all of them are. */
  lemma ExerciseRuleCondition(exercise: seq<ExerciseRow>, now: Now)
    requires forall i | 0 <= i < |exercise| :: exercise[i].date.Some?
    ensures ExerciseRule(exercise, now) == [GetMoving] <==>
      |exercise| > 0 && forall i | 0 <= i < |exercise| :: exercise[i].date.value < now.today - 3
  {
    if |exercise| > 0 {
      assert exercise[0].date.Some?;
    }
  }

  /** Rule 2 as a comparison of breakfast protein with 15 g per breakfast. */
  lemma ProteinRuleCondition(food: seq<FoodRow>)
    ensures ProteinRule(food) == [ProteinBoost] <==>
      |Breakfasts(food)| > 0 && Protein(Breakfasts(food)) < 15.0 * |Breakfasts(food)| as real
  {
    var b := Breakfasts(food);
    if |b| > 0 {
      Numeric.MeanCompare(Protein(b), |b| as real, 15.0);
    }
  }

  /** Recent intake averages more than 500 kcal a day over target. */
  predicate HighIntake(food: seq<FoodRow>, target: int, now: Now)
  {
    var recent := RecentFood(food, now);
    |recent| > 0 && Calories(recent) > (target as real + 500.0) * |DaysOf(recent)| as real
  }

  /** Recent intake averages more than 500 kcal a day under target. */
  predicate LowIntake(food: seq<FoodRow>, target: int, now: Now)
  {
    var recent := RecentFood(food, now);
    |recent| > 0 && Calories(recent) < (target as real - 500.0) * |DaysOf(recent)| as real
  }

  /** Some recent intake, averaging within 500 kcal a day of target, bounds included. */
  predicate IntakeOnTrack(food: seq<FoodRow>, target: int, now: Now)
  {
    var recent := RecentFood(food, now);
    var n := |DaysOf(recent)| as real;
    |recent| > 0 && (target as real - 500.0) * n <= Calories(recent) <= (target as real + 500.0) * n
  }

  /** Breakfasts have been logged and hold under 15 g protein each on average. */
  predicate LowBreakfastProtein(food: seq<FoodRow>)
  {
    var b := Breakfasts(food);
    |b| > 0 && Protein(b) < 15.0 * |b| as real
  }

  /** A water log exists, it is 19:00 or later, and under half the goal was drunk today. */
  predicate Thirsty(water: seq<WaterRow>, goal: real, now: Now)
  {
    |water| > 0 && now.micros >= 19 * MicrosPerHour && DrunkOn(water, now.today) < goal * 0.5
  }

  /** Workouts have been logged and every one of them is dated before today minus three days. */
  predicate Idle(exercise: seq<ExerciseRow>, now: Now)
  {
    |exercise| > 0 && forall i | 0 <= i < |exercise| ::
      exercise[i].date.Some? && exercise[i].date.value < now.today - 3
  }

  /** Some food row's time text sorts after "22:00:00". */
  predicate LateFood(food: seq<FoodRow>)
  {
    exists i | 0 <= i < |food| :: Text.LexLess(LateCutoff, food[i].time)
  }

  /** Rule 1 as a comparison of the recent total with the target band times the number of days. */
  lemma CalorieRuleCondition(food: seq<FoodRow>, target: int, now: Now)
    ensures CalorieRule(food, target, now) == [HighCalorie] <==> HighIntake(food, target, now)
    ensures CalorieRule(food, target, now) == [UnderEating] <==> LowIntake(food, target, now)
    ensures CalorieRule(food, target, now) == [CalorieOnTrack] <==> IntakeOnTrack(food, target, now)
  {
    var recent := RecentFood(food, now);
    if |recent| > 0 {
      assert recent[0].date.value in DaysOf(recent);
      var n := |DaysOf(recent)| as real;
      var total := Calories(recent);
      Numeric.MeanCompare(total, n, target as real + 500.0);
      Numeric.MeanCompare(total, n, target as real - 500.0);
    }
  }

  /** For a saved profile the output is the fired messages, or the default when none fired. */
  lemma SavedProfileOutput(t: Profiles.Targets, food: seq<FoodRow>, exercise: seq<ExerciseRow>,
                           water: seq<WaterRow>, now: Now, x: Insight)
    requires AllDated(food, exercise, water)
    ensures GenerateInsights(Some(t), food, exercise, water, now).Ok?
    ensures var r := GenerateInsights(Some(t), food, exercise, water, now).value;
      x != GreatJob ==>
        (x in r <==>
           (|| x in CalorieRule(food, t.calories, now) || x in ProteinRule(food)
            || x in HydrationRule(water, t.water, now) || x in ExerciseRule(exercise, now)
            || x in LateRule(food)))
  {
    var fired := Fired(t, food, exercise, water, now);
    assert fired == CalorieRule(food, t.calories, now) + ProteinRule(food)
      + HydrationRule(water, t.water, now) + ExerciseRule(exercise, now) + LateRule(food);
  }

  /** Rule 1's three messages, each exactly under its own band. */
  lemma CalorieMessages(t: Profiles.Targets, food: seq<FoodRow>, exercise: seq<ExerciseRow>,
                        water: seq<WaterRow>, now: Now)
    requires AllDated(food, exercise, water)
    ensures var r := GenerateInsights(Some(t), food, exercise, water, now).value;
      && (HighCalorie in r <==> HighIntake(food, t.calories, now))
      && (UnderEating in r <==> LowIntake(food, t.calories, now))
      && (CalorieOnTrack in r <==> IntakeOnTrack(food, t.calories, now))
  {
    SavedProfileOutput(t, food, exercise, water, now, HighCalorie);
    SavedProfileOutput(t, food, exercise, water, now, UnderEating);
    SavedProfileOutput(t, food, exercise, water, now, CalorieOnTrack);
    CalorieRuleCondition(food, t.calories, now);
    var c := CalorieRule(food, t.calories, now);
    assert HighCalorie in c <==> c == [HighCalorie];
    assert UnderEating in c <==> c == [UnderEating];
    assert CalorieOnTrack in c <==> c == [CalorieOnTrack];
  }

  /** Rules 2 and 5: the breakfast-protein and late-snacking messages, each exactly under its condition. */
  lemma FoodMessages(t: Profiles.Targets, food: seq<FoodRow>, exercise: seq<ExerciseRow>,
                     water: seq<WaterRow>, now: Now)
    requires AllDated(food, exercise, water)
    ensures var r := GenerateInsights(Some(t), food, exercise, water, now).value;
      && (ProteinBoost in r <==> LowBreakfastProtein(food))
      && (LateSnacking in r <==> LateFood(food))
  {
    SavedProfileOutput(t, food, exercise, water, now, ProteinBoost);
    SavedProfileOutput(t, food, exercise, water, now, LateSnacking);
    ProteinRuleCondition(food);
  }

  /** Rules 3 and 4: the hydration and exercise messages, each exactly under its condition. */
  lemma ActivityMessages(t: Profiles.Targets, food: seq<FoodRow>, exercise: seq<ExerciseRow>,
                         water: seq<WaterRow>, now: Now)
    requires AllDated(food, exercise, water) && now.Valid()
    ensures var r := GenerateInsights(Some(t), food, exercise, water, now).value;
      && (DehydrationRisk in r <==> Thirsty(water, t.water, now))
      && (GetMoving in r <==> Idle(exercise, now))
  {
    SavedProfileOutput(t, food, exercise, water, now, DehydrationRisk);
    SavedProfileOutput(t, food, exercise, water, now, GetMoving);
    LateHour(now);
    ExerciseRuleCondition(exercise, now);
  }

  /** The default message appears exactly when no rule's condition holds. */
  lemma DefaultMessage(t: Profiles.Targets, food: seq<FoodRow>, exercise: seq<ExerciseRow>,
                       water: seq<WaterRow>, now: Now)
    requires AllDated(food, exercise, water) && now.Valid()
    ensures var r := GenerateInsights(Some(t), food, exercise, water, now).value;
      GreatJob in r <==>
        && |RecentFood(food, now)| == 0
        && !LowBreakfastProtein(food) && !Thirsty(water, t.water, now)
        && !Idle(exercise, now) && !LateFood(food)
  {
    var fired := Fired(t, food, exercise, water, now);
    assert fired == CalorieRule(food, t.calories, now) + ProteinRule(food)
      + HydrationRule(water, t.water, now) + ExerciseRule(exercise, now) + LateRule(food);
    ProteinRuleCondition(food);
    LateHour(now);
    ExerciseRuleCondition(exercise, now);
  }

  /** With recent food logged exactly one calorie verdict is given, otherwise none. */
  lemma OneCalorieVerdict(t: Profiles.Targets, food: seq<FoodRow>, exercise: seq<ExerciseRow>,
                          water: seq<WaterRow>, now: Now)
    requires AllDated(food, exercise, water)
    ensures var r := GenerateInsights(Some(t), food, exercise, water, now).value;
      && (|RecentFood(food, now)| > 0 <==>
            HighCalorie in r || UnderEating in r || CalorieOnTrack in r)
      && !(HighCalorie in r && UnderEating in r)
      && !(HighCalorie in r && CalorieOnTrack in r)
      && !(UnderEating in r && CalorieOnTrack in r)
  {
    SavedProfileOutput(t, food, exercise, water, now, HighCalorie);
    SavedProfileOutput(t, food, exercise, water, now, UnderEating);
    SavedProfileOutput(t, food, exercise, water, now, CalorieOnTrack);
  }

  /** On times written as HH:MM:SS, the late-snacking test is "later than 22:00:00". */
  lemma LateMeansAfterTen(h: nat, m: nat, sec: nat)
    requires h < 24 && m < 60 && sec < 60
    ensures Text.LexLess(LateCutoff, Text.ClockText(h, m, sec)) <==> h * 3600 + m * 60 + sec > 22 * 3600
  {
    assert LateCutoff == Text.ClockText(22, 0, 0);
    Text.ClockTextOrder(22, 0, 0, h, m, sec);
  }

  /** Intake averaging 600 kcal over target draws the warning and no on-track message. */
  lemma HighIntakeExample(t: Profiles.Targets, food: seq<FoodRow>, exercise: seq<ExerciseRow>,
                          water: seq<WaterRow>, now: Now)
    requires AllDated(food, exercise, water)
    requires |RecentFood(food, now)| > 0
    requires Calories(RecentFood(food, now)) ==
      (t.calories as real + 600.0) * |DaysOf(RecentFood(food, now))| as real
    ensures var r := GenerateInsights(Some(t), food, exercise, water, now).value;
      HighCalorie in r && CalorieOnTrack !in r && UnderEating !in r
  {
    var recent := RecentFood(food, now);
    var n := |DaysOf(recent)| as real;
    assert recent[0].date.value in DaysOf(recent);
    assert (t.calories as real + 600.0) * n > (t.calories as real + 500.0) * n;
    assert HighIntake(food, t.calories, now);
    assert !LowIntake(food, t.calories, now) && !IntakeOnTrack(food, t.calories, now);
    CalorieMessages(t, food, exercise, water, now);
  }
}
