/**
 * The rows of the four append-only logs. A calendar date is a day number; a
 * date cell whose text does not parse as a date is `None`. An absent log file
 * and a log with no rows are both the empty sequence: every computation of the
 * dashboard treats the two alike.
 */
module Logs {
  import opened Wrappers

  /** One meal entry: quantity in servings, nutrients already scaled by quantity. */
  datatype FoodRow = FoodRow(
    date: Option<int>, time: string, dish: string, mealType: string,
    quantity: real, calories: real, protein: real, carbs: real, fats: real)

  /** One workout entry: duration in minutes. */
  datatype ExerciseRow = ExerciseRow(
    date: Option<int>, time: string, activity: string, duration: real, burnt: real)

  /** One drink: volume and effective hydration in millilitres. */
  datatype WaterRow = WaterRow(
    date: Option<int>, time: string, beverage: string, volume: real, effective: real)
}
