/** Effective hydration: a drink's volume scaled by a beverage-specific absorption factor. */
module Hydration {
  import opened Wrappers
  import opened Logs

  /** The absorption factor of each listed beverage, relative to water. */
  const Factors: map<string, real> :=
    map["Water" := 1.0, "Milk" := 0.99, "Tea" := 0.98, "Coffee" := 0.90,
        "Juice" := 0.95, "Soda" := 0.90, "Alcohol" := 0.80, "Sports Drink" := 1.0]

  /** A beverage's factor; one not in the table counts as water. */
  function Factor(beverage: string): (f: real)
    ensures 0.8 <= f <= 1.0
  {
    if beverage in Factors then Factors[beverage] else 1.0
  }

  /** The millilitres of a drink that count toward the water goal. */
  function EffectiveVolume(beverage: string, volume: real): (e: real)
    ensures 0.0 <= volume ==> 0.8 * volume <= e <= volume
    ensures volume <= 0.0 ==> volume <= e <= 0.8 * volume
    ensures beverage !in Factors ==> e == volume
  {
    volume * Factor(beverage)
  }

  /** The row `log_beverage_advanced` appends for a drink taken on `day` at `time`. */
  function LogBeverage(day: int, time: string, beverage: string, volume: real): (row: WaterRow)
    ensures row.date == Some(day) && row.time == time
    ensures row.beverage == beverage && row.volume == volume
    ensures 0.0 <= volume ==> 0.0 <= row.effective <= row.volume
    ensures beverage !in Factors ==> row.effective == row.volume
    ensures row.effective == EffectiveVolume(beverage, volume)
  {
    WaterRow(Some(day), time, beverage, volume, EffectiveVolume(beverage, volume))
  }

  /** 250 ml of coffee counts as 225 ml. */
  lemma CoffeeExample()
    ensures EffectiveVolume("Coffee", 250.0) == 225.0
  {
  }

  /** More of the same drink never counts as less. */
  lemma EffectiveVolumeMonotone(beverage: string, v1: real, v2: real)
    requires v1 <= v2
    ensures EffectiveVolume(beverage, v1) <= EffectiveVolume(beverage, v2)
  {
    var f := Factor(beverage);
    assert v2 * f - v1 * f == (v2 - v1) * f;
  }
}
