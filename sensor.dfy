/** custom_components/petkit/sensor.py: the computed values of the sensor descriptors
    (map lookups with defaults, clamps, range filters, last-element picks) and the gates
    that keep look-alike descriptors apart. Pass-through fields need no model. */
module Sensor {
  import opened Common
  import Entity

  /** DEVICE_STATUS_MAP and BATTERY_LEVEL_MAP of the constants modules. */
  const DeviceStatusMap: Dict<int, string> := [(0, "Offline"), (1, "Online"), (2, "On battery")]
  const BatteryLevelMap: Dict<int, string> := [(0, "Low"), (1, "Normal")]

  /** Device status: the status map's entry for pim, "Unknown Status" otherwise. */
  function DeviceStatus(pim: int): string {
    GetOr(DeviceStatusMap, pim, "Unknown Status")
  }

  lemma DeviceStatusCases(pim: int)
    ensures pim == 0 ==> DeviceStatus(pim) == "Offline"
    ensures pim == 1 ==> DeviceStatus(pim) == "Online"
    ensures pim == 2 ==> DeviceStatus(pim) == "On battery"
    ensures pim !in {0, 1, 2} <==> DeviceStatus(pim) == "Unknown Status"
  {
  }

  /** Battery level: read from the battery map (default "Unknown") only on battery power,
      pim 2; otherwise "Not in use". */
  function BatteryLevel(pim: int, batteryStatus: int): string {
    if pim == 2 then GetOr(BatteryLevelMap, batteryStatus, "Unknown") else "Not in use"
  }

  lemma BatteryLevelCases(pim: int, batteryStatus: int)
    ensures pim != 2 <==> BatteryLevel(pim, batteryStatus) == "Not in use"
    ensures pim == 2 ==>
              BatteryLevel(pim, batteryStatus) ==
                (if batteryStatus == 0 then "Low" else if batteryStatus == 1 then "Normal" else "Unknown")
  {
  }

  /** Error message of feeders and litter boxes: the message, or "No error" when it is
      None. */
  function ErrorMessage(errorMsg: Option<string>): (r: string)
    ensures errorMsg.Some? ==> r == errorMsg.value
    ensures errorMsg.None? ==> r == "No error"
  {
    match errorMsg
    case Some(m) => m
    case None => "No error"
  }

  /** The purifier's variant also tolerates a state without the attribute (outer None). */
  function PurifierErrorMessage(errorMsg: Option<Option<string>>): (r: string)
    ensures r == ErrorMessage(if errorMsg.Some? then errorMsg.value else None)
  {
    if errorMsg.Some? && errorMsg.value.Some? then errorMsg.value.value else "No error"
  }

  /** Food bowl percentage: max(0, min(100, bowl)), None when bowl is None. */
  function FoodBowlPercentage(bowl: Option<int>): (r: Option<int>)
    ensures r.None? <==> bowl.None?
    ensures r.Some? ==> 0 <= r.value <= 100
    ensures r.Some? && 0 <= bowl.value <= 100 ==> r.value == bowl.value
    ensures r.Some? && bowl.value < 0 ==> r.value == 0
    ensures r.Some? && bowl.value > 100 ==> r.value == 100
  {
    match bowl
    case None => None
    case Some(b) =>
      var upper := if b < 100 then b else 100;
      Some(if upper > 0 then upper else 0)
  }

  /** Clamping a clamped value changes nothing. */
  lemma FoodBowlIdempotent(bowl: Option<int>)
    ensures FoodBowlPercentage(FoodBowlPercentage(bowl)) == FoodBowlPercentage(bowl)
  {
  }

  /** The liquid level of the litter box's spray and of the purifier: the value only when
      it lies in 0..100. */
  function LiquidLevel(liquid: Option<int>): (r: Option<int>)
    ensures r.Some? <==> liquid.Some? && 0 <= liquid.value <= 100
    ensures r.Some? ==> r == liquid
  {
    match liquid
    case Some(v) => if 0 <= v <= 100 then Some(v) else None
    case None => None
  }

  /** Where both are defined, the filter and the clamp agree; the clamp never rejects. */
  lemma LiquidAndBowlAgree(v: int)
    ensures LiquidLevel(Some(v)).Some? ==> LiquidLevel(Some(v)) == FoodBowlPercentage(Some(v))
    ensures LiquidLevel(Some(v)).None? ==> FoodBowlPercentage(Some(v)).value in {0, 100}
  {
  }

  /** The non-D4S "Times eaten": the number of eat times, None when there is no list. */
  function TimesEaten<T>(eatTimes: Option<seq<T>>): (r: Option<nat>)
    ensures r.None? <==> eatTimes.None?
    ensures r.Some? ==> r.value == |eatTimes.value|
  {
    match eatTimes
    case Some(times) => Some(|times|)
    case None => None
  }

  /** The gates of the two "Times eaten" descriptors: one ignores D4S, the other is only
      for D4S. */
  function TimesEatenGates(d4s: string): (Entity.Gates, Entity.Gates) {
    (Entity.Gates(None, Some([d4s]), None), Entity.Gates(None, None, Some([d4s])))
  }

  /** Exactly one of the two passes the type gates for any device, and the other is
      rejected by them. */
  lemma TimesEatenExclusive(d4s: string, deviceType: string)
    ensures var (counted, d4sOnly) := TimesEatenGates(d4s);
            (Entity.TypeGate(deviceType, counted).None? <==> Lower(deviceType) != d4s) &&
            (Entity.TypeGate(deviceType, d4sOnly).None? <==> Lower(deviceType) == d4s) &&
            (Entity.TypeGate(deviceType, counted) == Some(false) || Entity.TypeGate(deviceType, d4sOnly) == Some(false))
  {
  }

  /** "Last used by": the pet name of the last statistic, None for an empty list. */
  function LastUsedBy(petNames: seq<string>): (r: Option<string>)
    ensures r.None? <==> petNames == []
    ensures r.Some? ==> r.value == petNames[|petNames| - 1]
  {
    if petNames == [] then None else Some(petNames[|petNames| - 1])
  }

  /** A later statistic replaces the answer; an empty one changes nothing. */
  lemma LastUsedByAppend(a: seq<string>, b: seq<string>)
    ensures LastUsedBy(a + b) == if b == [] then LastUsedBy(a) else LastUsedBy(b)
  {
    if b == [] {
      assert a + b == a;
    }
  }

  /** The two "Last used by" descriptors read different lists for T4 and T6; for distinct
      type tags at most one applies to a device. */
  lemma LastUsedByExclusive(t4: string, t6: string, deviceType: string)
    requires t4 != t6
    ensures Entity.TypeGate(deviceType, Entity.Gates(None, None, Some([t4]))) == Some(false) ||
            Entity.TypeGate(deviceType, Entity.Gates(None, None, Some([t6]))) == Some(false)
  {
  }

  /** Drink times: the number of records when the records are a list, None otherwise. */
  function DrinkTimes<T>(records: Option<seq<T>>): (r: Option<nat>)
    ensures r.None? <==> records.None?
    ensures r.Some? ==> r.value == |records.value|
  {
    TimesEaten(records)
  }

  /** Pet last use date: the usage timestamp, None when it is 0 (never used). */
  function PetLastUseDate(lastLitterUsage: int): (r: Option<int>)
    ensures r.None? <==> lastLitterUsage == 0
    ensures r.Some? ==> r.value == lastLitterUsage
  {
    if lastLitterUsage != 0 then Some(lastLitterUsage) else None
  }

  /** PetkitSensor.native_value: the descriptor's value of the coordinator's data for the
      device, None when the coordinator has none. */
  function NativeValue<D, V>(deviceData: Option<D>, value: D -> V): (r: Option<V>)
    ensures r.None? <==> deviceData.None?
    ensures r.Some? ==> r.value == value(deviceData.value)
  {
    match deviceData
    case None => None
    case Some(d) => Some(value(d))
  }
}
