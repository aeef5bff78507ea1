/** custom_components/petkit_smart_devices/sensor.py: the feeder sensors of the second
    integration. Its status and battery maps are those of the first; its icons, defaults
    and type tests differ, and two of its feeder descriptors share one key. */
module SmartSensor {
  import opened Common
  import Entity
  import Sensor

  /** The device_status icon: by pim, None for an unknown state. */
  function DeviceStatusIcon(pim: int): (r: Option<string>)
    ensures r == Some("mdi:cloud-off") <==> pim == 0
    ensures r == Some("mdi:cloud") <==> pim == 1
    ensures r == Some("mdi:battery") <==> pim == 2
  {
    if pim == 0 then Some("mdi:cloud-off")
    else if pim == 1 then Some("mdi:cloud")
    else if pim == 2 then Some("mdi:battery")
    else None
  }

  /** The icon is missing exactly when the status value is the unknown default. */
  lemma DeviceStatusIconAgrees(pim: int)
    ensures DeviceStatusIcon(pim).None? <==> Sensor.DeviceStatus(pim) == "Unknown Status"
  {
    Sensor.DeviceStatusCases(pim);
  }

  /** battery_power: its icon tests pim == 1 and its value reads the battery map with
      default "Unknown Battery Status", whatever the power source. */
  function BatteryPowerIcon(pim: int): string {
    if pim == 1 then "mdi:battery" else "mdi:battery-alert-variant"
  }

  function BatteryPower(batteryStatus: int): string {
    GetOr(Sensor.BatteryLevelMap, batteryStatus, "Unknown Battery Status")
  }

  /** The plain battery icon shows only on mains (pim 1), so a feeder on battery (pim 2)
      shows the alert icon; the value is the first integration's battery level with the
      other default. */
  lemma BatteryPowerCases(pim: int, batteryStatus: int)
    ensures BatteryPowerIcon(pim) == "mdi:battery" <==> pim == 1
    ensures BatteryPowerIcon(2) == "mdi:battery-alert-variant"
    ensures BatteryPower(batteryStatus) ==
              if batteryStatus in {0, 1} then Sensor.BatteryLevel(2, batteryStatus) else "Unknown Battery Status"
  {
  }

  /** feeder_error: the error message when the state has one, "no_error" otherwise. */
  function FeederError(hasErrorMsg: bool, errorMsg: string): (r: string)
    ensures hasErrorMsg ==> r == errorMsg
    ensures !hasErrorMsg ==> r == "no_error"
  {
    if hasErrorMsg then errorMsg else "no_error"
  }

  /** times_eaten: a D4S reports its eat count, compared against the raw device type;
      other feeders count their eat times, and a missing list fails in len(). */
  function TimesEaten<T>(deviceType: string, d4s: string, eatCount: int, eatTimes: Option<seq<T>>): (r: Py<int>)
    ensures deviceType == d4s ==> r == Ok(eatCount)
    ensures deviceType != d4s ==> (r.Raise? <==> eatTimes.None?)
    ensures deviceType != d4s && r.Ok? ==> r.value == |eatTimes.value|
    ensures r.Raise? ==> r.exc == TypeError
  {
    if deviceType == d4s then Ok(eatCount)
    else match eatTimes
      case Some(times) => Ok(|times|)
      case None => Raise(TypeError)
  }

  /** Away from the D4S this counts as the first integration's non-D4S descriptor does. */
  lemma TimesEatenAgrees<T>(deviceType: string, d4s: string, eatCount: int, eatTimes: seq<T>)
    requires deviceType != d4s
    ensures TimesEaten(deviceType, d4s, eatCount, Some(eatTimes)) == Ok(Sensor.TimesEaten(Some(eatTimes)).value as int)
  {
  }

  /** The ungated times_dispensed: the number of feed times on a D3 (raw type test), the
      times field elsewhere. */
  function TimesDispensed<T>(deviceType: string, d3: string, feedTimes: Option<seq<T>>, times: int): (r: Py<int>)
    ensures deviceType != d3 ==> r == Ok(times)
    ensures deviceType == d3 ==> (r.Raise? <==> feedTimes.None?)
    ensures deviceType == d3 && r.Ok? ==> r.value == |feedTimes.value|
    ensures r.Raise? ==> r.exc == TypeError
  {
    if deviceType == d3 then
      match feedTimes
      case Some(f) => Ok(|f|)
      case None => Raise(TypeError)
    else Ok(times)
  }

  /** food_bowl_percentage: max(0, min(100, bowl)) with no None guard, so a missing bowl
      reading is a TypeError; otherwise the first integration's clamp. */
  function FoodBowlPercentage(bowl: Option<int>): (r: Py<int>)
    ensures r.Raise? <==> bowl.None?
    ensures r.Raise? ==> r.exc == TypeError
    ensures r.Ok? ==> Some(r.value) == Sensor.FoodBowlPercentage(bowl)
  {
    match Sensor.FoodBowlPercentage(bowl)
    case Some(v) => Ok(v)
    case None => Raise(TypeError)
  }

  /** A descriptor of the feeder table: its key and type lists (the icons, units and
      values are modelled above where they compute anything). */
  datatype SmartDesc = SmartDesc(key: string, gates: Entity.Gates)

  function OnlyFor(t: string): Entity.Gates {
    Entity.Gates(None, None, Some([t]))
  }

  function Ignoring(t: string): Entity.Gates {
    Entity.Gates(None, Some([t]), None)
  }

  /** The feeder table as written: entry 6, "times_dispensed" ignoring D3, and entry 14,
      the ungated "times_dispensed", share a key. */
  function FeederSensorsAsWritten(d3: string): seq<SmartDesc> {
    FeederHead(d3) + [SmartDesc("times_dispensed", Ignoring(d3))] + FeederTotals() + FeederHoppers()
  }

  /** The status descriptors and the D3 counter. */
  function FeederHead(d3: string): seq<SmartDesc> {
    var n := Entity.NoGates;
    [ SmartDesc("device_status", n), SmartDesc("desiccant_left_days", n), SmartDesc("battery_power", n),
      SmartDesc("feeder_rssi", n), SmartDesc("feeder_error", n), SmartDesc("times_dispensed_d3", OnlyFor(d3)) ]
  }

  /** The daily totals, all ungated. */
  function FeederTotals(): seq<SmartDesc> {
    var n := Entity.NoGates;
    [ SmartDesc("total_planned", n), SmartDesc("planned_dispensed", n), SmartDesc("total_dispensed", n),
      SmartDesc("manual_dispensed", n), SmartDesc("amount_eaten", n), SmartDesc("times_eaten", n),
      SmartDesc("food_in_bowl", n), SmartDesc("times_dispensed", n), SmartDesc("avg_eating_time", n) ]
  }

  /** The per-hopper totals and the remaining descriptors, all ungated. */
  function FeederHoppers(): seq<SmartDesc> {
    var n := Entity.NoGates;
    [ SmartDesc("manual_dispensed_hopper_1", n), SmartDesc("manual_dispensed_hopper_2", n),
      SmartDesc("total_planned_hopper_1", n), SmartDesc("total_planned_hopper_2", n),
      SmartDesc("planned_dispensed_hopper_1", n), SmartDesc("planned_dispensed_hopper_2", n),
      SmartDesc("total_dispensed_hopper_1", n), SmartDesc("total_dispensed_hopper_2", n),
      SmartDesc("food_bowl_percentage", n), SmartDesc("end_date_care_plus_subscription", n),
      SmartDesc("food_left", n) ]
  }

  /** On any feeder that is not a D3, entries 6 and 14 read the same times field, so they
      are both created or both not, and when created they have the same unique id. */
  lemma DuplicateTimesDispensed<T>(d3: string, deviceType: string, deviceId: int,
                                   feedTimes: Option<seq<T>>, times: Py<int>)
    requires Lower(deviceType) != d3 && deviceType != d3
    ensures var t := FeederSensorsAsWritten(d3);
            |t| == 27 && t[6].key == t[14].key == "times_dispensed" &&
            Entity.IsSupported(deviceType, t[6].gates, Some(times)) == Entity.IsSupported(deviceType, t[14].gates, Some(times)) &&
            Entity.IdKey(deviceId, t[6].key) == Entity.IdKey(deviceId, t[14].key)
    ensures times.Ok? ==> TimesDispensed(deviceType, d3, feedTimes, times.value) == times &&
                          Entity.IsSupported(deviceType, FeederSensorsAsWritten(d3)[6].gates, Some(times)) == Ok(true)
  {
    var t := FeederSensorsAsWritten(d3);
    assert t[6] == SmartDesc("times_dispensed", Ignoring(d3));
    assert t[14] == FeederTotals()[7];
  }

  /** The intended table: entry 6 dropped, since entry 14 gives the same value on every
      feeder except the D3, which has its own "times_dispensed_d3". */
  function FeederSensors(d3: string): seq<SmartDesc> {
    FeederHead(d3) + FeederTotals() + FeederHoppers()
  }

  /** The intended table is the written one without entry 6. */
  lemma FeederSensorsDropsDuplicate(d3: string)
    ensures FeederSensors(d3) == FeederSensorsAsWritten(d3)[..6] + FeederSensorsAsWritten(d3)[7..]
  {
    var t := FeederSensorsAsWritten(d3);
    assert t[..6] == FeederHead(d3);
    assert t[7..] == FeederTotals() + FeederHoppers();
  }

  predicate KeysDistinct(t: seq<SmartDesc>) {
    forall i, j :: 0 <= i < j < |t| ==> t[i].key != t[j].key
  }

  predicate KeysApart(a: seq<SmartDesc>, b: seq<SmartDesc>) {
    forall i, j :: 0 <= i < |a| && 0 <= j < |b| ==> a[i].key != b[j].key
  }

  lemma DistinctConcat(a: seq<SmartDesc>, b: seq<SmartDesc>)
    requires KeysDistinct(a) && KeysDistinct(b) && KeysApart(a, b)
    ensures KeysDistinct(a + b)
  {
    var t := a + b;
    forall i, j | 0 <= i < j < |t| ensures t[i].key != t[j].key {
      if j < |a| {
        assert t[i] == a[i] && t[j] == a[j];
      } else if i < |a| {
        assert t[i] == a[i] && t[j] == b[j - |a|];
      } else {
        assert t[i] == b[i - |a|] && t[j] == b[j - |a|];
      }
    }
  }

  lemma HeadDistinct(d3: string)
    ensures KeysDistinct(FeederHead(d3))
  {
  }

  lemma TotalsDistinct()
    ensures KeysDistinct(FeederTotals())
  {
  }

  lemma HoppersDistinct()
    ensures KeysDistinct(FeederHoppers())
  {
  }

  lemma HeadApart(d3: string)
    ensures KeysApart(FeederHead(d3), FeederTotals() + FeederHoppers())
  {
  }

  lemma TotalsApart()
    ensures KeysApart(FeederTotals(), FeederHoppers())
  {
  }

  /** The keys of the intended table are pairwise distinct. */
  lemma FeederKeysDistinct(d3: string)
    ensures KeysDistinct(FeederSensors(d3))
  {
    HeadDistinct(d3);
    TotalsDistinct();
    HoppersDistinct();
    TotalsApart();
    HeadApart(d3);
    DistinctConcat(FeederTotals(), FeederHoppers());
    DistinctConcat(FeederHead(d3), FeederTotals() + FeederHoppers());
    assert FeederSensors(d3) == FeederHead(d3) + (FeederTotals() + FeederHoppers());
  }

  /** In the intended table no two descriptors share a key, so no two entities of one
      device share a unique id. */
  lemma FeederUniqueIds(d3: string, deviceId: int)
    ensures var t := FeederSensors(d3);
            forall i, j :: 0 <= i < j < |t| ==> Entity.IdKey(deviceId, t[i].key) != Entity.IdKey(deviceId, t[j].key)
  {
    var t := FeederSensors(d3);
    FeederKeysDistinct(d3);
    forall i, j | 0 <= i < j < |t| ensures Entity.IdKey(deviceId, t[i].key) != Entity.IdKey(deviceId, t[j].key) {
      if Entity.IdKey(deviceId, t[i].key) == Entity.IdKey(deviceId, t[j].key) {
        Entity.IdKeyInjective(deviceId, t[i].key, deviceId, t[j].key);
        assert false;
      }
    }
  }
}
