/** custom_components/petkit/fan.py: the air purifier's fan entity. Its preset modes are
    the labels of the purifier mode map, its power commands fixed payloads. */
module Fan {
  import opened Common
  import Entity

  /** What the fan reads of the purifier's state; pim and power may be absent from it,
      or present and None. */
  datatype PurifierState = PurifierState(mode: int, pim: Entity.Attr, power: Entity.Attr)

  /** PURIFIER_MODE.get(mode, 0): a name, or the integer 0 for an unmapped mode. */
  datatype ModeValue = ModeLabel(name: string) | ModeZero

  /** The fan descriptor applies only to the K2 purifier. */
  function FanGates(k2: string): Entity.Gates {
    Entity.Gates(None, None, Some([k2]))
  }

  lemma FanApplies(k2: string, deviceType: string)
    ensures Entity.IsSupported<()>(deviceType, FanGates(k2), None) == Ok(Lower(deviceType) == k2)
  {
  }

  /** preset_modes: the labels of the mode map, in map order. */
  function PresetModes(purifierMode: Dict<int, string>): (r: seq<string>)
    ensures |r| == |purifierMode| && forall i :: 0 <= i < |r| ==> r[i] == purifierMode[i].1
  {
    Values(purifierMode)
  }

  /** The current_mode lambda. */
  function CurrentMode(purifierMode: Dict<int, string>, mode: int): (r: ModeValue)
    ensures r == ModeZero <==> Get(purifierMode, mode).None?
    ensures r.ModeLabel? ==> Get(purifierMode, mode) == Some(r.name)
  {
    match Get(purifierMode, mode)
    case Some(name) => ModeLabel(name)
    case None => ModeZero
  }

  /** PetkitFan.preset_mode: None without coordinator data for the device. */
  function PresetMode(purifierMode: Dict<int, string>, deviceData: Option<PurifierState>): (r: Option<ModeValue>)
    ensures r.None? <==> deviceData.None?
    ensures r.Some? ==> r.value == CurrentMode(purifierMode, deviceData.value.mode)
  {
    match deviceData
    case None => None
    case Some(state) => Some(CurrentMode(purifierMode, state.mode))
  }

  /** The DeviceAction keys of a control payload. */
  datatype FanAction = Power | Mode

  /** DeviceCommand.CONTROL_DEVICE with its payload. */
  datatype FanRequest = ControlDevice(deviceId: int, payload: seq<(FanAction, int)>)

  function TurnOn(deviceId: int): FanRequest {
    ControlDevice(deviceId, [(Power, 1)])
  }

  function TurnOff(deviceId: int): FanRequest {
    ControlDevice(deviceId, [(Power, 0)])
  }

  /** Turning on and off send the same single power entry, 1 and 0. */
  lemma PowerPayloads(deviceId: int)
    ensures Get(TurnOn(deviceId).payload, Power) == Some(1) && |TurnOn(deviceId).payload| == 1
    ensures Get(TurnOff(deviceId).payload, Power) == Some(0) && |TurnOff(deviceId).payload| == 1
    ensures TurnOn(deviceId) != TurnOff(deviceId)
  {
  }

  /** The set_mode lambda: the first mode, in map order, whose name was chosen;
      StopIteration for a name the map does not have. */
  function SetMode(purifierMode: Dict<int, string>, deviceId: int, name: string): (r: Py<FanRequest>)
    ensures r.Raise? <==> name !in PresetModes(purifierMode)
    ensures r.Raise? ==> r.exc == StopIteration
    ensures r.Ok? ==> r.value.deviceId == deviceId && |r.value.payload| == 1 && r.value.payload[0].0 == Mode
  {
    match FirstKeyWithValue(purifierMode, name)
    case Some(mode) => Ok(ControlDevice(deviceId, [(Mode, mode)]))
    case None => Raise(StopIteration)
  }

  /** Setting any preset sends a mode that reads back as that preset. */
  lemma PresetReadsBack(purifierMode: Dict<int, string>, deviceId: int, name: string)
    requires DistinctKeys(purifierMode) && name in PresetModes(purifierMode)
    ensures SetMode(purifierMode, deviceId, name).Ok?
    ensures CurrentMode(purifierMode, SetMode(purifierMode, deviceId, name).value.payload[0].1) == ModeLabel(name)
  {
    ForwardLookupRoundTrip(purifierMode, name);
  }

  /** With distinct labels, setting the current preset sends the current mode back. */
  lemma CurrentPresetRoundTrip(purifierMode: Dict<int, string>, deviceId: int, mode: int)
    requires DistinctKeys(purifierMode) && InjectiveValues(purifierMode)
    requires CurrentMode(purifierMode, mode).ModeLabel?
    ensures SetMode(purifierMode, deviceId, CurrentMode(purifierMode, mode).name) == Ok(ControlDevice(deviceId, [(Mode, mode)]))
  {
    ReverseLookupRoundTrip(purifierMode, mode);
  }

  /** available and is_on read pim and power through the same membership test. */
  function Available(deviceData: Option<PurifierState>, powerOnline: set<int>): Py<bool> {
    Entity.AttributeIn(if deviceData.Some? then Some(deviceData.value.pim) else None, powerOnline)
  }

  function IsOn(deviceData: Option<PurifierState>, powerOnline: set<int>): Py<bool> {
    Entity.AttributeIn(if deviceData.Some? then Some(deviceData.value.power) else None, powerOnline)
  }

  /** Both are True when their attribute is absent, False when it holds None, and a
      membership test otherwise; they can differ only through pim and power. */
  lemma AvailableAndIsOn(deviceData: Option<PurifierState>, powerOnline: set<int>)
    ensures deviceData.Some? && deviceData.value.pim.Absent? ==> Available(deviceData, powerOnline) == Ok(true)
    ensures deviceData.Some? && deviceData.value.power.Absent? ==> IsOn(deviceData, powerOnline) == Ok(true)
    ensures deviceData.Some? && deviceData.value.pim == Entity.Present(None) ==> Available(deviceData, powerOnline) == Ok(false)
    ensures deviceData.Some? && deviceData.value.power == Entity.Present(None) ==> IsOn(deviceData, powerOnline) == Ok(false)
    ensures deviceData.Some? && deviceData.value.pim.Present? && deviceData.value.pim.v.Some? ==>
              Available(deviceData, powerOnline) == Ok(deviceData.value.pim.v.value in powerOnline)
    ensures deviceData.Some? && deviceData.value.power.Present? && deviceData.value.power.v.Some? ==>
              IsOn(deviceData, powerOnline) == Ok(deviceData.value.power.v.value in powerOnline)
    ensures deviceData.Some? && deviceData.value.pim == deviceData.value.power ==>
              Available(deviceData, powerOnline) == IsOn(deviceData, powerOnline)
    ensures deviceData.None? ==> Available(deviceData, powerOnline).Raise? && IsOn(deviceData, powerOnline).Raise?
  {
  }
}
