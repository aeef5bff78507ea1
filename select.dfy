/** custom_components/petkit/select.py: the setting selectors. Each shows a device
    setting through an option map (setting value to label), offers the map's labels, and
    sends back the first setting value whose label was chosen. */
module Select {
  import opened Common
  import Entity

  /** The device setting a selector shows. */
  datatype Setting = SurplusStandard | EatSensitivity | PetSensitivity | MoveSensitivity | SandType | AutoIntervalMin

  /** The settings record of a feeder or litter box. */
  datatype Settings = Settings(surplusStandard: int, eatSensitivity: int, petSensitivity: int,
                               moveSensitivity: int, sandType: int, autoIntervalMin: int)

  function SettingValue(s: Settings, which: Setting): int {
    match which
    case SurplusStandard => s.surplusStandard
    case EatSensitivity => s.eatSensitivity
    case PetSensitivity => s.petSensitivity
    case MoveSensitivity => s.moveSensitivity
    case SandType => s.sandType
    case AutoIntervalMin => s.autoIntervalMin
  }

  /** The name of the setting in the update request. */
  function PayloadKey(which: Setting): string {
    match which
    case SurplusStandard => "surplusStandard"
    case EatSensitivity => "eatSensitivity"
    case PetSensitivity => "petSensitivity"
    case MoveSensitivity => "moveSensitivity"
    case SandType => "sandType"
    case AutoIntervalMin => "autoIntervalMin"
  }

  /** The option maps of the constants module. */
  datatype OptionMaps = OptionMaps(surplusFoodLevel: Dict<int, string>, iaDetectionSensitivity: Dict<int, string>,
                                   litterType: Dict<int, string>, cleaningInterval: Dict<int, string>)

  datatype SelectDesc = SelectDesc(key: string, setting: Setting, optionMap: Dict<int, string>, gates: Entity.Gates)

  /** SELECT_MAPPING[Feeder]: four feeder selectors, each limited to the two camera
      feeders. */
  function FeederSelects(maps: OptionMaps, d4h: string, d4sh: string): seq<SelectDesc> {
    var cameras := Entity.Gates(None, None, Some([d4h, d4sh]));
    [ SelectDesc("Surplus level", SurplusStandard, maps.surplusFoodLevel, cameras),
      SelectDesc("Eat detection sensitivity", EatSensitivity, maps.iaDetectionSensitivity, cameras),
      SelectDesc("Pet detection sensitivity", PetSensitivity, maps.iaDetectionSensitivity, cameras),
      SelectDesc("Move detection sensitivity", MoveSensitivity, maps.iaDetectionSensitivity, cameras) ]
  }

  /** SELECT_MAPPING[Litter]: two ungated selectors. Fountains have none. */
  function LitterSelects(maps: OptionMaps): seq<SelectDesc> {
    [ SelectDesc("Litter type", SandType, maps.litterType, Entity.NoGates),
      SelectDesc("Cleaning interval", AutoIntervalMin, maps.cleaningInterval, Entity.NoGates) ]
  }

  /** The selectors have no value accessor: a feeder selector applies exactly to the two
      camera feeders, a litter selector to every litter box. */
  lemma SelectsApply(maps: OptionMaps, d4h: string, d4sh: string, deviceType: string)
    ensures forall i :: 0 <= i < |FeederSelects(maps, d4h, d4sh)| ==>
              Entity.IsSupported<()>(deviceType, FeederSelects(maps, d4h, d4sh)[i].gates, None) ==
                Ok(Lower(deviceType) in [d4h, d4sh])
    ensures forall i :: 0 <= i < |LitterSelects(maps)| ==>
              Entity.IsSupported<()>(deviceType, LitterSelects(maps)[i].gates, None) == Ok(true)
  {
  }

  /** The current_option lambda: the label of the setting's value; KeyError for a value
      the map does not have. */
  function CurrentOptionOf(desc: SelectDesc, settings: Settings): (r: Py<string>)
    ensures r.Ok? <==> Get(desc.optionMap, SettingValue(settings, desc.setting)).Some?
    ensures r.Ok? ==> Get(desc.optionMap, SettingValue(settings, desc.setting)) == Some(r.value)
    ensures r.Raise? ==> r.exc == KeyError
  {
    match Get(desc.optionMap, SettingValue(settings, desc.setting))
    case Some(option) => Ok(option)
    case None => Raise(KeyError)
  }

  /** PetkitSelect.current_option: None without coordinator data for the device. */
  function CurrentOption(desc: SelectDesc, deviceData: Option<Settings>): (r: Py<Option<string>>)
    ensures deviceData.None? ==> r == Ok(None)
    ensures deviceData.Some? ==>
              (r.Ok? <==> CurrentOptionOf(desc, deviceData.value).Ok?) &&
              (r.Ok? ==> r.value == Some(CurrentOptionOf(desc, deviceData.value).value))
  {
    match deviceData
    case None => Ok(None)
    case Some(settings) =>
      match CurrentOptionOf(desc, settings)
      case Ok(option) => Ok(Some(option))
      case Raise(e) => Raise(e)
  }

  /** PetkitSelect.options: the labels in map order. */
  function Options(desc: SelectDesc): seq<string> {
    Values(desc.optionMap)
  }

  lemma OptionsAreLabels(desc: SelectDesc)
    ensures |Options(desc)| == |desc.optionMap|
    ensures forall i :: 0 <= i < |desc.optionMap| ==> Options(desc)[i] == desc.optionMap[i].1
  {
  }

  /** DeviceCommand.UPDATE_SETTING with its payload. */
  datatype SettingRequest = UpdateSetting(deviceId: int, payload: Dict<string, int>)

  /** The action lambda: the first setting value, in map order, whose label was chosen.
      A label the map does not have makes next() raise StopIteration. */
  function Action(desc: SelectDesc, deviceId: int, option: string): (r: Py<SettingRequest>)
    ensures r.Raise? <==> option !in Options(desc)
    ensures r.Raise? ==> r.exc == StopIteration
    ensures r.Ok? ==> r.value.deviceId == deviceId && |r.value.payload| == 1 &&
                      r.value.payload[0].0 == PayloadKey(desc.setting)
  {
    match FirstKeyWithValue(desc.optionMap, option)
    case Some(k) => Ok(UpdateSetting(deviceId, [(PayloadKey(desc.setting), k)]))
    case None => Raise(StopIteration)
  }

  /** Choosing any offered label sends a setting value that reads back as that label. */
  lemma ChosenOptionReadsBack(desc: SelectDesc, deviceId: int, option: string)
    requires DistinctKeys(desc.optionMap) && option in Options(desc)
    ensures Action(desc, deviceId, option).Ok?
    ensures Get(desc.optionMap, Action(desc, deviceId, option).value.payload[0].1) == Some(option)
  {
    ForwardLookupRoundTrip(desc.optionMap, option);
  }

  /** With distinct labels, choosing the current option sends the current setting back. */
  lemma CurrentOptionRoundTrip(desc: SelectDesc, settings: Settings, deviceId: int)
    requires DistinctKeys(desc.optionMap) && InjectiveValues(desc.optionMap)
    requires CurrentOptionOf(desc, settings).Ok?
    ensures Action(desc, deviceId, CurrentOptionOf(desc, settings).value) ==
              Ok(UpdateSetting(deviceId, [(PayloadKey(desc.setting), SettingValue(settings, desc.setting))]))
  {
    ReverseLookupRoundTrip(desc.optionMap, SettingValue(settings, desc.setting));
  }
}
