/** custom_components/petkit/binary_sensor.py: the value and icon of the binary sensors.
    Most icons show an alert variant exactly when the value is on; the exceptions are
    stated as exceptions. */
module BinarySensor {
  import opened Common
  import Entity

  /** A food hopper is reported empty below one unit. */
  function FoodLevelLow(food: int): bool {
    food < 1
  }

  function FoodLevelIcon(food: int): string {
    if food < 1 then "mdi:food-drumstick-off" else "mdi:food-drumstick"
  }

  lemma FoodLevelIconCoupled(food: int)
    ensures FoodLevelIcon(food) == "mdi:food-drumstick-off" <==> FoodLevelLow(food)
    ensures FoodLevelLow(food) <==> food <= 0
  {
  }

  /** The two-way icons of the litter box, by the flag they show. */
  datatype LitterFlag = LiquidEmpty | LiquidLack | SandLack | WasteBin

  function AlertIcon(flag: LitterFlag): string {
    match flag
    case LiquidEmpty => "mdi:water-remove"
    case LiquidLack => "mdi:water-alert"
    case SandLack => "mdi:wave-arrow-down"
    case WasteBin => "mdi:delete-empty"
  }

  function NormalIcon(flag: LitterFlag): string {
    match flag
    case LiquidEmpty => "mdi:water-check"
    case LiquidLack => "mdi:water-check"
    case SandLack => "mdi:check-circle"
    case WasteBin => "mdi:delete"
  }

  /** The icon lambda of a flag descriptor, over the value it reads. */
  function FlagIcon(flag: LitterFlag, on: bool): string {
    if on then AlertIcon(flag) else NormalIcon(flag)
  }

  /** The alert variant shows exactly when the value is on. */
  lemma FlagIconCoupled(flag: LitterFlag, on: bool)
    ensures FlagIcon(flag, on) == AlertIcon(flag) <==> on
    ensures FlagIcon(flag, on) == NormalIcon(flag) <==> !on
  {
  }

  /** waste_bin_presence is on (a problem) when the box is absent. */
  function WasteBinPresence(boxState: bool): bool {
    !boxState
  }

  function WasteBinPresenceIcon(boxState: bool): string {
    if boxState then "mdi:delete" else "mdi:delete-forever"
  }

  /** Its icon is "mdi:delete" exactly when the problem is off, the inverse of the other
      flags; this is also the waste bin's normal icon. */
  lemma WasteBinPresenceCoupled(boxState: bool)
    ensures WasteBinPresenceIcon(boxState) == "mdi:delete" <==> !WasteBinPresence(boxState)
    ensures WasteBinPresenceIcon(boxState) == "mdi:delete" <==> boxState
    ensures WasteBinPresenceIcon(boxState) == NormalIcon(WasteBin) <==> !WasteBinPresence(boxState)
  {
  }

  /** What the litter camera descriptor reads: the value reads `camera`, the icon
      `camera_status`. */
  datatype LitterCamera = LitterCamera(camera: bool, cameraStatus: bool)

  function LitterCameraValue(s: LitterCamera): bool {
    s.camera
  }

  function LitterCameraIcon(s: LitterCamera): string {
    if s.cameraStatus then "mdi:cctv" else "mdi:cctv-off"
  }

  /** The icon follows the value only when the two fields agree: a camera that is on with
      a status of off shows the off icon. */
  lemma LitterCameraMayDisagree()
    ensures LitterCameraValue(LitterCamera(true, false)) && LitterCameraIcon(LitterCamera(true, false)) == "mdi:cctv-off"
    ensures forall s: LitterCamera :: s.camera == s.cameraStatus ==> (LitterCameraIcon(s) == "mdi:cctv" <==> LitterCameraValue(s))
  {
  }

  /** The litter camera descriptor applies only to D4H and D4SH. */
  lemma LitterCameraApplies<V>(d4h: string, d4sh: string, deviceType: string, probe: Option<Py<V>>)
    requires Lower(deviceType) !in [d4h, d4sh]
    ensures Entity.IsSupported(deviceType, Entity.Gates(None, None, Some([d4h, d4sh])), probe) == Ok(false)
  {
  }

  /** The fountain descriptors and the field each reads. */
  datatype FountainField = NoDisturbingSwitch | LackWarning
  datatype Fountain = Fountain(noDisturbingSwitch: bool, lackWarning: bool)

  const FountainSensors: seq<(string, FountainField)> :=
    [("no_disturbing_switch", NoDisturbingSwitch), ("lack_warning", LackWarning), ("low_battery", LackWarning)]

  function FountainValue(field: FountainField, f: Fountain): bool {
    match field
    case NoDisturbingSwitch => f.noDisturbingSwitch
    case LackWarning => f.lackWarning
  }

  /** low_battery reads lack_warning's field, so the two always agree. */
  lemma LowBatteryIsLackWarning(f: Fountain)
    ensures FountainSensors[2].0 == "low_battery" && FountainSensors[1].0 == "lack_warning"
    ensures FountainValue(FountainSensors[2].1, f) == FountainValue(FountainSensors[1].1, f)
  {
  }
}
