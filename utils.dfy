/** custom_components/petkit/utils.py: map_work_state turns a litter box's work state
    (mode, process, safety warning, pet-in time) into a status string. */
module WorkState {
  import opened Common

  datatype LitterWorkState = LitterWorkState(workMode: int, workProcess: int, safeWarn: int, petInTime: int)

  // ---------------------------------------------------------------------------
  // The code as written

  /** get_safe_warn_status. */
  function SafeWarnStatus(safeWarn: int, petInTime: int): string {
    if safeWarn != 0 then
      if safeWarn == 1 then "pet_entered"
      else if safeWarn == 3 then "cover"
      else "system_error"
    else if petInTime == 0 then "pet_approach"
    else "pet_using"
  }

  /** work_process split into its tens (floor division) and units (floor modulo). With a
      divisor of 10, Dafny's / and % agree with Python's floor and % for every sign. */
  function Major(workProcess: int): int { workProcess / 10 }
  function Minor(workProcess: int): int { workProcess % 10 }

  /** handle_process_mapping. */
  function ProcessMapping(prefix: string, ws: LitterWorkState): string {
    var major := Major(ws.workProcess);
    var minor := Minor(ws.workProcess);
    if major == 1 then prefix
    else if major == 2 then
      if minor == 2 then prefix + "_paused_" + SafeWarnStatus(ws.safeWarn, ws.petInTime)
      else prefix + "_paused"
    else if major == 3 then "resetting_device"
    else if major == 4 then
      if minor == 2 then "paused_" + SafeWarnStatus(ws.safeWarn, ws.petInTime)
      else "paused"
    else prefix
  }

  /** map_work_state. None stands for a missing work state. */
  function MapWorkState(ws: Option<LitterWorkState>): string {
    match ws
    case None => "idle"
    case Some(w) =>
      if w.workMode == 0 then ProcessMapping("cleaning", w)
      else if w.workMode == 1 then ProcessMapping("dumping", w)
      else if w.workMode == 2 then "unknown"
      else if w.workMode == 3 then "resetting"
      else if w.workMode == 4 then "leveling"
      else if w.workMode == 5 then "calibrating"
      else if w.workMode == 9 then ProcessMapping("maintenance", w)
      else "idle"
  }

  // ---------------------------------------------------------------------------
  // An independent classification of litter-box states, and its rendering

  datatype Phase = Cleaning | Dumping | Maintenance
  datatype SafeWarn = PetEntered | Cover | SystemError | PetApproach | PetUsing

  datatype Status =
    | Idle | Unknown | Resetting | Leveling | Calibrating | ResettingDevice
    | Working(phase: Phase)
    | PhasePaused(phase: Phase, warn: Option<SafeWarn>)
    | Paused(warn: Option<SafeWarn>)

  function PhaseName(p: Phase): string {
    match p
    case Cleaning => "cleaning"
    case Dumping => "dumping"
    case Maintenance => "maintenance"
  }

  function SafeWarnName(w: SafeWarn): string {
    match w
    case PetEntered => "pet_entered"
    case Cover => "cover"
    case SystemError => "system_error"
    case PetApproach => "pet_approach"
    case PetUsing => "pet_using"
  }

  function StatusString(st: Status): string {
    match st
    case Idle => "idle"
    case Unknown => "unknown"
    case Resetting => "resetting"
    case Leveling => "leveling"
    case Calibrating => "calibrating"
    case ResettingDevice => "resetting_device"
    case Working(p) => PhaseName(p)
    case PhasePaused(p, None) => PhaseName(p) + "_paused"
    case PhasePaused(p, Some(w)) => PhaseName(p) + "_paused_" + SafeWarnName(w)
    case Paused(None) => "paused"
    case Paused(Some(w)) => "paused_" + SafeWarnName(w)
  }

  /** The safety-warning reading: 1 a pet entered, 3 the cover, any other non-zero value
      a system error; with no warning, whether a pet is inside. */
  function ClassifyWarn(safeWarn: int, petInTime: int): SafeWarn {
    if safeWarn == 0 then (if petInTime == 0 then PetApproach else PetUsing)
    else if safeWarn == 1 then PetEntered
    else if safeWarn == 3 then Cover
    else SystemError
  }

  /** What the process digits mean within a cleaning, dumping or maintenance cycle:
      tens 2 paused in the cycle, 3 resetting the device, 4 paused; units 2 adds the
      safety reading; any other tens digit is the cycle itself. */
  function ClassifyProcess(p: Phase, ws: LitterWorkState): Status {
    var major := Major(ws.workProcess);
    var warn := if Minor(ws.workProcess) == 2 then Some(ClassifyWarn(ws.safeWarn, ws.petInTime)) else None;
    if major == 2 then PhasePaused(p, warn)
    else if major == 3 then ResettingDevice
    else if major == 4 then Paused(warn)
    else Working(p)
  }

  function Classify(ws: Option<LitterWorkState>): Status {
    match ws
    case None => Idle
    case Some(w) =>
      match w.workMode
      case 0 => ClassifyProcess(Cleaning, w)
      case 1 => ClassifyProcess(Dumping, w)
      case 2 => Unknown
      case 3 => Resetting
      case 4 => Leveling
      case 5 => Calibrating
      case 9 => ClassifyProcess(Maintenance, w)
      case _ => Idle
  }

  lemma SafeWarnStatusIsClassified(safeWarn: int, petInTime: int)
    ensures SafeWarnStatus(safeWarn, petInTime) == SafeWarnName(ClassifyWarn(safeWarn, petInTime))
  {
  }

  /** map_work_state renders the classification: its string is exactly the name of the
      status Classify assigns to the same work state. */
  lemma {:induction false} MapWorkStateIsClassified(ws: Option<LitterWorkState>)
    ensures MapWorkState(ws) == StatusString(Classify(ws))
  {
    match ws
    case None =>
    case Some(w) =>
      SafeWarnStatusIsClassified(w.safeWarn, w.petInTime);
      var m := w.workMode;
      if m == 0 || m == 1 || m == 9 {
        var p := if m == 0 then Cleaning else if m == 1 then Dumping else Maintenance;
        assert MapWorkState(ws) == ProcessMapping(PhaseName(p), w);
        assert Classify(ws) == ClassifyProcess(p, w);
      }
  }

  // ---------------------------------------------------------------------------
  // The status string is unambiguous: it can be read back

  function ParseSafeWarn(s: string): Option<SafeWarn> {
    if s == "pet_entered" then Some(PetEntered)
    else if s == "cover" then Some(Cover)
    else if s == "system_error" then Some(SystemError)
    else if s == "pet_approach" then Some(PetApproach)
    else if s == "pet_using" then Some(PetUsing)
    else None
  }

  function ParsePhaseStatus(p: Phase, s: string): Option<Status> {
    var n := PhaseName(p);
    if s == n then Some(Working(p))
    else if s == n + "_paused" then Some(PhasePaused(p, None))
    else if |s| > |n| + 8 && s[..|n| + 8] == n + "_paused_" then
      match ParseSafeWarn(s[|n| + 8..])
      case Some(w) => Some(PhasePaused(p, Some(w)))
      case None => None
    else None
  }

  /** Reads a status string back into the status it names. */
  function ParseStatus(s: string): Option<Status> {
    if s == "idle" then Some(Idle)
    else if s == "unknown" then Some(Unknown)
    else if s == "resetting" then Some(Resetting)
    else if s == "leveling" then Some(Leveling)
    else if s == "calibrating" then Some(Calibrating)
    else if s == "resetting_device" then Some(ResettingDevice)
    else if s == "paused" then Some(Paused(None))
    else if |s| > 7 && s[..7] == "paused_" then
      match ParseSafeWarn(s[7..])
      case Some(w) => Some(Paused(Some(w)))
      case None => None
    else ParseCycleStatus(s)
  }

  /** The cleaning, dumping and maintenance readings, tried in that order. */
  function ParseCycleStatus(s: string): Option<Status> {
    if ParsePhaseStatus(Cleaning, s).Some? then ParsePhaseStatus(Cleaning, s)
    else if ParsePhaseStatus(Dumping, s).Some? then ParsePhaseStatus(Dumping, s)
    else ParsePhaseStatus(Maintenance, s)
  }

  lemma ParseSafeWarnName(w: SafeWarn)
    ensures ParseSafeWarn(SafeWarnName(w)) == Some(w)
  {
  }

  /** Strings that start with different characters differ, and so do their prefixes. */
  lemma FirstCharDiffers(s: string, t: string)
    requires |s| > 0 && |t| > 0 && s[0] != t[0]
    ensures s != t
    ensures |s| >= |t| ==> s[..|t|] != t
  {
    if |s| >= |t| {
      assert s[..|t|][0] == s[0];
    }
  }

  /** A string starting with one cycle's first letter is not read as another cycle's. */
  lemma OtherPhaseFails(q: Phase, s: string)
    requires |s| > 0 && s[0] != PhaseName(q)[0]
    ensures ParsePhaseStatus(q, s).None?
  {
    var n := PhaseName(q);
    FirstCharDiffers(s, n);
    FirstCharDiffers(s, n + "_paused");
    FirstCharDiffers(s, n + "_paused_");
  }

  /** Reading a string that starts like a cycle name: the earlier cycles fail on the first
      letter, so the cycle's own reading is the answer. */
  lemma PhaseDispatch(p: Phase, s: string)
    requires |s| > 0 && s[0] == PhaseName(p)[0]
    requires s != "calibrating"
    requires |s| >= 7 ==> s[..7] != "paused_"
    ensures ParseStatus(s) == ParsePhaseStatus(p, s)
  {
    NotConstantStatus(p, s);
    CycleDispatch(p, s);
  }

  /** A string starting like a cycle name, other than "calibrating", is none of the fixed
      statuses and does not start with "paused_". */
  lemma NotConstantStatus(p: Phase, s: string)
    requires |s| > 0 && s[0] == PhaseName(p)[0]
    requires s != "calibrating"
    requires |s| >= 7 ==> s[..7] != "paused_"
    ensures ParseStatus(s) == ParseCycleStatus(s)
  {
    assert s != "idle" && s != "unknown" && s != "leveling" && s != "paused" by {
      FirstCharDiffers(s, "idle");
      FirstCharDiffers(s, "unknown");
      FirstCharDiffers(s, "leveling");
      FirstCharDiffers(s, "paused");
    }
    assert s != "resetting_device" by {
      FirstCharDiffers(s, "resetting_device");
    }
    assert s != "resetting" by {
      FirstCharDiffers(s, "resetting");
    }
  }

  lemma CycleDispatch(p: Phase, s: string)
    requires |s| > 0 && s[0] == PhaseName(p)[0]
    ensures ParseCycleStatus(s) == ParsePhaseStatus(p, s)
  {
    match p
    case Cleaning =>
    case Dumping =>
      OtherPhaseFails(Cleaning, s);
    case Maintenance =>
      OtherPhaseFails(Cleaning, s);
      OtherPhaseFails(Dumping, s);
  }

  lemma PhasePausedRoundTrip(p: Phase, w: SafeWarn)
    ensures ParseStatus(StatusString(PhasePaused(p, Some(w)))) == Some(PhasePaused(p, Some(w)))
  {
    var n := PhaseName(p);
    var s := n + "_paused_" + SafeWarnName(w);
    assert s[..|n| + 8] == n + "_paused_";
    assert s[|n| + 8..] == SafeWarnName(w);
    ParseSafeWarnName(w);
    assert ParsePhaseStatus(p, s) == Some(PhasePaused(p, Some(w)));
    assert s[0] == n[0];
    FirstCharDiffers(s, "paused_");
    PhaseDispatch(p, s);
  }

  lemma PausedRoundTrip(w: SafeWarn)
    ensures ParseStatus(StatusString(Paused(Some(w)))) == Some(Paused(Some(w)))
  {
    var s := "paused_" + SafeWarnName(w);
    assert s[..7] == "paused_";
    assert s[7..] == SafeWarnName(w);
    ParseSafeWarnName(w);
  }

  lemma ConstantRoundTrip(st: Status)
    requires st.Idle? || st.Unknown? || st.Resetting? || st.Leveling? || st.Calibrating? || st.ResettingDevice?
             || st == Paused(None)
    ensures ParseStatus(StatusString(st)) == Some(st)
  {
  }

  lemma WorkingRoundTrip(p: Phase)
    ensures ParseStatus(StatusString(Working(p))) == Some(Working(p))
  {
    FirstCharDiffers(PhaseName(p), "paused_");
    PhaseDispatch(p, PhaseName(p));
  }

  lemma PhasePausedNoWarnRoundTrip(p: Phase)
    ensures ParseStatus(StatusString(PhasePaused(p, None))) == Some(PhasePaused(p, None))
  {
    var n := PhaseName(p);
    var s := n + "_paused";
    assert s[0] == n[0];
    FirstCharDiffers(s, "paused_");
    PhaseDispatch(p, s);
  }

  /** Every status string reads back as the status it renders, so distinct statuses never
      share a string. */
  lemma {:induction false} StatusRoundTrip(st: Status)
    ensures ParseStatus(StatusString(st)) == Some(st)
  {
    match st
    case Working(p) => WorkingRoundTrip(p);
    case PhasePaused(p, None) => PhasePausedNoWarnRoundTrip(p);
    case PhasePaused(p, Some(w)) => PhasePausedRoundTrip(p, w);
    case Paused(None) => ConstantRoundTrip(st);
    case Paused(Some(w)) => PausedRoundTrip(w);
    case _ => ConstantRoundTrip(st);
  }

  /** The displayed litter state determines the classified state. */
  lemma MapWorkStateDecodes(ws: Option<LitterWorkState>)
    ensures ParseStatus(MapWorkState(ws)) == Some(Classify(ws))
  {
    MapWorkStateIsClassified(ws);
    StatusRoundTrip(Classify(ws));
  }

  // ---------------------------------------------------------------------------
  // Properties of map_work_state

  /** No work state reads as idle; modes 2 to 5 and any unlisted mode ignore the process. */
  lemma ModeOnlyCases(ws: LitterWorkState)
    ensures MapWorkState(None) == "idle"
    ensures ws.workMode !in {0, 1, 2, 3, 4, 5, 9} ==> MapWorkState(Some(ws)) == "idle"
    ensures ws.workMode == 2 ==> MapWorkState(Some(ws)) == "unknown"
    ensures ws.workMode == 3 ==> MapWorkState(Some(ws)) == "resetting"
    ensures ws.workMode == 4 ==> MapWorkState(Some(ws)) == "leveling"
    ensures ws.workMode == 5 ==> MapWorkState(Some(ws)) == "calibrating"
  {
  }

  /** In modes 0, 1 and 9 the result depends on the process only through its two digits:
      tens 1 and any tens other than 2, 3, 4 give the bare cycle name, 3 "resetting_device";
      a safety reading is appended exactly when the units digit is 2 and the tens are 2 or 4. */
  lemma ProcessCases(ws: LitterWorkState, p: Phase)
    requires ws.workMode == (match p case Cleaning => 0 case Dumping => 1 case Maintenance => 9)
    ensures Major(ws.workProcess) !in {2, 3, 4} ==> MapWorkState(Some(ws)) == PhaseName(p)
    ensures Major(ws.workProcess) == 3 ==> MapWorkState(Some(ws)) == "resetting_device"
    ensures Major(ws.workProcess) == 2 ==>
              MapWorkState(Some(ws)) ==
                PhaseName(p) + "_paused" +
                (if Minor(ws.workProcess) == 2 then "_" + SafeWarnStatus(ws.safeWarn, ws.petInTime) else "")
    ensures Major(ws.workProcess) == 4 ==>
              MapWorkState(Some(ws)) ==
                "paused" + (if Minor(ws.workProcess) == 2 then "_" + SafeWarnStatus(ws.safeWarn, ws.petInTime) else "")
  {
    var st := SafeWarnStatus(ws.safeWarn, ws.petInTime);
    assert PhaseName(p) + "_paused_" + st == PhaseName(p) + "_paused" + ("_" + st);
    assert "paused_" + st == "paused" + ("_" + st);
  }

  /** A work process and the floor-division split: process == 10 * major + minor with
      0 <= minor < 10, as Python's floor and % give, negative processes included. */
  lemma ProcessDigits(workProcess: int)
    ensures workProcess == 10 * Major(workProcess) + Minor(workProcess)
    ensures 0 <= Minor(workProcess) < 10
    ensures Major(-5) == -1 && Minor(-5) == 5
  {
  }

  /** The four outcomes of the safety-warning reading. */
  lemma SafeWarnCases(safeWarn: int, petInTime: int)
    ensures safeWarn == 1 ==> SafeWarnStatus(safeWarn, petInTime) == "pet_entered"
    ensures safeWarn == 3 ==> SafeWarnStatus(safeWarn, petInTime) == "cover"
    ensures safeWarn !in {0, 1, 3} ==> SafeWarnStatus(safeWarn, petInTime) == "system_error"
    ensures safeWarn == 0 ==> SafeWarnStatus(safeWarn, petInTime) == (if petInTime == 0 then "pet_approach" else "pet_using")
  {
  }

  /** A prefix followed by each safety reading. */
  function WarnSuffixed(prefix: string): set<string> {
    {prefix + "pet_entered", prefix + "cover", prefix + "system_error", prefix + "pet_approach", prefix + "pet_using"}
  }

  /** A cycle name, its paused form, and its paused form with each safety reading. */
  function PhaseStrings(name: string): set<string> {
    {name, name + "_paused"} + WarnSuffixed(name + "_paused_")
  }

  /** The strings map_work_state can produce. */
  function WorkStateStrings(): set<string> {
    {"idle", "unknown", "resetting", "leveling", "calibrating", "resetting_device", "paused"}
    + WarnSuffixed("paused_")
    + PhaseStrings("cleaning") + PhaseStrings("dumping") + PhaseStrings("maintenance")
  }

  lemma WarnSuffixedMember(prefix: string, w: SafeWarn)
    ensures prefix + SafeWarnName(w) in WarnSuffixed(prefix)
  {
  }

  lemma PhaseStringsMember(st: Status)
    requires st.Working? || st.PhasePaused?
    ensures StatusString(st) in PhaseStrings(PhaseName(st.phase))
  {
    match st
    case PhasePaused(p, Some(w)) => WarnSuffixedMember(PhaseName(p) + "_paused_", w);
    case _ =>
  }

  lemma {:induction false} StatusIsEnumerated(st: Status)
    ensures StatusString(st) in WorkStateStrings()
  {
    match st
    case Working(p) => PhaseStringsMember(st);
    case PhasePaused(p, _) => PhaseStringsMember(st);
    case Paused(Some(w)) => WarnSuffixedMember("paused_", w);
    case _ =>
  }

  /** The result of map_work_state is always one of a finite, enumerated set of strings. */
  lemma MapWorkStateIsEnumerated(ws: Option<LitterWorkState>)
    ensures MapWorkState(ws) in WorkStateStrings()
  {
    MapWorkStateIsClassified(ws);
    StatusIsEnumerated(Classify(ws));
  }
}
