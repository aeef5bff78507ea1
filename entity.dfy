/** custom_components/petkit/entity.py: whether a (device, descriptor) pair becomes an
    entity, the device-registry model string, and the comprehension every platform's
    setup uses to pair devices with the descriptors that apply to them. */
module Entity {
  import opened Common

  /** The three type lists of a descriptor; None is an absent list. */
  datatype Gates = Gates(forceAdd: Option<seq<string>>, ignoreTypes: Option<seq<string>>, onlyForTypes: Option<seq<string>>)

  const NoGates := Gates(None, None, None)

  /** The entries of a list that the truthiness test lets through: None and [] both give []. */
  function Entries(l: Option<seq<string>>): seq<string> {
    match l
    case None => []
    case Some(s) => s
  }

  /** The decision the three type checks take, in their fixed order, or None when all
      three let the device through to the accessor probe. The device type is lower-cased,
      the list entries are compared as written. */
  function TypeGate(deviceType: string, g: Gates): (r: Option<bool>)
    ensures r == Some(true) <==> Lower(deviceType) in Entries(g.forceAdd)
    ensures r == Some(false) <==>
              Lower(deviceType) !in Entries(g.forceAdd) &&
              (Lower(deviceType) in Entries(g.ignoreTypes) ||
               (|Entries(g.onlyForTypes)| > 0 && Lower(deviceType) !in Entries(g.onlyForTypes)))
  {
    var t := Lower(deviceType);
    if t in Entries(g.forceAdd) then Some(true)
    else if t in Entries(g.ignoreTypes) then Some(false)
    else if |Entries(g.onlyForTypes)| > 0 && t !in Entries(g.onlyForTypes) then Some(false)
    else None
  }

  /** A state attribute the entities probe with `hasattr`: absent, or present holding
      an integer or None. */
  datatype Attr = Absent | Present(v: Option<int>)

  /** The availability test of the entities: `attribute` is the coordinator's entry for
      the device (None when it has none) holding the state attribute. Absent, the answer
      is True; present, its value must be one of `states`, which a None never is; a
      missing entry fails on the attribute access. */
  function AttributeIn(attribute: Option<Attr>, states: set<int>): (r: Py<bool>)
    ensures r.Raise? <==> attribute.None?
    ensures r.Raise? ==> r.exc == AttributeError
    ensures r == Ok(false) <==>
              attribute.Some? && attribute.value.Present? && (attribute.value.v.None? || attribute.value.v.value !in states)
    ensures r == Ok(true) <==>
              attribute == Some(Absent) || (attribute.Some? && attribute.value.Present? && attribute.value.v.Some? && attribute.value.v.value in states)
  {
    match attribute
    case None => Raise(AttributeError)
    case Some(Absent) => Ok(true)
    case Some(Present(None)) => Ok(false)
    case Some(Present(Some(v))) => Ok(v in states)
  }

  /** PetKitDescSensorBase.is_supported. `probe` is None when the descriptor has no
      `value` accessor, otherwise the outcome of calling it on the device. An
      AttributeError means unsupported; any other exception propagates. */
  function IsSupported<V>(deviceType: string, g: Gates, probe: Option<Py<V>>): Py<bool> {
    match TypeGate(deviceType, g)
    case Some(b) => Ok(b)
    case None =>
      match probe
      case None => Ok(true)
      case Some(Ok(_)) => Ok(true)
      case Some(Raise(e)) => if e == AttributeError then Ok(false) else Raise(e)
  }

  /** An independent statement of when a descriptor applies: forced, or neither excluded
      by a type list nor failing the probe with an AttributeError. */
  lemma IsSupportedCharacterised<V>(deviceType: string, g: Gates, probe: Option<Py<V>>)
    ensures IsSupported(deviceType, g, probe) == Ok(true) <==>
              var t := Lower(deviceType);
              || t in Entries(g.forceAdd)
              || (&& t !in Entries(g.ignoreTypes)
                  && (|Entries(g.onlyForTypes)| == 0 || t in Entries(g.onlyForTypes))
                  && (probe.None? || probe.value.Ok?))
    ensures IsSupported(deviceType, g, probe).Raise? <==>
              TypeGate(deviceType, g).None? && probe.Some? && probe.value.Raise? &&
              probe.value.exc != AttributeError
  {
  }

  /** force_add wins over every other check, whatever the probe does. */
  lemma ForceAddWins<V>(deviceType: string, g: Gates, probe: Option<Py<V>>)
    requires Lower(deviceType) in Entries(g.forceAdd)
    ensures IsSupported(deviceType, g, probe) == Ok(true)
  {
  }

  /** An ignored type is unsupported unless forced, whatever the probe does. */
  lemma IgnoreExcludes<V>(deviceType: string, g: Gates, probe: Option<Py<V>>)
    requires Lower(deviceType) !in Entries(g.forceAdd)
    requires Lower(deviceType) in Entries(g.ignoreTypes)
    ensures IsSupported(deviceType, g, probe) == Ok(false)
  {
  }

  /** A non-empty only_for_types that does not list the type excludes it, even when the
      probe would succeed. */
  lemma OnlyForRestricts<V>(deviceType: string, g: Gates, probe: Option<Py<V>>)
    requires Lower(deviceType) !in Entries(g.forceAdd) && Lower(deviceType) !in Entries(g.ignoreTypes)
    requires |Entries(g.onlyForTypes)| > 0 && Lower(deviceType) !in Entries(g.onlyForTypes)
    ensures IsSupported(deviceType, g, probe) == Ok(false)
  {
  }

  /** Empty lists behave exactly like absent ones. */
  lemma EmptyListsAreAbsent<V>(deviceType: string, probe: Option<Py<V>>)
    ensures IsSupported(deviceType, Gates(Some([]), Some([]), Some([])), probe) ==
            IsSupported(deviceType, NoGates, probe)
  {
  }

  /** Past the type checks only an AttributeError makes a descriptor unsupported: an
      accessor that returns None still yields True, and no accessor at all yields True. */
  lemma ProbeDecides<V>(deviceType: string, g: Gates, v: V)
    requires TypeGate(deviceType, g).None?
    ensures IsSupported(deviceType, g, Some(Ok(v))) == Ok(true)
    ensures IsSupported<V>(deviceType, g, None) == Ok(true)
    ensures IsSupported<V>(deviceType, g, Some(Raise(AttributeError))) == Ok(false)
  {
  }

  predicate HasUpper(s: string) {
    exists i :: 0 <= i < |s| && 'A' <= s[i] <= 'Z'
  }

  /** No lower-cased string contains an upper-case letter. */
  lemma LowerHasNoUpper(s: string)
    ensures !HasUpper(Lower(s))
  {
    forall i | 0 <= i < |s| ensures !('A' <= Lower(s)[i] <= 'Z') {
      assert Lower(s)[i] == LowerChar(s[i]);
    }
  }

  /** Only the device type is lower-cased: a list entry written with an upper-case letter
      never matches any device, so such a force_add entry never forces anything. */
  lemma UpperCaseEntryNeverMatches(deviceType: string, l: seq<string>)
    requires forall e :: e in l ==> HasUpper(e)
    ensures Lower(deviceType) !in l
  {
    LowerHasNoUpper(deviceType);
  }

  // ---------------------------------------------------------------------------
  // PetkitEntity.device_info model string

  /** `f"{PETKIT_DEVICES_MAPPING.get(type.lower(), 'Unknown Device')} ({type})"`. */
  function ModelString(devicesMapping: Dict<string, string>, deviceType: string): (r: string)
    ensures |r| == |GetOr(devicesMapping, Lower(deviceType), "Unknown Device")| + |deviceType| + 3
    ensures r[|r| - |deviceType| - 1..|r| - 1] == deviceType && r[|r| - 1] == ')'
    ensures Get(devicesMapping, Lower(deviceType)).None? ==> r[..14] == "Unknown Device"
    ensures Get(devicesMapping, Lower(deviceType)).Some? ==>
              r[..|Get(devicesMapping, Lower(deviceType)).value|] == Get(devicesMapping, Lower(deviceType)).value
  {
    var name := GetOr(devicesMapping, Lower(deviceType), "Unknown Device");
    var r := name + " (" + deviceType + ")";
    assert r[..|name|] == name;
    assert r[|r| - |deviceType| - 1..|r| - 1] == deviceType;
    r
  }

  // ---------------------------------------------------------------------------
  // The setup comprehension shared by all platforms:
  //   [Entity(d, e) for d in devices for (cls, descs) in MAPPING.items()
  //                 if isinstance(d, cls) for e in descs if e.is_supported(d)]

  /** The innermost loop: the descriptors of one class that apply to device d. */
  function ForDescriptors<D, E>(d: D, descs: seq<E>, supported: (D, E) -> Py<bool>): Py<seq<(D, E)>> {
    if |descs| == 0 then Ok([])
    else
      match supported(d, descs[0])
      case Raise(x) => Raise(x)
      case Ok(b) =>
        match ForDescriptors(d, descs[1..], supported)
        case Raise(x) => Raise(x)
        case Ok(rest) => Ok((if b then [(d, descs[0])] else []) + rest)
  }

  /** The middle loop: every class of the mapping that d is an instance of. */
  function ForMapping<D, K, E>(d: D, mapping: seq<(K, seq<E>)>, isInstance: (D, K) -> bool,
                               supported: (D, E) -> Py<bool>): Py<seq<(D, E)>> {
    if |mapping| == 0 then Ok([])
    else
      var first := if isInstance(d, mapping[0].0) then ForDescriptors(d, mapping[0].1, supported) else Ok([]);
      match first
      case Raise(x) => Raise(x)
      case Ok(here) =>
        match ForMapping(d, mapping[1..], isInstance, supported)
        case Raise(x) => Raise(x)
        case Ok(rest) => Ok(here + rest)
  }

  /** The whole comprehension; devices form the outer loop. The first exception an
      is_supported call raises aborts the setup. */
  function SetupEntities<D, K, E>(devices: seq<D>, mapping: seq<(K, seq<E>)>, isInstance: (D, K) -> bool,
                                  supported: (D, E) -> Py<bool>): Py<seq<(D, E)>> {
    if |devices| == 0 then Ok([])
    else
      match ForMapping(devices[0], mapping, isInstance, supported)
      case Raise(x) => Raise(x)
      case Ok(here) =>
        match SetupEntities(devices[1..], mapping, isInstance, supported)
        case Raise(x) => Raise(x)
        case Ok(rest) => Ok(here + rest)
  }

  lemma {:induction false} ForDescriptorsMembers<D, E>(d: D, descs: seq<E>, supported: (D, E) -> Py<bool>, d': D, e: E)
    requires ForDescriptors(d, descs, supported).Ok?
    ensures (d', e) in ForDescriptors(d, descs, supported).value <==>
              d' == d && e in descs && supported(d, e) == Ok(true)
  {
    if |descs| > 0 {
      ForDescriptorsMembers(d, descs[1..], supported, d', e);
      if e != descs[0] && e in descs {
        assert e in descs[1..];
      }
    }
  }

  lemma {:induction false} ForMappingMembers<D, K, E>(d: D, mapping: seq<(K, seq<E>)>, isInstance: (D, K) -> bool,
                                                       supported: (D, E) -> Py<bool>, d': D, e: E)
    requires ForMapping(d, mapping, isInstance, supported).Ok?
    ensures (d', e) in ForMapping(d, mapping, isInstance, supported).value <==>
              d' == d && supported(d, e) == Ok(true) &&
              exists j :: 0 <= j < |mapping| && isInstance(d, mapping[j].0) && e in mapping[j].1
  {
    if |mapping| > 0 {
      ForMappingMembers(d, mapping[1..], isInstance, supported, d', e);
      if isInstance(d, mapping[0].0) {
        ForDescriptorsMembers(d, mapping[0].1, supported, d', e);
      }
      if exists j :: 0 <= j < |mapping| && isInstance(d, mapping[j].0) && e in mapping[j].1 {
        var j :| 0 <= j < |mapping| && isInstance(d, mapping[j].0) && e in mapping[j].1;
        if j > 0 {
          assert mapping[1..][j - 1] == mapping[j];
        }
      }
      if exists j :: 0 <= j < |mapping| - 1 && isInstance(d, mapping[1..][j].0) && e in mapping[1..][j].1 {
        var j :| 0 <= j < |mapping| - 1 && isInstance(d, mapping[1..][j].0) && e in mapping[1..][j].1;
        assert mapping[j + 1] == mapping[1..][j];
      }
    }
  }

  /** An entity is created for (d, e) exactly when d is one of the devices, d is an
      instance of a class whose descriptor list holds e, and e.is_supported(d) is True. */
  lemma {:induction false} SetupMembers<D, K, E>(devices: seq<D>, mapping: seq<(K, seq<E>)>, isInstance: (D, K) -> bool,
                                                 supported: (D, E) -> Py<bool>, d: D, e: E)
    requires SetupEntities(devices, mapping, isInstance, supported).Ok?
    ensures (d, e) in SetupEntities(devices, mapping, isInstance, supported).value <==>
              d in devices && supported(d, e) == Ok(true) &&
              exists j :: 0 <= j < |mapping| && isInstance(d, mapping[j].0) && e in mapping[j].1
  {
    if |devices| > 0 {
      SetupMembers(devices[1..], mapping, isInstance, supported, d, e);
      ForMappingMembers(devices[0], mapping, isInstance, supported, d, e);
      if d != devices[0] && d in devices {
        assert d in devices[1..];
      }
    }
  }

  /** Devices form the outer loop: the entities of a device list split into those of its
      two halves, in order. */
  lemma {:induction false} SetupConcat<D, K, E>(a: seq<D>, b: seq<D>, mapping: seq<(K, seq<E>)>, isInstance: (D, K) -> bool,
                                                supported: (D, E) -> Py<bool>)
    requires SetupEntities(a, mapping, isInstance, supported).Ok?
    requires SetupEntities(b, mapping, isInstance, supported).Ok?
    ensures SetupEntities(a + b, mapping, isInstance, supported) ==
            Ok(SetupEntities(a, mapping, isInstance, supported).value + SetupEntities(b, mapping, isInstance, supported).value)
  {
    if |a| > 0 {
      assert (a + b)[1..] == a[1..] + b;
      assert (a + b)[0] == a[0];
      SetupConcat(a[1..], b, mapping, isInstance, supported);
      var h := ForMapping(a[0], mapping, isInstance, supported).value;
      var ra := SetupEntities(a[1..], mapping, isInstance, supported).value;
      var vb := SetupEntities(b, mapping, isInstance, supported).value;
      assert h + (ra + vb) == (h + ra) + vb;
    } else {
      assert a + b == b;
      var vb := SetupEntities(b, mapping, isInstance, supported).value;
      assert SetupEntities(a, mapping, isInstance, supported).value + vb == vb;
    }
  }

  // ---------------------------------------------------------------------------
  // Entity properties shared by the platforms

  /** The value property of the sensors: None when the descriptor has no value accessor,
      otherwise the accessor applied to the device. */
  function ApplyValue<D, V>(value: Option<D -> V>, device: D): (r: Option<V>)
    ensures r.None? <==> value.None?
    ensures r.Some? ==> r.value == value.value(device)
  {
    match value
    case Some(f) => Some(f(device))
    case None => None
  }

  /** The unique id built from the device id and the descriptor key. */
  function IdKey(id: int, key: string): string {
    IntToString(id) + "_" + key
  }

  lemma IntToStringHasNoUnderscore(n: int)
    ensures forall j :: 0 <= j < |IntToString(n)| ==> IntToString(n)[j] != '_'
  {
    var s := IntToString(n);
    if n < 0 {
      var m := NatToString(-n);
      assert s == "-" + m;
      assert forall j :: 1 <= j < |s| ==> s[j] == m[j - 1];
    }
  }

  /** The position of the first c in u, |u| when there is none. */
  function IndexOf(u: string, c: char): (k: nat)
    ensures k <= |u|
  {
    if u == [] then 0 else if u[0] == c then 0 else 1 + IndexOf(u[1..], c)
  }

  lemma {:induction false} IndexOfSeparator(s: string, c: char, rest: string)
    requires forall j :: 0 <= j < |s| ==> s[j] != c
    ensures IndexOf(s + [c] + rest, c) == |s|
  {
    if s != [] {
      assert (s + [c] + rest)[1..] == s[1..] + [c] + rest;
      IndexOfSeparator(s[1..], c, rest);
    }
  }

  /** Distinct (device id, key) pairs give distinct unique ids: the id is read back up to
      the first underscore, which no printed integer contains. */
  lemma IdKeyInjective(id1: int, key1: string, id2: int, key2: string)
    requires IdKey(id1, key1) == IdKey(id2, key2)
    ensures id1 == id2 && key1 == key2
  {
    var s1, s2, u := IntToString(id1), IntToString(id2), IdKey(id1, key1);
    IntToStringHasNoUnderscore(id1);
    IntToStringHasNoUnderscore(id2);
    IndexOfSeparator(s1, '_', key1);
    IndexOfSeparator(s2, '_', key2);
    assert s1 == u[..|s1|] == s2;
    assert key1 == u[|s1| + 1..] == key2;
    IntToStringRoundTrip(id1);
    IntToStringRoundTrip(id2);
  }
}
