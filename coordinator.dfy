/** custom_components/petkit/coordinator.py: the data coordinator's poll (fast-poll
    ticks, the error split, stale-device pruning against the device registry) and the
    media coordinator's configuration and media-table refresh. */
module Coordinator {
  import opened Common

  type DeviceId = int
  type EntryId = string

  // ---------------------------------------------------------------------------
  // Fast-poll ticks

  /** The fast-poll counter and the polling interval, in seconds. */
  datatype Schedule = Schedule(tic: int, interval: int)

  /** The tick update at the head of every poll: a positive counter counts down and the
      interval stays; otherwise the interval is put back to the default. */
  function Tick(s: Schedule, defaultInterval: int): Schedule {
    if s.tic > 0 then s.(tic := s.tic - 1)
    else if s.interval != defaultInterval then s.(interval := defaultInterval)
    else s
  }

  /** Whether the tick writes the interval field. */
  predicate TickWritesInterval(s: Schedule, defaultInterval: int) {
    s.tic <= 0 && s.interval != defaultInterval
  }

  lemma TickCountsDown(s: Schedule, defaultInterval: int)
    requires s.tic > 0
    ensures Tick(s, defaultInterval) == Schedule(s.tic - 1, s.interval)
    ensures !TickWritesInterval(s, defaultInterval)
  {
  }

  /** With the counter spent the interval becomes the default, and a second tick then
      writes nothing and changes nothing. */
  lemma TickRestoresOnce(s: Schedule, defaultInterval: int)
    requires s.tic <= 0
    ensures Tick(s, defaultInterval) == Schedule(s.tic, defaultInterval)
    ensures !TickWritesInterval(Tick(s, defaultInterval), defaultInterval)
    ensures Tick(Tick(s, defaultInterval), defaultInterval) == Tick(s, defaultInterval)
  {
  }

  /** k successive ticks. */
  function Ticks(s: Schedule, defaultInterval: int, k: nat): Schedule
    decreases k
  {
    if k == 0 then s else Ticks(Tick(s, defaultInterval), defaultInterval, k - 1)
  }

  /** Counting down: while fewer than `tic` ticks have run, the interval is untouched. */
  lemma {:induction false} TicksCountDown(s: Schedule, defaultInterval: int, k: nat)
    requires k <= s.tic
    ensures Ticks(s, defaultInterval, k) == Schedule(s.tic - k, s.interval)
    decreases k
  {
    if k > 0 {
      TicksCountDown(Tick(s, defaultInterval), defaultInterval, k - 1);
    }
  }

  /** Once the counter is spent, the first tick restores the default and every later
      tick leaves the schedule as it is. */
  lemma {:induction false} TicksSettle(s: Schedule, defaultInterval: int, k: nat)
    requires s.tic <= 0
    requires k >= 1
    ensures Ticks(s, defaultInterval, k) == Schedule(s.tic, defaultInterval)
    decreases k
  {
    if k > 1 {
      TicksSettle(Tick(s, defaultInterval), defaultInterval, k - 1);
    }
  }

  // ---------------------------------------------------------------------------
  // The device registry

  /** The second half of a device identifier. Devices are registered under their serial
      numbers and looked up under integer device ids; the Python type of a serial number
      belongs to the cloud library, so both kinds of value are admitted. */
  datatype IdValue = IntValue(i: int) | TextValue(t: string)

  /** A device identifier, the pair (domain, value). */
  datatype Identifier = Identifier(domain: string, value: IdValue)

  /** The part of Home Assistant's device registry the coordinator touches: the devices by
      the identifier they were registered under, each with the config entries it belongs
      to. */
  class DeviceRegistry {
    var devices: map<Identifier, set<EntryId>>

    constructor (devices: map<Identifier, set<EntryId>>)
      ensures this.devices == devices
    {
      this.devices := devices;
    }

    /** async_get(identifiers={ident}): the device registered under that identifier. */
    function Lookup(ident: Identifier): (r: Option<set<EntryId>>)
      reads this
      ensures r.Some? <==> ident in devices
      ensures r.Some? ==> r.value == devices[ident]
    {
      if ident in devices then Some(devices[ident]) else None
    }

    /** async_update_device(remove_config_entry_id=entry): the device leaves that one
        config entry and keeps the others. */
    method RemoveConfigEntry(ident: Identifier, entry: EntryId)
      requires ident in devices
      modifies this
      ensures devices == old(devices)[ident := old(devices)[ident] - {entry}]
    {
      devices := devices[ident := devices[ident] - {entry}];
    }
  }

  /** The registry once the entities of a config entry are added: `device_info`
      identifies every device by (DOMAIN, sn), and the device joins the config entry. */
  function Registered(reg: map<Identifier, set<EntryId>>, domain: string, serials: set<IdValue>, entry: EntryId): (r: map<Identifier, set<EntryId>>)
    ensures forall s :: s in serials ==> Identifier(domain, s) in r && entry in r[Identifier(domain, s)]
    ensures forall k :: k in r ==> k in reg || (k.domain == domain && k.value in serials)
    ensures forall k :: k in reg ==> k in r && reg[k] <= r[k]
  {
    var added := set s | s in serials :: Identifier(domain, s);
    map k | k in reg.Keys + added :: (if k in reg then reg[k] else {}) + (if k in added then {entry} else {})
  }

  /** Device ids written as identifier values, as the stale loop writes them. */
  function IntValues(ids: set<DeviceId>): set<IdValue> {
    set id | id in ids :: IntValue(id)
  }

  /** The registry after every device of `domain` registered under one of `values` has
      been detached from `entry`. */
  function Detached(reg: map<Identifier, set<EntryId>>, domain: string, values: set<IdValue>, entry: EntryId): map<Identifier, set<EntryId>> {
    map k | k in reg :: if k.domain == domain && k.value in values then reg[k] - {entry} else reg[k]
  }

  /** Detaching keeps every device and every other config entry; a device loses `entry`
      exactly when it is registered under `domain` and one of `values`. */
  lemma DetachedOnlyRemovesEntry(reg: map<Identifier, set<EntryId>>, domain: string, values: set<IdValue>, entry: EntryId)
    ensures Detached(reg, domain, values, entry).Keys == reg.Keys
    ensures forall k :: k in reg ==> Detached(reg, domain, values, entry)[k] - {entry} == reg[k] - {entry}
    ensures forall k :: k in reg ==>
              (entry in Detached(reg, domain, values, entry)[k] <==> entry in reg[k] && !(k.domain == domain && k.value in values))
  {
  }

  /** Detaching one more value is one registry update, or none when nothing is registered
      under it. */
  lemma DetachedStep(reg: map<Identifier, set<EntryId>>, domain: string, done: set<IdValue>, v: IdValue, entry: EntryId)
    requires v !in done
    ensures Identifier(domain, v) in Detached(reg, domain, done, entry) <==> Identifier(domain, v) in reg
    ensures Identifier(domain, v) in reg ==>
              Detached(reg, domain, done + {v}, entry) ==
                Detached(reg, domain, done, entry)[Identifier(domain, v) := Detached(reg, domain, done, entry)[Identifier(domain, v)] - {entry}]
    ensures Identifier(domain, v) !in reg ==> Detached(reg, domain, done + {v}, entry) == Detached(reg, domain, done, entry)
  {
  }

  lemma DetachedNone(reg: map<Identifier, set<EntryId>>, domain: string, entry: EntryId)
    ensures Detached(reg, domain, {}, entry) == reg
  {
  }

  /** The stale loop as written looks devices up by (DOMAIN, device_id) with the integer
      id, while `device_info` registered them by (DOMAIN, sn). Unless some registered
      value of the domain equals a stale id, detaching by id leaves the registry as it
      was; with text serial numbers it never changes anything. */
  lemma IdLookupMisses(reg: map<Identifier, set<EntryId>>, domain: string, ids: set<DeviceId>, entry: EntryId)
    requires forall k :: k in reg && k.domain == domain ==> k.value !in IntValues(ids)
    ensures Detached(reg, domain, IntValues(ids), entry) == reg
  {
    var r := Detached(reg, domain, IntValues(ids), entry);
    assert forall k :: k in r ==> r[k] == reg[k];
  }

  /** A registry of serial numbers is left alone by the as-written lookup. */
  lemma SerialRegistryUntouched(reg: map<Identifier, set<EntryId>>, domain: string, serials: set<IdValue>, ids: set<DeviceId>, entry: EntryId)
    requires forall k :: k in reg ==> k.domain != domain
    requires forall i :: i in ids ==> IntValue(i) !in serials
    ensures var r := Registered(reg, domain, serials, entry);
            Detached(r, domain, IntValues(ids), entry) == r
  {
    var r := Registered(reg, domain, serials, entry);
    forall k | k in r && k.domain == domain ensures k.value !in IntValues(ids) {
      assert k.value in serials;
    }
    IdLookupMisses(r, domain, ids, entry);
  }

  /** A non-empty set of values has a member. */
  lemma SomeValue(values: set<IdValue>) returns (x: IdValue)
    requires values != {}
    ensures x in values
  {
    if forall y :: y !in values {
      assert false;
    }
    x :| x in values;
  }

  // ---------------------------------------------------------------------------
  // The poll

  /** The library errors get_devices_data can raise, by the branch that handles them. */
  datatype PetkitError = SessionExpired | SessionError | UnregisteredEmail | RegionalServerNotFound | OtherLibraryError

  /** The outcome of `await client.get_devices_data()` followed by reading the client's
      entity map. */
  datatype Fetch<D> = Fetched(entities: map<DeviceId, D>) | FetchFailed(error: PetkitError)

  /** What the poll hands back to Home Assistant. */
  datatype PollResult<D> = Data(data: map<DeviceId, D>) | AuthFailed(authCause: PetkitError) | UpdateFailed(updateCause: PetkitError)

  function Outcome<D>(fetch: Fetch<D>): PollResult<D> {
    match fetch
    case Fetched(entities) => Data(entities)
    case FetchFailed(e) =>
      if e in {SessionExpired, SessionError, UnregisteredEmail, RegionalServerNotFound} then AuthFailed(e)
      else UpdateFailed(e)
  }

  /** Session and account errors become an authentication failure, every other library
      error an update failure; a successful fetch hands back the entity map. */
  lemma OutcomeSplit<D>(fetch: Fetch<D>)
    ensures Outcome(fetch).Data? <==> fetch.Fetched?
    ensures fetch.Fetched? ==> Outcome(fetch) == Data(fetch.entities)
    ensures Outcome(fetch).AuthFailed? <==> fetch.FetchFailed? && fetch.error != OtherLibraryError
    ensures Outcome(fetch).UpdateFailed? <==> fetch == FetchFailed(OtherLibraryError)
    ensures fetch.FetchFailed? ==> Outcome(fetch) in {AuthFailed(fetch.error), UpdateFailed(fetch.error)}
  {
  }

  /** The coordinator's fields, as one value: the schedule, the fetched ids, and what it
      remembers of earlier fetches (ids as written, serial numbers when corrected). */
  datatype CoordState<K> = CoordState(schedule: Schedule, current: set<DeviceId>, previous: set<K>)

  /** The remembered ids the fetch no longer reports; none when the fetch failed. */
  function Stale<D>(previous: set<DeviceId>, fetch: Fetch<D>): set<DeviceId> {
    match fetch
    case Fetched(entities) => previous - entities.Keys
    case FetchFailed(_) => {}
  }

  /** The serial numbers of the fetched devices. */
  function Serials<D>(entities: map<DeviceId, D>, serial: D -> IdValue): set<IdValue> {
    set id | id in entities :: serial(entities[id])
  }

  /** The remembered serial numbers the fetch no longer reports; none when it failed. */
  function StaleSerials<D>(previous: set<IdValue>, fetch: Fetch<D>, serial: D -> IdValue): set<IdValue> {
    match fetch
    case Fetched(entities) => previous - Serials(entities, serial)
    case FetchFailed(_) => {}
  }

  /** The coordinator's fields after a poll, as the code is written: previous_devices is
      reassigned only when some device went stale. */
  function PollAsWritten<D>(s: CoordState<DeviceId>, fetch: Fetch<D>, defaultInterval: int): CoordState<DeviceId> {
    var schedule := Tick(s.schedule, defaultInterval);
    match fetch
    case FetchFailed(_) => s.(schedule := schedule)
    case Fetched(entities) =>
      var current := entities.Keys;
      CoordState(schedule, current, if s.previous - current != {} then current else s.previous)
  }

  /** The coordinator's fields after a poll, corrected: every successful fetch is
      remembered, by the serial numbers its devices are registered under. */
  function PollCorrected<D>(s: CoordState<IdValue>, fetch: Fetch<D>, serial: D -> IdValue, defaultInterval: int): CoordState<IdValue> {
    var schedule := Tick(s.schedule, defaultInterval);
    match fetch
    case FetchFailed(_) => s.(schedule := schedule)
    case Fetched(entities) => CoordState(schedule, entities.Keys, Serials(entities, serial))
  }

  /** The loop over the stale values: each device registered under (domain, value) is
      detached from the config entry. */
  method DetachStale(values: set<IdValue>, registry: DeviceRegistry, domain: string, entry: EntryId)
    modifies registry
    ensures registry.devices == Detached(old(registry.devices), domain, values, entry)
  {
    var todo := values;
    ghost var done: set<IdValue> := {};
    DetachedNone(registry.devices, domain, entry);
    while todo != {}
      invariant todo + done == values && todo !! done
      invariant registry.devices == Detached(old(registry.devices), domain, done, entry)
      decreases |todo|
    {
      ghost var chosen := SomeValue(todo);
      var v :| v in todo;
      DetachedStep(old(registry.devices), domain, done, v, entry);
      var device := registry.Lookup(Identifier(domain, v));
      if device.Some? {
        registry.RemoveConfigEntry(Identifier(domain, v), entry);
      }
      todo := todo - {v};
      done := done + {v};
    }
  }

  class DataCoordinator {
    const entryId: EntryId
    const domain: string
    const defaultScanInterval: int
    var fastPollTic: int
    var updateInterval: int
    var currentDevices: set<DeviceId>
    var previousDevices: set<DeviceId>

    function State(): CoordState<DeviceId>
      reads this
    {
      CoordState(Schedule(fastPollTic, updateInterval), currentDevices, previousDevices)
    }

    /** __init__: no remembered devices and a spent fast-poll counter. */
    constructor (entryId: EntryId, domain: string, updateInterval: int, defaultScanInterval: int)
      ensures this.entryId == entryId && this.domain == domain && this.defaultScanInterval == defaultScanInterval
      ensures State() == CoordState(Schedule(0, updateInterval), {}, {})
    {
      this.entryId := entryId;
      this.domain := domain;
      this.defaultScanInterval := defaultScanInterval;
      fastPollTic := 0;
      this.updateInterval := updateInterval;
      currentDevices := {};
      previousDevices := {};
    }

    /** The fast-poll prologue of _async_update_data. */
    method TickSchedule()
      modifies this
      ensures Schedule(fastPollTic, updateInterval) == Tick(old(Schedule(fastPollTic, updateInterval)), defaultScanInterval)
      ensures currentDevices == old(currentDevices) && previousDevices == old(previousDevices)
    {
      if fastPollTic > 0 {
        fastPollTic := fastPollTic - 1;
      } else if fastPollTic <= 0 && updateInterval != defaultScanInterval {
        updateInterval := defaultScanInterval;
      }
    }

    /** _async_update_data as written: the stale ids are looked up as (DOMAIN, id). */
    method Poll<D>(fetch: Fetch<D>, registry: DeviceRegistry) returns (r: PollResult<D>)
      modifies this, registry
      ensures State() == PollAsWritten(old(State()), fetch, defaultScanInterval)
      ensures registry.devices == Detached(old(registry.devices), domain, IntValues(Stale(old(previousDevices), fetch)), entryId)
      ensures r == Outcome(fetch)
    {
      TickSchedule();
      match fetch
      case FetchFailed(e) => {
        DetachedNone(registry.devices, domain, entryId);
        r := Outcome(fetch);
      }
      case Fetched(entities) => {
        currentDevices := entities.Keys;
        var stale := previousDevices - currentDevices;
        if stale != {} {
          DetachStale(IntValues(stale), registry, domain, entryId);
          previousDevices := currentDevices;
        } else {
          DetachedNone(registry.devices, domain, entryId);
        }
        r := Data(entities);
      }
    }
  }

  /** The data coordinator as intended: it remembers the serial numbers of every successful
      fetch and looks vanished devices up by (DOMAIN, sn), the identifier `device_info`
      registered them under. `current_devices` stays the set of ids the media coordinator
      reads. */
  class CorrectedDataCoordinator {
    const entryId: EntryId
    const domain: string
    const defaultScanInterval: int
    var fastPollTic: int
    var updateInterval: int
    var currentDevices: set<DeviceId>
    var previousSerials: set<IdValue>

    function State(): CoordState<IdValue>
      reads this
    {
      CoordState(Schedule(fastPollTic, updateInterval), currentDevices, previousSerials)
    }

    constructor (entryId: EntryId, domain: string, updateInterval: int, defaultScanInterval: int)
      ensures this.entryId == entryId && this.domain == domain && this.defaultScanInterval == defaultScanInterval
      ensures State() == CoordState(Schedule(0, updateInterval), {}, {})
    {
      this.entryId := entryId;
      this.domain := domain;
      this.defaultScanInterval := defaultScanInterval;
      fastPollTic := 0;
      this.updateInterval := updateInterval;
      currentDevices := {};
      previousSerials := {};
    }

    /** The corrected poll; `serial` reads a device's serial number. */
    method PollFixed<D>(fetch: Fetch<D>, serial: D -> IdValue, registry: DeviceRegistry) returns (r: PollResult<D>)
      modifies this, registry
      ensures State() == PollCorrected(old(State()), fetch, serial, defaultScanInterval)
      ensures registry.devices == Detached(old(registry.devices), domain, StaleSerials(old(previousSerials), fetch, serial), entryId)
      ensures r == Outcome(fetch)
    {
      var next := Tick(Schedule(fastPollTic, updateInterval), defaultScanInterval);
      fastPollTic, updateInterval := next.tic, next.interval;
      match fetch
      case FetchFailed(e) => {
        DetachedNone(registry.devices, domain, entryId);
        r := Outcome(fetch);
      }
      case Fetched(entities) => {
        currentDevices := entities.Keys;
        var serials := Serials(entities, serial);
        DetachStale(previousSerials - serials, registry, domain, entryId);
        previousSerials := serials;
        r := Data(entities);
      }
    }
  }

  // ---------------------------------------------------------------------------
  // Properties of one poll

  /** The tick runs before the fetch, so failed polls tick too; a failed poll leaves both
      device sets and, having no stale devices, the registry alone. */
  lemma FailedPollKeepsDevices<D>(s: CoordState<DeviceId>, c: CoordState<IdValue>, e: PetkitError, serial: D -> IdValue, defaultInterval: int,
                                  reg: map<Identifier, set<EntryId>>, domain: string, entry: EntryId)
    ensures PollAsWritten(s, Fetch<D>.FetchFailed(e), defaultInterval) == CoordState(Tick(s.schedule, defaultInterval), s.current, s.previous)
    ensures PollCorrected(c, Fetch<D>.FetchFailed(e), serial, defaultInterval) == CoordState(Tick(c.schedule, defaultInterval), c.current, c.previous)
    ensures Detached(reg, domain, IntValues(Stale(s.previous, Fetch<D>.FetchFailed(e))), entry) == reg
    ensures Detached(reg, domain, StaleSerials(c.previous, Fetch<D>.FetchFailed(e), serial), entry) == reg
  {
    assert IntValues({}) == {};
  }

  /** A successful poll ticks, records the fetched ids as the current devices, and treats
      exactly the remembered ids the fetch lacks as stale. */
  lemma SuccessfulPoll<D>(s: CoordState<DeviceId>, entities: map<DeviceId, D>, defaultInterval: int)
    ensures PollAsWritten(s, Fetched(entities), defaultInterval).schedule == Tick(s.schedule, defaultInterval)
    ensures PollAsWritten(s, Fetched(entities), defaultInterval).current == entities.Keys
    ensures forall d :: d in Stale(s.previous, Fetched(entities)) <==> d in s.previous && d !in entities
  {
  }

  /** The first poll runs with a spent counter, so an interval configured other than the
      default is replaced by the default before anything is fetched. */
  lemma FirstPollSetsDefault<D>(configured: int, defaultInterval: int, fetch: Fetch<D>)
    ensures PollAsWritten(CoordState(Schedule(0, configured), {}, {}), fetch, defaultInterval).schedule == Schedule(0, defaultInterval)
    ensures TickWritesInterval(Schedule(0, configured), defaultInterval) <==> configured != defaultInterval
  {
  }

  // ---------------------------------------------------------------------------
  // Runs of polls: the as-written coordinator never prunes

  /** The state and registry after a run of polls, as written. */
  function RunAsWritten<D>(s: CoordState<DeviceId>, reg: map<Identifier, set<EntryId>>, fetches: seq<Fetch<D>>,
                           defaultInterval: int, domain: string, entry: EntryId): (CoordState<DeviceId>, map<Identifier, set<EntryId>>)
    decreases |fetches|
  {
    if fetches == [] then (s, reg)
    else
      RunAsWritten(PollAsWritten(s, fetches[0], defaultInterval),
                   Detached(reg, domain, IntValues(Stale(s.previous, fetches[0])), entry),
                   fetches[1..], defaultInterval, domain, entry)
  }

  /** The state and registry after a run of polls, corrected. */
  function RunCorrected<D>(s: CoordState<IdValue>, reg: map<Identifier, set<EntryId>>, fetches: seq<Fetch<D>>, serial: D -> IdValue,
                           defaultInterval: int, domain: string, entry: EntryId): (CoordState<IdValue>, map<Identifier, set<EntryId>>)
    decreases |fetches|
  {
    if fetches == [] then (s, reg)
    else
      RunCorrected(PollCorrected(s, fetches[0], serial, defaultInterval),
                   Detached(reg, domain, StaleSerials(s.previous, fetches[0], serial), entry),
                   fetches[1..], serial, defaultInterval, domain, entry)
  }

  /** As written, previous_devices starts empty and so stays empty: nothing is ever stale
      and no run of polls, whatever it fetches, writes to the registry. */
  lemma {:induction false} AsWrittenNeverPrunes<D>(s: CoordState<DeviceId>, reg: map<Identifier, set<EntryId>>, fetches: seq<Fetch<D>>,
                                                   defaultInterval: int, domain: string, entry: EntryId)
    requires s.previous == {}
    ensures RunAsWritten(s, reg, fetches, defaultInterval, domain, entry).0.previous == {}
    ensures RunAsWritten(s, reg, fetches, defaultInterval, domain, entry).1 == reg
    decreases |fetches|
  {
    if fetches != [] {
      assert Stale(s.previous, fetches[0]) == {};
      assert IntValues({}) == {};
      DetachedNone(reg, domain, entry);
      AsWrittenNeverPrunes(PollAsWritten(s, fetches[0], defaultInterval), reg, fetches[1..], defaultInterval, domain, entry);
    }
  }

  /** Device 1, serial number "SN1", is reported and then disappears. As written its
      registry entry survives, and would survive a lookup by its id even if the id had
      been remembered; corrected, the device is detached from the config entry. */
  lemma VanishedDeviceExample()
    ensures var sn := Identifier("petkit", TextValue("SN1"));
            var reg := map[sn := {"entry"}];
            var fetches: seq<Fetch<IdValue>> := [Fetched(map[1 := TextValue("SN1")]), Fetched(map[])];
            RunAsWritten(CoordState(Schedule(0, 60), {}, {}), reg, fetches, 60, "petkit", "entry").1 == reg &&
            Detached(reg, "petkit", IntValues({1}), "entry") == reg &&
            RunCorrected(CoordState(Schedule(0, 60), {}, {}), reg, fetches, v => v, 60, "petkit", "entry").1 == map[sn := {}]
  {
    var sn := Identifier("petkit", TextValue("SN1"));
    var reg := map[sn := {"entry"}];
    var f0: Fetch<IdValue> := Fetched(map[1 := TextValue("SN1")]);
    var none: map<DeviceId, IdValue> := map[];
    var fetches: seq<Fetch<IdValue>> := [f0, Fetched(none)];
    var id: IdValue -> IdValue := v => v;
    AsWrittenNeverPrunes(CoordState(Schedule(0, 60), {}, {}), reg, fetches, 60, "petkit", "entry");
    IdLookupMisses(reg, "petkit", {1}, "entry");
    var s0: CoordState<IdValue> := CoordState(Schedule(0, 60), {}, {});
    assert (map[1 := TextValue("SN1")]).Keys == {1};
    assert Serials(map[1 := TextValue("SN1")], id) == {TextValue("SN1")};
    assert Serials(none, id) == {};
    var s1 := PollCorrected(s0, f0, id, 60);
    assert s1.previous == {TextValue("SN1")};
    assert StaleSerials(s0.previous, f0, id) == {};
    assert StaleSerials(s1.previous, Fetched(none), id) == {TextValue("SN1")};
    assert fetches[1..] == [Fetched(none)];
    DetachedNone(reg, "petkit", "entry");
    var pruned := Detached(reg, "petkit", {TextValue("SN1")}, "entry");
    assert pruned.Keys == {sn} && pruned[sn] == {};
    assert pruned == map[sn := {}];
  }

  /** Corrected: after two successful polls, exactly the devices registered under a serial
      number the first reported and the second lacks are detached, and no other device or
      entry changes. */
  lemma CorrectedPrunesVanished<D>(s: CoordState<IdValue>, reg: map<Identifier, set<EntryId>>, e1: map<DeviceId, D>, e2: map<DeviceId, D>,
                                   serial: D -> IdValue, defaultInterval: int, domain: string, entry: EntryId)
    requires s.previous == {}
    ensures var (s2, reg2) := RunCorrected(s, reg, [Fetched(e1), Fetched(e2)], serial, defaultInterval, domain, entry);
            s2.previous == Serials(e2, serial) && reg2.Keys == reg.Keys &&
            forall k :: k in reg ==>
              reg2[k] - {entry} == reg[k] - {entry} &&
              (entry in reg2[k] <==> entry in reg[k] && !(k.domain == domain && k.value in Serials(e1, serial) - Serials(e2, serial)))
  {
    var fs: seq<Fetch<D>> := [Fetched(e1), Fetched(e2)];
    var s1 := PollCorrected(s, Fetched(e1), serial, defaultInterval);
    var s2 := PollCorrected(s1, Fetched(e2), serial, defaultInterval);
    var reg2 := Detached(reg, domain, Serials(e1, serial) - Serials(e2, serial), entry);
    assert StaleSerials(s.previous, fs[0], serial) == {};
    DetachedNone(reg, domain, entry);
    assert fs[1..] == [Fetched(e2)];
    assert fs[1..][1..] == [];
    assert RunCorrected(s1, reg, fs[1..], serial, defaultInterval, domain, entry) == RunCorrected(s2, reg2, fs[1..][1..], serial, defaultInterval, domain, entry);
    assert RunCorrected(s, reg, fs, serial, defaultInterval, domain, entry) == (s2, reg2);
    DetachedOnlyRemovesEntry(reg, domain, Serials(e1, serial) - Serials(e2, serial), entry);
  }

  /** Corrected, with the registry as `device_info` leaves it: a device reported by the first
      poll whose serial number no device of the second carries loses the config entry. */
  lemma CorrectedDetachesRegistered<D>(s: CoordState<IdValue>, reg: map<Identifier, set<EntryId>>, e1: map<DeviceId, D>, e2: map<DeviceId, D>,
                                       serial: D -> IdValue, defaultInterval: int, domain: string, entry: EntryId, gone: DeviceId)
    requires s.previous == {}
    requires gone in e1 && serial(e1[gone]) !in Serials(e2, serial)
    ensures var r := Registered(reg, domain, Serials(e1, serial), entry);
            var k := Identifier(domain, serial(e1[gone]));
            k in RunCorrected(s, r, [Fetched(e1), Fetched(e2)], serial, defaultInterval, domain, entry).1 &&
            entry !in RunCorrected(s, r, [Fetched(e1), Fetched(e2)], serial, defaultInterval, domain, entry).1[k]
  {
    var r := Registered(reg, domain, Serials(e1, serial), entry);
    assert serial(e1[gone]) in Serials(e1, serial);
    CorrectedPrunesVanished(s, r, e1, e2, serial, defaultInterval, domain, entry);
  }

  // ---------------------------------------------------------------------------
  // The media coordinator

  datatype MediaType = Image | Video

  /** A media file found on disk: its name, the event it records, and its timestamp. */
  datatype MediaFile = MediaFile(filename: string, recordType: string, timestamp: int)

  /** The media options of the config entry; an absent option is None. */
  datatype MediaOptions = MediaOptions(eventTypes: Option<seq<string>>, downloadImages: Option<bool>, downloadVideos: Option<bool>)

  /** The media types to download, images first; both default to on. */
  function MediaTypesFor(options: MediaOptions): (r: seq<MediaType>)
    ensures Image in r <==> options.downloadImages != Some(false)
    ensures Video in r <==> options.downloadVideos != Some(false)
    ensures |r| <= 2 && (|r| == 2 ==> r == [Image, Video])
  {
    (if options.downloadImages != Some(false) then [Image] else [])
    + (if options.downloadVideos != Some(false) then [Video] else [])
  }

  /** [RecordType(element.lower()) for element in ...]: every configured event type
      lowered, ValueError on the first one that is not a record type. */
  function EventTypesFor(configured: seq<string>, recordTypes: set<string>): (r: Py<seq<string>>)
    ensures r.Ok? <==> forall i :: 0 <= i < |configured| ==> Lower(configured[i]) in recordTypes
    ensures r.Ok? ==> |r.value| == |configured| && forall i :: 0 <= i < |configured| ==> r.value[i] == Lower(configured[i])
    ensures r.Raise? ==> r.exc == ValueError
  {
    if configured == [] then Ok([])
    else if Lower(configured[0]) !in recordTypes then Raise(ValueError)
    else match EventTypesFor(configured[1..], recordTypes)
      case Ok(rest) => Ok([Lower(configured[0])] + rest)
      case Raise(e) => Raise(e)
  }

  /** The media table after refreshing `devices` in order: a device the client does not
      know raises KeyError and ends the run; a device without medias, or with none, keeps
      its entry; every other device gets its fresh disk listing. */
  function MediaRefresh(table: map<DeviceId, seq<MediaFile>>, devices: seq<DeviceId>,
                        medias: map<DeviceId, Option<seq<MediaFile>>>,
                        listing: DeviceId -> seq<MediaFile>): (Py<()>, map<DeviceId, seq<MediaFile>>)
    decreases |devices|
  {
    if devices == [] then (Ok(()), table)
    else
      var d := devices[0];
      if d !in medias then (Raise(KeyError), table)
      else if medias[d].None? || medias[d].value == [] then MediaRefresh(table, devices[1..], medias, listing)
      else MediaRefresh(table[d := listing(d)], devices[1..], medias, listing)
  }

  /** Whether the refresh replaces device d's entry. */
  predicate Refreshed(d: DeviceId, devices: seq<DeviceId>, medias: map<DeviceId, Option<seq<MediaFile>>>) {
    d in devices && d in medias && medias[d].Some? && medias[d].value != []
  }

  /** When every device is known, the refresh succeeds; exactly the devices with a
      non-empty media list get the fresh listing, every other entry is left as it was. */
  lemma {:induction false} MediaRefreshEntries(table: map<DeviceId, seq<MediaFile>>, devices: seq<DeviceId>,
                                               medias: map<DeviceId, Option<seq<MediaFile>>>,
                                               listing: DeviceId -> seq<MediaFile>)
    requires forall i :: 0 <= i < |devices| ==> devices[i] in medias
    ensures MediaRefresh(table, devices, medias, listing).0 == Ok(())
    ensures forall d :: d in MediaRefresh(table, devices, medias, listing).1 <==> d in table || Refreshed(d, devices, medias)
    ensures forall d :: d in MediaRefresh(table, devices, medias, listing).1 ==>
              MediaRefresh(table, devices, medias, listing).1[d] == if Refreshed(d, devices, medias) then listing(d) else table[d]
    decreases |devices|
  {
    if devices != [] {
      var d := devices[0];
      var rest := devices[1..];
      assert forall i :: 0 <= i < |rest| ==> rest[i] in medias by {
        forall i | 0 <= i < |rest| ensures rest[i] in medias { assert rest[i] == devices[i + 1]; }
      }
      assert forall x :: x in devices <==> x == d || x in rest by {
        assert devices == [d] + rest;
      }
      if medias[d].None? || medias[d].value == [] {
        MediaRefreshEntries(table, rest, medias, listing);
      } else {
        MediaRefreshEntries(table[d := listing(d)], rest, medias, listing);
      }
    }
  }

  /** A device the client does not know ends the refresh with KeyError. */
  lemma {:induction false} MediaRefreshUnknownDevice(table: map<DeviceId, seq<MediaFile>>, devices: seq<DeviceId>,
                                                     medias: map<DeviceId, Option<seq<MediaFile>>>,
                                                     listing: DeviceId -> seq<MediaFile>)
    requires exists i :: 0 <= i < |devices| && devices[i] !in medias
    ensures MediaRefresh(table, devices, medias, listing).0 == Raise(KeyError)
    decreases |devices|
  {
    var d := devices[0];
    if d in medias {
      var i :| 0 <= i < |devices| && devices[i] !in medias;
      assert devices[1..][i - 1] == devices[i];
      if medias[d].None? || medias[d].value == [] {
        MediaRefreshUnknownDevice(table, devices[1..], medias, listing);
      } else {
        MediaRefreshUnknownDevice(table[d := listing(d)], devices[1..], medias, listing);
      }
    }
  }

  class MediaCoordinator {
    var mediaType: seq<MediaType>
    var eventType: seq<string>
    var mediaTable: map<DeviceId, seq<MediaFile>>

    /** __init__ before the configuration is read. */
    constructor ()
      ensures mediaType == [] && eventType == [] && mediaTable == map[]
    {
      mediaType := [];
      eventType := [];
      mediaTable := map[];
    }

    /** __init__ in full: the empty fields, then _get_media_config(config_entry.options).
        A ValueError from the configuration escapes __init__, so no coordinator results. */
    static method Create(options: MediaOptions, defaultEvents: seq<string>, recordTypes: set<string>) returns (r: Py<MediaCoordinator>)
      ensures var events := EventTypesFor(if options.eventTypes.Some? then options.eventTypes.value else defaultEvents, recordTypes);
              if events.Ok? then
                r.Ok? && fresh(r.value) && r.value.eventType == events.value &&
                r.value.mediaType == MediaTypesFor(options) && r.value.mediaTable == map[]
              else
                r == Raise(ValueError)
    {
      var c := new MediaCoordinator();
      var configured := c.GetMediaConfig(options, defaultEvents, recordTypes);
      if configured.Raise? {
        return Raise(ValueError);
      }
      r := Ok(c);
    }

    /** _get_media_config: the event types, or the default list when the option is absent,
        then the media types appended. An unknown event type raises before anything is
        assigned. */
    method GetMediaConfig(options: MediaOptions, defaultEvents: seq<string>, recordTypes: set<string>) returns (r: Py<()>)
      modifies this
      ensures var events := EventTypesFor(if options.eventTypes.Some? then options.eventTypes.value else defaultEvents, recordTypes);
              if events.Ok? then
                r == Ok(()) && eventType == events.value && mediaType == old(mediaType) + MediaTypesFor(options)
              else
                r == Raise(ValueError) && eventType == old(eventType) && mediaType == old(mediaType)
      ensures mediaTable == old(mediaTable)
    {
      var configured := if options.eventTypes.Some? then options.eventTypes.value else defaultEvents;
      var events := EventTypesFor(configured, recordTypes);
      if events.Raise? {
        return Raise(ValueError);
      }
      eventType := events.value;
      if options.downloadImages != Some(false) {
        mediaType := mediaType + [Image];
      }
      if options.downloadVideos != Some(false) {
        mediaType := mediaType + [Video];
      }
      r := Ok(());
    }

    /** _async_update_media_files over the devices in iteration order. `medias` is the
        client's entity map seen through the medias attribute (None when the device has
        none) and `listing` the disk listing gathered after the downloads. */
    method UpdateMediaFiles(devices: seq<DeviceId>, medias: map<DeviceId, Option<seq<MediaFile>>>,
                            listing: DeviceId -> seq<MediaFile>) returns (r: Py<()>)
      modifies this
      ensures (r, mediaTable) == MediaRefresh(old(mediaTable), devices, medias, listing)
      ensures mediaType == old(mediaType) && eventType == old(eventType)
    {
      var i := 0;
      while i < |devices|
        invariant 0 <= i <= |devices|
        invariant MediaRefresh(old(mediaTable), devices, medias, listing) == MediaRefresh(mediaTable, devices[i..], medias, listing)
        invariant mediaType == old(mediaType) && eventType == old(eventType)
      {
        var device := devices[i];
        assert devices[i..][1..] == devices[i + 1..];
        if device !in medias {
          return Raise(KeyError);
        }
        if medias[device].None? {
          i := i + 1;
          continue;
        }
        var mediaList := medias[device].value;
        if mediaList == [] {
          i := i + 1;
          continue;
        }
        mediaTable := mediaTable[device := listing(device)];
        i := i + 1;
      }
      r := Ok(());
    }
  }
}
