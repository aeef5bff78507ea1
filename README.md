# PetKit for Home Assistant: a verified model of its decision logic

This project models the two PetKit integrations for Home Assistant: `petkit` and the older
`petkit_smart_devices`. Both turn the devices of a PetKit cloud account into Home Assistant
entities. The devices are feeders, litter boxes, water fountains and air purifiers.

The model covers the logic that decides things:

- **The applicability gate.** `is_supported` decides which descriptor becomes an entity for
  which device. It checks, in order, `force_add`, `ignore_types`, `only_for_types` and an
  accessor probe. The setup comprehension that every platform uses is built on this gate.
- **The litter-box work-state decoder.** It turns a work state into a status string.
- **The data coordinator.** Each poll runs a fast-poll tick, then fetches. Failures split
  into authentication and update errors. Devices that went stale are meant to be
  detached in the device registry; as written they never are (see Findings).
- **The media coordinator.** It reads the media configuration and refreshes the media table.
- **The manual-feed validator.** It checks the amount, then arms fast polling.
- **The media browser's string helpers.** These are the date conversion, the timestamp
  titles, the extension tables, the thumbnail rewrite, the device-name lookup and the
  children of a folder.
- **The last image of an event.** It picks the newest matching media file.
- **The computed values of the descriptor tables.** These are the option maps of the
  selectors and the fan, and the clamps, filters, defaults and icons of the sensors and
  binary sensors of both integrations.

Each source file becomes one module:

| module | file | form |
|---|---|---|
| `Common` | (shared) | Option; `Py<T>`, a value or a raised Python exception; `str.lower`/`capitalize`/`strip`; `int(str)` and `str(int)`; dictionaries as ordered association lists |
| `Entity` | `custom_components/petkit/entity.py` | functions and lemmas |
| `WorkState` | `custom_components/petkit/utils.py` | functions, plus a status datatype it is proved against |
| `Coordinator` | `custom_components/petkit/coordinator.py` | classes `DeviceRegistry`, `DataCoordinator` (as written), `CorrectedDataCoordinator`, `MediaCoordinator`, with specification functions |
| `FeedText` | `custom_components/petkit_smart_devices/text.py` | functions, and a method that changes the coordinator |
| `MediaSource` | `custom_components/petkit/media_source.py` | functions; loop methods for the device-name search and the children list |
| `Image` | `custom_components/petkit/image.py` | class `PetkitImage` with a scanning loop |
| `Select` | `custom_components/petkit/select.py` | functions |
| `Fan` | `custom_components/petkit/fan.py` | functions |
| `Sensor` | `custom_components/petkit/sensor.py` | functions |
| `BinarySensor` | `custom_components/petkit/binary_sensor.py` | functions |
| `SmartSensor` | `custom_components/petkit_smart_devices/sensor.py` | functions |

The modules import constants that the two `const.py` files of this revision do not
define (they hold only the domain, the attribution and the status and battery maps), and
the device type tags come from the pypetkitapi client library, which
this model does not cover. These are taken as parameters:

- the device type tags (D3, D4, D4H, D4S, D4SH, T4, T6, K2, FEEDER, FEEDER_MINI);
- `ONLINE_STATE` and `POWER_ONLINE_STATE`;
- the option maps and `PURIFIER_MODE`;
- `MIN_SCAN_INTERVAL` and `DEFAULT_SCAN_INTERVAL`;
- `PETKIT_DEVICES_MAPPING`.

`DEVICE_STATUS_MAP` and `BATTERY_LEVEL_MAP` are written out as constants.

The gate is sometimes described as rejecting a descriptor whose accessor returns None. The
code does not: `is_supported` returns True after any accessor call that does not raise
`AttributeError`, whatever it returns. The model follows the code.

## Model

| member | source | states |
|---|---|---|
| Entity.TypeGate | custom_components/petkit/entity.py:36-53 | The type checks force the entity exactly when the lowered type is in `force_add`. They reject it exactly when it is not forced and is either ignored or missing from a non-empty `only_for_types`. Otherwise they defer to the probe. |
| Entity.IsSupportedCharacterised | custom_components/petkit/entity.py:33-62 | Supported iff forced, or else (not ignored, and allowed by `only_for_types`, and the probe is absent or does not raise). It raises exactly when the gates pass and the probe raises something other than `AttributeError`. |
| Entity.IsSupported | custom_components/petkit/entity.py:33-62 | `is_supported`, by its body; `IsSupportedCharacterised` and the lemmas after it state it. |
| Entity.ForceAddWins | custom_components/petkit/entity.py:36-40 | A lowered type listed in `force_add` is supported whatever the other lists and the probe do. |
| Entity.IgnoreExcludes | custom_components/petkit/entity.py:42-46 | An ignored type that is not forced is unsupported whatever the probe does. |
| Entity.OnlyForRestricts | custom_components/petkit/entity.py:48-53 | A non-empty `only_for_types` without the lowered type makes it unsupported even when the probe succeeds. |
| Entity.EmptyListsAreAbsent | custom_components/petkit/entity.py:36-48 | Three empty lists decide exactly as three absent lists, for every device and probe. |
| Entity.ProbeDecides | custom_components/petkit/entity.py:55-62 | Past the type checks, a returning accessor (whatever it returns) and a missing accessor both give True; an `AttributeError` gives False. |
| Entity.UpperCaseEntryNeverMatches | custom_components/petkit/entity.py:38-49 | Only the device type is lowered, so list entries holding an upper-case letter never match any device. |
| Entity.ModelString | custom_components/petkit/entity.py:93 | The model string is the mapping's name for the lowered type ("Unknown Device" when absent), then the type as reported, in parentheses; its length and both parts are fixed. |
| Entity.ForDescriptorsMembers | custom_components/petkit/sensor.py:587-588 | The inner loop yields (d, e) exactly for the descriptors e in the list whose `is_supported(d)` is True. |
| Entity.ForMappingMembers | custom_components/petkit/sensor.py:585-588 | The middle loop yields (d, e) exactly when d is an instance of some class whose list holds e and e is supported for d. |
| Entity.SetupMembers | custom_components/petkit/sensor.py:578-589 | An entity is created for (d, e) iff d is a device, d is an instance of a class whose list holds e, and `is_supported` is True. The binary sensors (binary_sensor.py:196-207) and the second integration's sensors (its sensor.py:372-383) use the same comprehension. |
| Entity.SetupConcat | custom_components/petkit/sensor.py:584-588 | Devices form the outer loop: the entities of two device lists are those of the first followed by those of the second. |
| Entity.AttributeIn | custom_components/petkit_smart_devices/text.py:176-182 | `available` is True exactly when the state has no `pim` or its `pim` is online, and False exactly when `pim` is present and offline or None; a device missing from the coordinator's data fails with `AttributeError`. The selectors (select.py:227-233) use the same test against `ONLINE_STATE`. |
| Entity.ApplyValue | custom_components/petkit/binary_sensor.py:225-230 | `is_on` is None exactly when the descriptor has no value accessor, else the accessor's result on the device; the second integration's `native_value` (its sensor.py:401-406) is the same. |
| Entity.IdKeyInjective | custom_components/petkit/binary_sensor.py:232-235 | Equal unique ids `"{id}_{key}"` imply equal device ids and equal keys; the second integration's sensors (its sensor.py:408-411) build the same id. |
| Common.IntToStringRoundTrip | custom_components/petkit_smart_devices/text.py:200 | `int(str(n)) == n` for every integer: the parser inverts the decimal rendering. |
| Common.ParseIntNeedsDigit | custom_components/petkit_smart_devices/text.py:200 | `int()` rejects a string that holds no digit. |
| Common.FirstKeyWithValue | custom_components/petkit/select.py:57-63 | `next(k for k, v in d.items() if v == x)` fails exactly when x is not a value; otherwise it gives the key of the first entry holding x. |
| Common.ForwardLookupRoundTrip | custom_components/petkit/select.py:50-63 | With distinct keys, the key found for any value reads back as that value. |
| Common.ReverseLookupRoundTrip | custom_components/petkit/fan.py:45-62 | With distinct keys and values, looking a key up and searching for its value gives the key back. |
| Common.ReverseLookupPicksFirst | custom_components/petkit/fan.py:52-62 | With a repeated value the search returns the first key, so the reverse lookup is not a round trip. |
| WorkState.MapWorkStateIsClassified | custom_components/petkit/utils.py:8-64 | `map_work_state` renders an independent classification (mode gives a phase or a constant; the process digits give working, paused-in-phase, resetting device or paused; units 2 adds the safety reading). |
| WorkState.MapWorkState | custom_components/petkit/utils.py:8-64 | `map_work_state`, by its body; `MapWorkStateIsClassified` and `MapWorkStateDecodes` state it. |
| WorkState.SafeWarnStatus | custom_components/petkit/utils.py:15-22 | `get_safe_warn_status`, by its body; `SafeWarnCases` states it. |
| WorkState.ProcessMapping | custom_components/petkit/utils.py:24-49 | `handle_process_mapping`, by its body; `ProcessCases` states it. |
| WorkState.SafeWarnStatusIsClassified | custom_components/petkit/utils.py:15-22 | `get_safe_warn_status` is the name of the classified safety reading. |
| WorkState.StatusRoundTrip | custom_components/petkit/utils.py:8-64 | Every status string reads back as the status it renders, so distinct states never share a string. |
| WorkState.MapWorkStateDecodes | custom_components/petkit/utils.py:8-64 | The displayed string determines the classified state. |
| WorkState.ModeOnlyCases | custom_components/petkit/utils.py:12-64 | A missing work state is "idle". Modes 2 to 5 give "unknown", "resetting", "leveling", "calibrating" whatever the process; unlisted modes give "idle". |
| WorkState.ProcessCases | custom_components/petkit/utils.py:24-49 | In modes 0, 1 and 9, tens 2 gives "<cycle>_paused", 3 "resetting_device", 4 "paused", any other tens the cycle name; "_<safe>" is appended exactly when the units digit is 2 and the tens are 2 or 4. |
| WorkState.ProcessDigits | custom_components/petkit/utils.py:26-28 | The floor split: process == 10 * major + minor with 0 <= minor < 10, also for negative processes (-5 splits into -1 and 5). |
| WorkState.SafeWarnCases | custom_components/petkit/utils.py:15-22 | 1 gives "pet_entered", 3 "cover", any other non-zero value "system_error", 0 "pet_approach" or "pet_using" by pet_in_time. |
| WorkState.MapWorkStateIsEnumerated | custom_components/petkit/utils.py:8-64 | The result always lies in one finite, enumerated set of strings. |
| Coordinator.TickCountsDown | custom_components/petkit/coordinator.py:57-59 | A positive counter is decremented by exactly one and the interval is not written. |
| Coordinator.TickRestoresOnce | custom_components/petkit/coordinator.py:60-64 | With the counter spent the interval becomes the default; a second such tick writes nothing and changes nothing. |
| Coordinator.TicksCountDown | custom_components/petkit/coordinator.py:57-59 | While at most `tic` ticks have run, the counter has dropped by their number and the interval is untouched. |
| Coordinator.TicksSettle | custom_components/petkit/coordinator.py:60-64 | From a spent counter, any positive number of ticks gives the default interval. |
| Coordinator.Tick | custom_components/petkit/coordinator.py:57-64 | The tick of a poll, by its body; `TickCountsDown` and `TickRestoresOnce` state its two cases. |
| Coordinator.DeviceRegistry.constructor | custom_components/petkit/coordinator.py:83 | The registry holds the given map from device identifier, the pair (domain, value), to config entries. |
| Coordinator.DeviceRegistry.Lookup | custom_components/petkit/coordinator.py:85-87 | The device registered under exactly that identifier is found, with its config entries; no other identifier finds it. The stale loop passes (DOMAIN, device_id) with the integer id. |
| Coordinator.DeviceRegistry.RemoveConfigEntry | custom_components/petkit/coordinator.py:89-92 | The device loses this config entry only and keeps its others; no other device changes. |
| Coordinator.Registered | custom_components/petkit/entity.py:88-97 | Once a config entry's entities are added, every device is registered under (DOMAIN, sn) and belongs to that entry; devices already registered keep their entries, and nothing else is registered. |
| Coordinator.DetachedOnlyRemovesEntry | custom_components/petkit/coordinator.py:84-92 | Detaching keeps every device and every other config entry; a device loses the entry exactly when it is registered under the domain and one of the detached values. |
| Coordinator.IdLookupMisses | custom_components/petkit/coordinator.py:84-92 | Detaching by (DOMAIN, id) changes nothing unless some device of the domain is registered under the integer id itself. |
| Coordinator.SerialRegistryUntouched | custom_components/petkit/coordinator.py:84-92 | A registry that `device_info` filled with serial numbers is left unchanged by the as-written loop, whatever the stale ids, as long as none of them is itself a serial number. |
| Coordinator.OutcomeSplit | custom_components/petkit/coordinator.py:66-78 | The four session and account errors become an authentication failure, every other library error an update failure; a successful fetch returns the entity map. |
| Coordinator.Outcome | custom_components/petkit/coordinator.py:66-78 | The poll's result for a fetch, by its body; `OutcomeSplit` states it. |
| Coordinator.Stale | custom_components/petkit/coordinator.py:79-82 | The remembered ids the fetch lacks, by its body; `SuccessfulPoll` states it. |
| Coordinator.DataCoordinator.constructor | custom_components/petkit/coordinator.py:44-50 | A new coordinator has no remembered devices and a spent counter. |
| Coordinator.DataCoordinator.TickSchedule | custom_components/petkit/coordinator.py:57-64 | The prologue of a poll changes the counter and interval as a tick does and leaves both device sets alone. |
| Coordinator.DetachStale | custom_components/petkit/coordinator.py:84-92 | The loop over the stale values leaves detached from this entry exactly the devices registered under (domain, value) for one of them. |
| Coordinator.DataCoordinator.Poll | custom_components/petkit/coordinator.py:52-94 | A poll ticks, then returns the fetch's outcome. On success it records the fetched ids and detaches the devices registered under (DOMAIN, id) for the stale ids; `previous_devices` changes only when some id went stale. |
| Coordinator.FailedPollKeepsDevices | custom_components/petkit/coordinator.py:57-76 | A failed poll still ticks, keeps both device sets and leaves the registry alone. |
| Coordinator.SuccessfulPoll | custom_components/petkit/coordinator.py:78-82 | A successful poll ticks and records the fetched ids as current; a remembered id is stale exactly when the fetch lacks it. |
| Coordinator.FirstPollSetsDefault | custom_components/petkit/coordinator.py:57-64 | The coordinator is created with the configured interval (`__init__.py`, line 68) and a spent counter, so its first poll replaces any interval other than the default by the default. |
| Coordinator.AsWrittenNeverPrunes | custom_components/petkit/coordinator.py:48-93 | From the initial empty `previous_devices`, no run of polls ever changes the registry. |
| Coordinator.VanishedDeviceExample | custom_components/petkit/coordinator.py:82-93 | Device 1, registered under its serial number "SN1", is reported and then missing. As written it keeps the config entry, and a lookup by its id 1 would miss it even if the id were remembered. Corrected, it loses the entry. |
| Coordinator.CorrectedDataCoordinator.PollFixed | custom_components/petkit/coordinator.py:52-94 | The corrected poll: as `Poll`, but every successful fetch's serial numbers are remembered, and the stale serial numbers are looked up as (DOMAIN, sn), the identifier the devices were registered under. |
| Coordinator.CorrectedDataCoordinator.constructor | custom_components/petkit/coordinator.py:44-50 | The corrected coordinator starts as the written one does, with no remembered serial numbers. |
| Coordinator.CorrectedPrunesVanished | custom_components/petkit/coordinator.py:78-93 | Corrected, two successful polls detach exactly the devices registered under a serial number the first reported and the second lacks, and change nothing else. |
| Coordinator.CorrectedDetachesRegistered | custom_components/petkit/coordinator.py:82-93 | Corrected, with the registry `device_info` leaves, a device reported by the first poll whose serial number no device of the second carries loses the config entry. |
| Coordinator.MediaTypesFor | custom_components/petkit/coordinator.py:116-124 | IMAGE is chosen iff downloading images is not switched off, and VIDEO likewise for videos; IMAGE comes first; both default to on. |
| Coordinator.EventTypesFor | custom_components/petkit/coordinator.py:119 | Every configured event type is lowered, in order; the first one that is not a record type raises `ValueError`. |
| Coordinator.MediaRefreshEntries | custom_components/petkit/coordinator.py:141-168 | When the client knows every device, the refresh succeeds. Exactly the devices with a non-empty media list get the fresh listing; every other entry is unchanged. |
| Coordinator.MediaRefreshUnknownDevice | custom_components/petkit/coordinator.py:141-142 | A device the client does not know ends the refresh with `KeyError`. |
| Coordinator.MediaRefresh | custom_components/petkit/coordinator.py:136-168 | The table after a refresh, by its body; `MediaRefreshEntries` and `MediaRefreshUnknownDevice` state it. |
| Coordinator.MediaCoordinator.constructor | custom_components/petkit/coordinator.py:107-109 | The fields `__init__` assigns before reading the configuration (and `media_table`, line 111) start empty. |
| Coordinator.MediaCoordinator.Create | custom_components/petkit/coordinator.py:100-124 | A new coordinator holds the configured event types, the chosen media types and an empty table. An unknown event type raises `ValueError` and no coordinator results. |
| Coordinator.MediaCoordinator.GetMediaConfig | custom_components/petkit/coordinator.py:113-124 | The event types come from the option, or the default list when it is absent. The chosen media types are appended. An unknown event type raises before any field changes. |
| Coordinator.MediaCoordinator.UpdateMediaFiles | custom_components/petkit/coordinator.py:136-168 | The loop leaves the media table `MediaRefresh` specifies and keeps the configuration. |
| FeedText.ValidAmountsCases | custom_components/petkit_smart_devices/text.py:187-198 | D4 and D4H accept {10,...,50} in tens. The mini feeder accepts the multiples of 5 from 0 to 50. D3 accepts 5 to 200. Every other type accepts 1 to 10, 6 included. |
| FeedText.ValidAmounts | custom_components/petkit_smart_devices/text.py:187-198 | The valid amounts by device type, by its body; `ValidAmountsCases` states them. |
| FeedText.CheckAmount | custom_components/petkit_smart_devices/text.py:200-203 | A value is accepted iff it parses as an integer among the accepted amounts; both a non-integer and a rejected amount raise `ValueError`. |
| FeedText.AcceptedAmountsRoundTrip | custom_components/petkit_smart_devices/text.py:200-203 | Every accepted amount, written as `str` writes it, is accepted as itself. |
| FeedText.NativeValueIsZero | custom_components/petkit_smart_devices/text.py:170-174 | The displayed value of every manual-feed descriptor is "0". |
| FeedText.SingleAndDualExclusive | custom_components/petkit_smart_devices/text.py:63 | When the tag lists are disjoint, no feeder passes the type gates of both the single-feed and the dual-hopper descriptors; the two dual descriptors gate alike. |
| FeedText.PayloadCarriesAmount | custom_components/petkit_smart_devices/text.py:60-92 | Single sends {"amount": n}. Hopper 1 sends {"amount1": n, "amount2": 0}. Hopper 2 sends {"amount1": 0, "amount2": n}. |
| FeedText.Payload | custom_components/petkit_smart_devices/text.py:60-92 | The payload of each feed kind, by its body; `PayloadCarriesAmount` states it. |
| FeedText.SetValue | custom_components/petkit_smart_devices/text.py:184-212 | A rejected value raises `ValueError` and changes nothing. An accepted one overwrites the interval with the fast one and the counter with 12, then sends the payload for that amount. |
| FeedText.TicksCompose | custom_components/petkit/coordinator.py:57-64 | a + b ticks are a ticks followed by b ticks. |
| FeedText.ArmedSchedule | custom_components/petkit_smart_devices/text.py:205-206 | After arming, the next 12 polls keep the fast interval; the 13th restores the default; later polls change and write nothing. |
| MediaSource.Pad2 | custom_components/petkit/media_source.py:162 | `%d` and `%m` render two digits. |
| MediaSource.Pad4Inverts | custom_components/petkit/media_source.py:161-162 | `%Y` rendering inverts its four-digit parse. |
| MediaSource.StrptimeMatch | custom_components/petkit/media_source.py:161 | On eight digits, `%Y%m%d` consumes the whole string iff the month digits lie in 1..12 and the day digits in 1..31, and then it reads those digits. |
| MediaSource.ConvertDateCharacterised | custom_components/petkit/media_source.py:153-164 | `convert_date` gives DD/MM/YYYY from the same digits exactly for eight-digit strings that are calendar dates, and returns every other input unchanged. |
| MediaSource.ConvertDate | custom_components/petkit/media_source.py:153-164 | `convert_date`, by its body; `ConvertDateCharacterised` and `ConvertDateRoundTrip` state it. |
| MediaSource.CalendarDateOfDigits | custom_components/petkit/media_source.py:156-162 | An eight-digit string is a calendar date iff year >= 1, 1 <= month <= 12 and 1 <= day <= the month's length, with leap years. |
| MediaSource.ConvertDateRoundTrip | custom_components/petkit/media_source.py:161-162 | A converted date has length 10 with '/' at 2 and 5; swapping the fields back gives the input. |
| MediaSource.LeapDayConverts | custom_components/petkit/media_source.py:161-162 | "20240229" becomes "29/02/2024". |
| MediaSource.MissingLeapDayStays | custom_components/petkit/media_source.py:163-164 | "20230229" is returned unchanged. |
| MediaSource.CenturyLeapDayStays | custom_components/petkit/media_source.py:163-164 | "19000229" is returned unchanged. |
| MediaSource.MalformedDatesStay | custom_components/petkit/media_source.py:156-164 | Month 13, year 0 and a dashed date are returned unchanged. |
| MediaSource.Split | custom_components/petkit/media_source.py:170 | `str.split` gives at least one piece, and at least two exactly when the separator occurs. |
| MediaSource.JoinSplit | custom_components/petkit/media_source.py:170 | Joining the pieces with the separator gives the string back. |
| MediaSource.SplitPieces | custom_components/petkit/media_source.py:170 | No piece holds the separator. |
| MediaSource.ClockRoundTrip | custom_components/petkit/media_source.py:172-173 | `%H:%M:%S` of a second of the day reads back as that second. |
| MediaSource.ExtractTimestampCases | custom_components/petkit/media_source.py:166-175 | A name without '_' is returned unchanged. Otherwise the field after the first '_' and before the next '.' is read; a non-integer field, or one whose local time is outside the years 1 to 9999, returns the name; an integer in range gives its clock time. |
| MediaSource.ExtractTimestamp | custom_components/petkit/media_source.py:166-175 | `extract_timestamp_and_convert`, by its body; `ExtractTimestampCases` and `ExtractTimestampReadsBack` state it. |
| MediaSource.ExtractTimestampReadsBack | custom_components/petkit/media_source.py:169-173 | A changed title is always the clock time of an integer read from that field, whose local time lies in the years 1 to 9999. |
| MediaSource.FieldOfRecording | custom_components/petkit/media_source.py:170 | In "prefix_digits.ext" the field read is exactly the digits. |
| MediaSource.ExtractTimestampOfRecording | custom_components/petkit/media_source.py:166-173 | A recording named "prefix_digits.ext" is titled by the clock time of its digits, or keeps its name when that time is outside the years 1 to 9999. |
| MediaSource.ExtractTimestampWithoutField | custom_components/petkit/media_source.py:169-175 | A name without '_' (an `IndexError`) is its own title. |
| MediaSource.ExtractTimestampPastYear9999 | custom_components/petkit/media_source.py:171-175 | "clip_300000000000.mp4" falls in the year 11476, where `fromtimestamp` raises the caught `ValueError`, so the name is its own title. |
| MediaSource.ClassAndKindAgree | custom_components/petkit/media_source.py:177-193 | .mp4/.avi/.mkv are video and .jpg/.jpeg/.png/.gif image (anything else is an application); class and type agree on every extension. |
| MediaSource.MediaClassOf | custom_components/petkit/media_source.py:177-184 | `get_media_class`, by its body; `ClassAndKindAgree` states it. |
| MediaSource.MimeTypeCases | custom_components/petkit/media_source.py:195-204 | Only .mp4, .avi, .jpg and .jpeg have their own MIME types; every other extension, .mkv and .png among them, gets the octet-stream default. |
| MediaSource.MimeTypeOf | custom_components/petkit/media_source.py:195-204 | `get_mime_type`, by its body; `MimeTypeCases` states it. |
| MediaSource.DirectoryClass | custom_components/petkit/media_source.py:98-109 | The class of a folder by its title, by its body; `DirectoryClassIgnoresCase` states it. |
| MediaSource.DirectoryClassIgnoresCase | custom_components/petkit/media_source.py:98-109 | A title is an image folder iff it lowers to "snapshot" and a video folder iff it lowers to "video"; capitalizing first changes nothing. Case mapping is ASCII only. |
| MediaSource.DeviceNameUnmatched | custom_components/petkit/media_source.py:145-151 | When no device id contains the string, the string itself is returned. |
| MediaSource.DeviceNameFirstMatch | custom_components/petkit/media_source.py:148-150 | The capitalized name of the first device, in dictionary order, whose id contains the string is returned. |
| MediaSource.DeviceNameFor | custom_components/petkit/media_source.py:145-150 | `get_device_name_from_data`, by its body; `DeviceNameUnmatched` and `DeviceNameFirstMatch` state it. |
| MediaSource.FindDeviceName | custom_components/petkit/media_source.py:145-151 | The search loop returns what `DeviceNameFor` specifies. |
| MediaSource.ReplaceAbsent | custom_components/petkit/media_source.py:129 | `str.replace` leaves a string without the pattern unchanged. |
| MediaSource.ReplaceAtEnd | custom_components/petkit/media_source.py:129 | A string ending in the pattern, with no earlier occurrence, has only that one replaced, when the pattern's first letter does not recur in it. |
| MediaSource.VideoThumbnail | custom_components/petkit/media_source.py:127-130 | A recording in a device's video folder points at the .jpg of the same stem in the device's snapshot folder. |
| MediaSource.ThumbnailOfOtherFiles | custom_components/petkit/media_source.py:127-130 | Paths and names without 'video' and '.mp4' are used as they are. |
| MediaSource.ThumbnailUrl | custom_components/petkit/media_source.py:127-130 | The thumbnail URL, by its body; `VideoThumbnail` and `ThumbnailOfOtherFiles` state it. |
| MediaSource.ReplaceAll | custom_components/petkit/media_source.py:129 | `str.replace`, by its body; `ReplaceIsJoinOfSplit`, `SplitOnJoins` and `SplitOnPieces` state it. |
| MediaSource.ReplaceIsJoinOfSplit | custom_components/petkit/media_source.py:129 | `s.replace(pat, rep)` is `rep.join(s.split(pat))`: every occurrence the split cuts out is replaced. |
| MediaSource.SplitOnJoins | custom_components/petkit/media_source.py:129 | Replacing the pattern by itself changes nothing, so joining the pieces with the pattern gives the string back. |
| MediaSource.SplitOnPieces | custom_components/petkit/media_source.py:129 | No piece of the split contains the pattern, so no occurrence is left unreplaced. |
| MediaSource.Suffix | custom_components/petkit/media_source.py:131-132 | `Path.suffix` is empty, or a proper tail of the name that starts with '.', has at least one more character and holds no other dot. |
| MediaSource.SuffixOfName | custom_components/petkit/media_source.py:131-132 | A name made of a non-empty stem and an extension whose only dot is its first character has that extension as its suffix. |
| MediaSource.NoSuffix | custom_components/petkit/media_source.py:131-132 | A name without a dot, or whose only dot starts it, has no suffix. |
| MediaSource.FileItemOfName | custom_components/petkit/media_source.py:125-143 | A file named stem + extension is classified by that extension: a ".mp4" recording is a video and a ".jpg" snapshot an image. |
| MediaSource.ChildItemsConcat | custom_components/petkit/media_source.py:95-123 | Children follow the listing order, so the children of a concatenation are the concatenation of the children. |
| MediaSource.ChildItemsCount | custom_components/petkit/media_source.py:96-122 | There is one child per folder or file. A folder can expand and not play; a file can play and not expand. |
| MediaSource.ChildItems | custom_components/petkit/media_source.py:93-122 | The children of a listing, by its body; `ChildItemsConcat` and `ChildItemsCount` state them. |
| MediaSource.ChildrenFromListing | custom_components/petkit/media_source.py:93-123 | The loop builds exactly the children `ChildItems` specifies. |
| Image.FeederImagesApply | custom_components/petkit/image.py:38-61 | The three image descriptors (pet, eat, feed) apply exactly to D4SH and D4H. |
| Image.LastMatchNone | custom_components/petkit/image.py:149-153 | There is no match exactly when no file has the requested record type. |
| Image.LastMatchAt | custom_components/petkit/image.py:149-153 | A matching file with no matching file after it is the one kept. |
| Image.LastMatchConcat | custom_components/petkit/image.py:149-153 | Scanning two lists in turn keeps what one scan over both keeps. |
| Image.LastMatch | custom_components/petkit/image.py:147-153 | The last matching file, by its body; `LastMatchNone`, `LastMatchAt` and `LastMatchConcat` state it. |
| Image.AfterScan | custom_components/petkit/image.py:147-153 | The two fields after a scan, by its body; `ScanEventKey` is proved against it. |
| Image.PetkitImage.constructor | custom_components/petkit/image.py:104-105 | Nothing is recorded before the first scan. |
| Image.PetkitImage.ScanEventKey | custom_components/petkit/image.py:147-153 | The fields end as the file name and timestamp of the last matching file, in list order, or keep their values when nothing matches. |
| Image.PetkitImage.ImageLastUpdated | custom_components/petkit/image.py:115-117 | `image_last_updated` reads the stored timestamp, which `ScanEventKey` leaves as that of the last matching file. |
| Image.PetkitImage.AsyncImage | custom_components/petkit/image.py:119-145 | It scans, then returns the recorded file's bytes. It returns None when no name is recorded, when the name is empty, or when the file is missing. It also returns None when nothing was ever recorded. |
| Image.TwoScans | custom_components/petkit/image.py:147-153 | A fresh entity that scanned two lists holds the last match over both. |
| Select.SelectsApply | custom_components/petkit/select.py:65-169 | The four feeder selectors apply exactly to D4H and D4SH; the two litter selectors to every litter box. |
| Select.CurrentOptionOf | custom_components/petkit/select.py:50-52 | The current option is the map's label for the setting; an unmapped setting raises `KeyError`. |
| Select.CurrentOption | custom_components/petkit/select.py:214-220 | None without coordinator data for the device, else the descriptor's label. |
| Select.OptionsAreLabels | custom_components/petkit/select.py:53 | The options are exactly the map's labels, in map order. |
| Select.Action | custom_components/petkit/select.py:54-64 | Choosing a label sends one setting, under the setting's name, for this device. A label the map lacks raises `StopIteration`. |
| Select.ChosenOptionReadsBack | custom_components/petkit/select.py:50-64 | Any offered label sends a value that reads back as that label. |
| Select.CurrentOptionRoundTrip | custom_components/petkit/select.py:50-64 | With distinct keys and labels, choosing the current option sends the current setting back. |
| Fan.FanApplies | custom_components/petkit/fan.py:63 | The fan applies exactly to the K2 purifier. |
| Fan.PresetModes | custom_components/petkit/fan.py:44 | The presets are the mode map's labels, in map order. |
| Fan.CurrentMode | custom_components/petkit/fan.py:45 | The current mode is the map's label, or the integer 0 exactly when the mode is unmapped. |
| Fan.PresetMode | custom_components/petkit/fan.py:141-147 | None exactly without coordinator data, else the current mode. |
| Fan.PowerPayloads | custom_components/petkit/fan.py:46-51 | Turning on sends the single entry {POWER: 1} and turning off {POWER: 0}. |
| Fan.TurnOn | custom_components/petkit/fan.py:46-48 | The turn-on request, by its body; `PowerPayloads` states it. |
| Fan.TurnOff | custom_components/petkit/fan.py:49-51 | The turn-off request, by its body; `PowerPayloads` states it. |
| Fan.SetMode | custom_components/petkit/fan.py:52-62 | A preset sends one mode entry for this device; a name the map lacks raises `StopIteration`. |
| Fan.PresetReadsBack | custom_components/petkit/fan.py:45-62 | Setting any preset sends a mode that reads back as that preset. |
| Fan.CurrentPresetRoundTrip | custom_components/petkit/fan.py:45-62 | With distinct keys and labels, setting the current preset sends the current mode back. |
| Fan.AvailableAndIsOn | custom_components/petkit/fan.py:118-133 | `available` and `is_on` are True when `pim` or `power` is absent, False when it is present and None, else the membership test. They agree when the two fields agree, and both fail without coordinator data. |
| Fan.Available | custom_components/petkit/fan.py:118-124 | `available`, by its body; `AvailableAndIsOn` states it. |
| Fan.IsOn | custom_components/petkit/fan.py:126-133 | `is_on`, by its body; `AvailableAndIsOn` states it. |
| Sensor.DeviceStatusCases | custom_components/petkit/sensor.py:67-69 | pim 0, 1, 2 give "Offline", "Online", "On battery"; any other pim exactly gives "Unknown Status". |
| Sensor.DeviceStatus | custom_components/petkit/sensor.py:67-69 | The device status, by its body; `DeviceStatusCases` states it. |
| Sensor.BatteryLevelCases | custom_components/petkit/sensor.py:82-86 | "Not in use" exactly off battery power; on battery, "Low", "Normal" or "Unknown" by battery status. |
| Sensor.BatteryLevel | custom_components/petkit/sensor.py:82-86 | The battery level, by its body; `BatteryLevelCases` states it. |
| Sensor.ErrorMessage | custom_components/petkit/sensor.py:101-105 | The error message, or "No error" when it is None. |
| Sensor.PurifierErrorMessage | custom_components/petkit/sensor.py:538-543 | The purifier's variant agrees with the feeder's and also treats a missing attribute as "No error". |
| Sensor.FoodBowlPercentage | custom_components/petkit/sensor.py:251-255 | None exactly for a missing bowl reading; otherwise a value in 0..100: the reading itself in range, 0 below, 100 above. |
| Sensor.FoodBowlIdempotent | custom_components/petkit/sensor.py:251-255 | Clamping a clamped value changes nothing. |
| Sensor.LiquidLevel | custom_components/petkit/sensor.py:361-365 | The spray liquid is reported exactly when it lies in 0..100, and then as read; the purifier liquid (lines 561-565) uses the same filter. |
| Sensor.LiquidAndBowlAgree | custom_components/petkit/sensor.py:251-255 | Where the liquid filter reports a value the bowl clamp gives the same; where it rejects, the clamp gives 0 or 100. |
| Sensor.TimesEaten | custom_components/petkit/sensor.py:160-164 | The number of eat times, None exactly when there is no list. |
| Sensor.TimesEatenExclusive | custom_components/petkit/sensor.py:165-173 | For every device exactly one of the two "Times eaten" descriptors passes the type gates. |
| Sensor.LastUsedBy | custom_components/petkit/sensor.py:393-407 | The last pet name of the T4 statistics or of the T6 graph, None exactly for an empty list. |
| Sensor.LastUsedByAppend | custom_components/petkit/sensor.py:393-397 | A later non-empty statistic replaces the answer; an empty one changes nothing. |
| Sensor.LastUsedByExclusive | custom_components/petkit/sensor.py:398-408 | For distinct T4 and T6 tags, at most one "Last used by" descriptor passes the type gates for a device. |
| Sensor.DrinkTimes | custom_components/petkit/sensor.py:466-470 | The number of records, None exactly when they are not a list. |
| Sensor.PetLastUseDate | custom_components/petkit/sensor.py:502-506 | None exactly when the pet never used the litter box (timestamp 0), else that timestamp. |
| Sensor.NativeValue | custom_components/petkit/sensor.py:610-616 | None exactly when the coordinator has no data for the device, else the descriptor's value of that data. |
| BinarySensor.FoodLevelIconCoupled | custom_components/petkit/binary_sensor.py:78-97 | A hopper is low exactly below one unit (food <= 0), and the "off" icon shows exactly when it is low. |
| BinarySensor.FoodLevelLow | custom_components/petkit/binary_sensor.py:78-97 | The food level flag, by its body; `FoodLevelIconCoupled` states it. |
| BinarySensor.FlagIconCoupled | custom_components/petkit/binary_sensor.py:116-157 | Liquid empty, liquid lack, sand lack and waste bin show their alert icon exactly when on. |
| BinarySensor.FlagIcon | custom_components/petkit/binary_sensor.py:116-157 | The icon lambda of the flag descriptors, by its body; `FlagIconCoupled` states it. |
| BinarySensor.WasteBinPresenceCoupled | custom_components/petkit/binary_sensor.py:158-165 | The presence sensor is `not box_state`; its icon is "mdi:delete" exactly when box_state holds, that is, when the problem is off. |
| BinarySensor.LitterCameraMayDisagree | custom_components/petkit/binary_sensor.py:100-107 | The value reads `camera` and the icon `camera_status`: a camera that is on with status off shows the off icon; they agree when the fields agree. |
| BinarySensor.LitterCameraApplies | custom_components/petkit/binary_sensor.py:106 | The litter camera descriptor is unsupported on any type other than D4H and D4SH. |
| BinarySensor.LowBatteryIsLackWarning | custom_components/petkit/binary_sensor.py:173-182 | low_battery reads lack_warning's field, so the two always agree. |
| SmartSensor.DeviceStatusIcon | custom_components/petkit_smart_devices/sensor.py:55-63 | pim 0, 1, 2 give "mdi:cloud-off", "mdi:cloud", "mdi:battery", each exactly; any other pim gives no icon. |
| SmartSensor.DeviceStatusIconAgrees | custom_components/petkit_smart_devices/sensor.py:55-67 | The icon is missing exactly when the status is "Unknown Status". |
| SmartSensor.BatteryPowerCases | custom_components/petkit_smart_devices/sensor.py:79-85 | "mdi:battery" exactly on pim 1, so a feeder on battery shows the alert icon. The value is the battery level, defaulting to "Unknown Battery Status", whatever the power source. |
| SmartSensor.BatteryPower | custom_components/petkit_smart_devices/sensor.py:79-85 | The battery power value, by its body; `BatteryPowerCases` states it. |
| SmartSensor.FeederError | custom_components/petkit_smart_devices/sensor.py:101-103 | The error message when the state has one, "no_error" otherwise. |
| SmartSensor.TimesEaten | custom_components/petkit_smart_devices/sensor.py:168-172 | On the raw type D4S the eat count. Otherwise the number of eat times, where a missing list raises `TypeError`. |
| SmartSensor.TimesEatenAgrees | custom_components/petkit_smart_devices/sensor.py:168-172 | Away from D4S it counts as the first integration's descriptor does. |
| SmartSensor.TimesDispensed | custom_components/petkit_smart_devices/sensor.py:187-191 | On the raw type D3 the number of feed times (a missing list raises `TypeError`), elsewhere `times`. |
| SmartSensor.FoodBowlPercentage | custom_components/petkit_smart_devices/sensor.py:262 | No None guard: a missing reading raises `TypeError`; otherwise the first integration's clamp. |
| SmartSensor.DuplicateTimesDispensed | custom_components/petkit_smart_devices/sensor.py:114-121 | As written, on every non-D3 feeder the two "times_dispensed" descriptors (table entries 6 and 14) are both created, read the same field and get the same unique id. |
| SmartSensor.FeederSensorsDropsDuplicate | custom_components/petkit_smart_devices/sensor.py:182-192 | The corrected table is the written one without entry 6. |
| SmartSensor.FeederKeysDistinct | custom_components/petkit_smart_devices/sensor.py:52-279 | The corrected feeder table has pairwise distinct keys. |
| SmartSensor.FeederUniqueIds | custom_components/petkit_smart_devices/sensor.py:408-411 | In the corrected table no two entities of one device share a unique id. |

## Left out

- Network, cloud and library calls (`pypetkitapi`) are not modelled. This covers the login, `get_devices_data`, `send_api_request`, the media manager, downloads and decryption. The fetch is a parameter, and the requests the code would send are returned as values.
- Filesystem I/O is not modelled. `async_browse_media`, `async_resolve_media` and the identifier parsing at `custom_components/petkit/media_source.py:1-92` are I/O. So are `iterdir` and `sorted`: the listing is a parameter, already sorted. The aiofiles read in `image.py` becomes a map from name to bytes, and the media-table refresh takes the disk listing as a function.
- Home Assistant internals are left out: timer scheduling, entity registration, `async_process_play_media_url` (taken as the identity) and the device registry beyond its map from identifier to config entries. Each PetKit device is registered under the one identifier `device_info` gives it, (DOMAIN, sn); the `_attr_device_info` of `entity.py:78-85`, (domain, entry_id), is shadowed by that property.
- Coordinator.DeviceRegistry.Lookup: models the call at `coordinator.py:85-87` as a search by identifier. Home Assistant's registry is not part of this model, so whether its `async_get` accepts an `identifiers` argument at all is not checked. The Python type of `sn` is fixed by pypetkitapi, which this model does not cover; both text and integer serial numbers are admitted, and `IdLookupMisses` states when the integer lookup finds a device.
- Concurrency is left out. `async_create_task` at `custom_components/petkit/coordinator.py:131-133` is not modelled, and neither are overlapping media refreshes.
- The Bluetooth coordinator (`custom_components/petkit/coordinator.py:173-189`) is a stub that returns a constant, so there is nothing to model.
- Floating-point values are left out: weights, energy, humidity, temperature and `number.py`'s delay.
- The pass-through descriptors (a single attribute read) and their units and icons are not modelled. The rest of the second integration's litter and fountain tables is not enumerated.
- Not modelled, because they only forward calls or hold data:
  - `button.py`, `switch.py`, `number.py`, `custom_components/petkit/text.py`;
  - `config_flow.py`, `__init__.py`, `data.py`, both `diagnostics.py` files;
  - `custom_components/petkit_smart_devices/coordinator.py`.
- `custom_components/petkit_smart_devices/entity.py` and `custom_components/petkit_smart_devices/const.py` are not part of this model. That package's gates are taken to behave as `custom_components/petkit/entity.py`'s.
- MIN_SCAN_INTERVAL and POWER_ONLINE_STATE are defined in neither package. Fast-poll arming is modelled against `custom_components/petkit/coordinator.py`'s data coordinator.
- Coordinator.DataCoordinator.constructor: `__init__` assigns a misspelt `curent_devices` (coordinator.py:49). The model starts `current_devices` empty. The media coordinator reads that attribute only after the data coordinator's first successful poll, which assigns it.
- Coordinator.MediaCoordinator.UpdateMediaFiles: the download steps are not modelled. The table entry becomes the listing that the download leaves on disk.
- Common.Lower: maps only the ASCII letters A-Z. Python's `str.lower` is Unicode-aware.
- Common.Capitalize: maps only ASCII letters, as `Lower` does. Python's `str.capitalize` maps every cased character; for example "ſnapshot".capitalize().lower() is "snapshot", which the model does not reproduce.
- MediaSource.DirectoryClassIgnoresCase: holds of the ASCII case mapping. With Python's Unicode mapping a folder such as "ſnapshot" becomes an image folder, while the model gives a plain directory.
- Common.ParseInt: models `int()` for ASCII digits and white space only. Unicode digits and the limit on digit-string length are not modelled.
- MediaSource.Strptime: reads only ASCII digits. `\d` also matches other Unicode digits, which `fullmatch` would let through to `strptime`.
- MediaSource.ConvertDate: `%Y` is rendered with four digits. Some C libraries do not zero-pad years below 1000.
- MediaSource.ExtractTimestamp: local time is a fixed UTC offset in seconds (no daylight-saving changes). A year outside 1 to 9999 is the caught `ValueError` and keeps the name; the uncaught `OverflowError`/`OSError` that `fromtimestamp` raises for timestamps beyond the platform's `time_t` or `localtime` range is not modelled, so those names are kept too.
- Image.PetkitImage.ScanEventKey: the timestamp is kept as the POSIX seconds, not as the local `datetime` that `fromtimestamp` would build.
- Sensor.PetLastUseDate: returns the raw timestamp instead of a local `datetime`.
- Sensor.LastUsedBy: a statistics list of None, which is falsy like an empty list, is modelled as the empty list.
- SmartSensor.FeederError: the test `"error_msg" in device.state` is a boolean parameter, because the state record and its `__contains__` belong to pypetkitapi, which this model does not cover.
- SmartSensor.TimesEaten: the code reads `feedState` where the other lambdas read `feed_state`. The record is a pypetkitapi class, which this model does not cover, so whether it has that attribute is not decided here; the model takes both as the same field.
- BinarySensor.FlagIcon: values are booleans. Python truthiness of integer fields (a 2 counting as on) is not distinguished.
- WorkState.Major: `floor(work_process / 10)` is computed exactly. Python's float division loses precision only beyond 2^53, far outside any work process.
- The `unique_id` of the selectors, the fan, the images and the first integration's sensors (`"{type}_{sn}_{key}"`) is not modelled. Nothing depends on it.

## Findings

| source | as written | input that shows it | evidently intended | confidence | as-written member | corrected member |
|---|---|---|---|---|---|---|
| custom_components/petkit/coordinator.py:82-93 | `previous_devices` starts empty and is reassigned only inside `if stale_devices`, which can never hold for an empty set, so it stays empty and no stale device is ever detached. The loop also looks devices up by (DOMAIN, device_id) with the integer id, while `device_info` (entity.py:88-97) registers them by (DOMAIN, sn), so even a remembered id would not find its device | device 1 with serial number "SN1" reported by one poll and missing from the next: its registry entry keeps the config entry | the coordinator remembers the serial numbers of every successful fetch and looks vanished devices up by (DOMAIN, sn), so a vanished device is detached from the config entry | high, not executed | Coordinator.DataCoordinator.Poll, Coordinator.AsWrittenNeverPrunes, Coordinator.IdLookupMisses, Coordinator.VanishedDeviceExample | Coordinator.CorrectedDataCoordinator.PollFixed, Coordinator.CorrectedPrunesVanished, Coordinator.CorrectedDetachesRegistered |
| custom_components/petkit_smart_devices/sensor.py:114-121 | a second ungated `times_dispensed` descriptor (lines 182-192) gives the same value as this one on every feeder other than D3, under the same key | a D4 feeder with id 7: both descriptors are created and both have unique id `7_times_dispensed` | one `times_dispensed` entity per feeder (the D3 has `times_dispensed_d3` as well), with pairwise distinct unique ids | medium (the gate of that package's entity module is taken to be the first integration's), not executed | SmartSensor.DuplicateTimesDispensed | SmartSensor.FeederSensors, SmartSensor.FeederUniqueIds |
