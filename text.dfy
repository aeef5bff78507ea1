/** custom_components/petkit_smart_devices/text.py: the manual-feed text entities. A set
    value is checked against the amounts the feeder accepts, then fast polling is armed
    on the data coordinator and a feed request is sent. */
module FeedText {
  import opened Common
  import Coordinator
  import Entity

  /** The feeder type tags of the cloud library. */
  datatype FeederTags = FeederTags(d3: string, d4: string, d4h: string, d4s: string, d4sh: string,
                                   feeder: string, feederMini: string)

  // ---------------------------------------------------------------------------
  // Accepted amounts

  /** The amounts a feeder of the given type accepts, as the list the code builds. The
      type is compared as reported, without lower-casing. */
  function ValidAmounts(deviceType: string, tags: FeederTags): seq<int> {
    if deviceType in [tags.d4, tags.d4h] then [10, 20, 30, 40, 50]
    else if deviceType == tags.feederMini then [0, 5, 10, 15, 20, 25, 30, 35, 40, 45, 50]
    else if deviceType == tags.d3 then seq(196, i => i + 5)
    else [1, 2, 3, 4, 5, 6, 7, 8, 9, 10]
  }

  /** Membership in the accepted amounts, per feeder type: D4 and D4H take the tens up to
      50, the mini feeder the multiples of 5 up to 50, D3 every amount from 5 to 200, and
      every other type 1 to 10, 6 included. */
  lemma ValidAmountsCases(deviceType: string, tags: FeederTags, n: int)
    ensures deviceType in [tags.d4, tags.d4h] ==>
              (n in ValidAmounts(deviceType, tags) <==> n in {10, 20, 30, 40, 50})
    ensures deviceType !in [tags.d4, tags.d4h] && deviceType == tags.feederMini ==>
              (n in ValidAmounts(deviceType, tags) <==> 0 <= n <= 50 && n % 5 == 0)
    ensures deviceType !in [tags.d4, tags.d4h, tags.feederMini] && deviceType == tags.d3 ==>
              (n in ValidAmounts(deviceType, tags) <==> 5 <= n <= 200)
    ensures deviceType !in [tags.d4, tags.d4h, tags.feederMini, tags.d3] ==>
              (n in ValidAmounts(deviceType, tags) <==> 1 <= n <= 10)
  {
    var r := ValidAmounts(deviceType, tags);
    if deviceType !in [tags.d4, tags.d4h] && deviceType == tags.feederMini && 0 <= n <= 50 && n % 5 == 0 {
      assert r[n / 5] == n;
    }
    if deviceType !in [tags.d4, tags.d4h, tags.feederMini] && deviceType == tags.d3 && 5 <= n <= 200 {
      assert r[n - 5] == n;
    }
    if deviceType !in [tags.d4, tags.d4h, tags.feederMini, tags.d3] && 1 <= n <= 10 {
      assert r[n - 1] == n;
    }
  }

  /** int(value) followed by the membership test: the amount to feed, or ValueError both
      for a value that is not an integer and for an amount the feeder does not accept. */
  function CheckAmount(deviceType: string, value: string, tags: FeederTags): (r: Py<int>)
    ensures r.Ok? <==> ParseInt(value).Some? && ParseInt(value).value in ValidAmounts(deviceType, tags)
    ensures r.Ok? ==> r.value == ParseInt(value).value
    ensures r.Raise? ==> r.exc == ValueError
  {
    match ParseInt(value)
    case None => Raise(ValueError)
    case Some(n) => if n in ValidAmounts(deviceType, tags) then Ok(n) else Raise(ValueError)
  }

  /** A value written the way str() writes an accepted amount is accepted as that amount. */
  lemma AcceptedAmountsRoundTrip(deviceType: string, n: int, tags: FeederTags)
    requires n in ValidAmounts(deviceType, tags)
    ensures CheckAmount(deviceType, IntToString(n), tags) == Ok(n)
  {
    IntToStringRoundTrip(n);
  }

  // ---------------------------------------------------------------------------
  // Descriptors and payloads

  /** Which request a manual-feed descriptor sends. */
  datatype FeedKind = Single | DualHopper1 | DualHopper2

  datatype TextDesc = TextDesc(key: string, kind: FeedKind, nativeValue: string,
                               nativeMin: int, nativeMax: int, gates: Entity.Gates)

  /** TEXT_MAPPING[Feeder]; the other device classes have no text descriptors. */
  function FeederTexts(tags: FeederTags): seq<TextDesc> {
    [ TextDesc("Manual feed single", Single, "0", 1, 2,
               Entity.Gates(None, None, Some([tags.feeder, tags.feederMini, tags.d3, tags.d4, tags.d4h]))),
      TextDesc("Manual feed dual h1", DualHopper1, "0", 1, 2, Entity.Gates(None, None, Some([tags.d4s, tags.d4sh]))),
      TextDesc("Manual feed dual h2", DualHopper2, "0", 1, 2, Entity.Gates(None, None, Some([tags.d4s, tags.d4sh]))) ]
  }

  /** The displayed value is the descriptor's fixed value: "0" for every manual-feed
      descriptor, so the field always resets. */
  function NativeValue(desc: TextDesc): string {
    desc.nativeValue
  }

  lemma NativeValueIsZero(tags: FeederTags, i: int)
    requires 0 <= i < |FeederTexts(tags)|
    ensures NativeValue(FeederTexts(tags)[i]) == "0"
  {
  }

  /** When no single-hopper type tag is also a dual-hopper tag, a feeder passes the type
      gates of the single-feed descriptor or of the dual-hopper ones, never both. */
  lemma SingleAndDualExclusive(deviceType: string, tags: FeederTags)
    requires tags.d4s !in [tags.feeder, tags.feederMini, tags.d3, tags.d4, tags.d4h]
    requires tags.d4sh !in [tags.feeder, tags.feederMini, tags.d3, tags.d4, tags.d4h]
    ensures !(Entity.TypeGate(deviceType, FeederTexts(tags)[0].gates) == None &&
              Entity.TypeGate(deviceType, FeederTexts(tags)[1].gates) == None)
    ensures Entity.TypeGate(deviceType, FeederTexts(tags)[1].gates) == Entity.TypeGate(deviceType, FeederTexts(tags)[2].gates)
  {
  }

  /** The JSON body of the manual-feed request. */
  function Payload(kind: FeedKind, amount: int): Dict<string, int> {
    match kind
    case Single => [("amount", amount)]
    case DualHopper1 => [("amount1", amount), ("amount2", 0)]
    case DualHopper2 => [("amount1", 0), ("amount2", amount)]
  }

  /** The single feeder gets the amount under "amount"; a dual-hopper feeder gets it in
      the chosen hopper and 0 in the other. */
  lemma PayloadCarriesAmount(kind: FeedKind, amount: int)
    ensures DistinctKeys(Payload(kind, amount))
    ensures kind == Single ==> Get(Payload(kind, amount), "amount") == Some(amount) && |Payload(kind, amount)| == 1
    ensures kind == DualHopper1 ==> Get(Payload(kind, amount), "amount1") == Some(amount) && Get(Payload(kind, amount), "amount2") == Some(0)
    ensures kind == DualHopper2 ==> Get(Payload(kind, amount), "amount1") == Some(0) && Get(Payload(kind, amount), "amount2") == Some(amount)
  {
  }

  /** send_api_request(device.id, FeederCommand.MANUAL_FEED, payload). */
  datatype FeedRequest = ManualFeed(deviceId: int, payload: Dict<string, int>)

  // ---------------------------------------------------------------------------
  // Setting a value

  /** async_set_value: validate, then arm fast polling (an overwrite of both fields), then
      send the request built from the same amount. A rejected value changes nothing. */
  method SetValue(coordinator: Coordinator.DataCoordinator, desc: TextDesc, deviceType: string, deviceId: int,
                  value: string, minScanInterval: int, tags: FeederTags) returns (r: Py<FeedRequest>)
    modifies coordinator
    ensures var checked := CheckAmount(deviceType, value, tags);
            match checked
            case Ok(n) =>
              && r == Ok(ManualFeed(deviceId, Payload(desc.kind, n)))
              && coordinator.updateInterval == minScanInterval
              && coordinator.fastPollTic == 12
            case Raise(e) =>
              && r == Raise(ValueError)
              && coordinator.updateInterval == old(coordinator.updateInterval)
              && coordinator.fastPollTic == old(coordinator.fastPollTic)
    ensures coordinator.currentDevices == old(coordinator.currentDevices)
    ensures coordinator.previousDevices == old(coordinator.previousDevices)
  {
    var checked := CheckAmount(deviceType, value, tags);
    if checked.Raise? {
      return Raise(ValueError);
    }
    coordinator.updateInterval := minScanInterval;
    coordinator.fastPollTic := 12;
    var amount := ParseInt(value).value;
    r := Ok(ManualFeed(deviceId, Payload(desc.kind, amount)));
  }

  /** The schedule after a manual feed armed fast polling. */
  function Armed(minScanInterval: int): Coordinator.Schedule {
    Coordinator.Schedule(12, minScanInterval)
  }

  lemma {:induction false} TicksCompose(s: Coordinator.Schedule, defaultInterval: int, a: nat, b: nat)
    ensures Coordinator.Ticks(s, defaultInterval, a + b) ==
            Coordinator.Ticks(Coordinator.Ticks(s, defaultInterval, a), defaultInterval, b)
    decreases a
  {
    if a > 0 {
      TicksCompose(Coordinator.Tick(s, defaultInterval), defaultInterval, a - 1, b);
    }
  }

  /** After a manual feed, the next 12 polls keep the fast interval; the 13th restores
      the default, and later polls change nothing and write nothing. */
  lemma ArmedSchedule(minScanInterval: int, defaultInterval: int, k: nat)
    ensures 1 <= k <= 12 ==> Coordinator.Ticks(Armed(minScanInterval), defaultInterval, k).interval == minScanInterval
    ensures k >= 13 ==> Coordinator.Ticks(Armed(minScanInterval), defaultInterval, k) == Coordinator.Schedule(0, defaultInterval)
    ensures k >= 13 ==> !Coordinator.TickWritesInterval(Coordinator.Ticks(Armed(minScanInterval), defaultInterval, k), defaultInterval)
  {
    var s := Armed(minScanInterval);
    if k <= 12 {
      Coordinator.TicksCountDown(s, defaultInterval, k);
    } else {
      Coordinator.TicksCountDown(s, defaultInterval, 12);
      TicksCompose(s, defaultInterval, 12, k - 12);
      Coordinator.TicksSettle(Coordinator.Ticks(s, defaultInterval, 12), defaultInterval, k - 12);
    }
  }
}
