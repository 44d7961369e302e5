/** The v2 `MainActivity`: it starts the monitor service when that is not
    running, answers the monitor and limit method channels, and drives the
    data stream, a self-rescheduling update posted on the main handler. */
module MainActivity {
  import opened Wrappers
  import opened Buckets
  import opened Platform
  import opened DataUsageCalculator
  import opened DataLimitChannel
  import opened DataMonitorService

  /** The stream's spacing: the first update is posted at once, each later
      one this many milliseconds after the previous. */
  const FIRST_UPDATE_DELAY_MS: int := 0
  const STREAM_UPDATE_INTERVAL_MS: int := 5000
  /** The private getters' "current" window. */
  const PRIVATE_CURRENT_WINDOW_MINUTES: nat := 5

  /** One stream event: the cached readings and the stored limit. */
  datatype Payload = Payload(currentUsage: real, todayUsage: real, timestamp: int, dailyLimit: real)

  /** What the activity asks the system to do. */
  datatype Intent =
    | RequestIgnoreBatteryOptimizations
    | StartService(foreground: bool)
    | StopService

  /** `isIgnoringBatteryOptimizations`: below API 23 there is nothing to
      ignore, so the answer is yes. */
  predicate IsIgnoringBatteryOptimizations(device: Device) {
    device.sdk < SDK_M || device.ignoringBatteryOptimizations
  }

  /** `startDataMonitorService`: the exemption request when it is missing
      (API 23 and up), then the service start, as a foreground service from
      API 26. */
  function StartDataMonitorService(device: Device): (intents: seq<Intent>)
    ensures |intents| > 0 && intents[|intents| - 1] == StartService(device.sdk >= SDK_O)
    ensures RequestIgnoreBatteryOptimizations in intents <==>
      device.sdk >= SDK_M && !device.ignoringBatteryOptimizations
    ensures StopService !in intents
  {
    (if !IsIgnoringBatteryOptimizations(device) && device.sdk >= SDK_M
     then [RequestIgnoreBatteryOptimizations] else [])
    + [StartService(device.sdk >= SDK_O)]
  }

  /** The private `getCurrentDataUsage`/`getTodayDataUsage` answer: 0.0 below
      API 23, a `SecurityException` without the permission, the query's own
      exception when it throws, and otherwise the Wi-Fi megabytes. */
  function ThrowingWifiUsage(device: Device, window: Window): (r: Result<real, Failure>)
    ensures device.sdk < SDK_M ==> r == Success(0.0)
    ensures device.sdk >= SDK_M && !HasUsageStatsPermission(device.usageStatsMode) ==>
      r == Failure(SecurityException)
    ensures device.sdk >= SDK_M && HasUsageStatsPermission(device.usageStatsMode) ==>
      match device.querySummary(Wifi, window)
      case Threw(f) => r == Failure(f)
      case Returned(buckets) => r == Success(ToMB(TotalBytes(buckets)))
  {
    if device.sdk < SDK_M then Success(0.0)
    else if !HasUsageStatsPermission(device.usageStatsMode) then Failure(SecurityException)
    else match device.querySummary(Wifi, window)
      case Threw(f) => Failure(f)
      case Returned(buckets) => Success(ToMB(TotalBytes(buckets)))
  }

  /** From API 23 on, the throwing getters and the cached calculator's query
      succeed together and then agree on the figure. */
  lemma {:induction false} ThrowingAgreesWithCalculator(device: Device, window: Window)
    requires device.sdk >= SDK_M
    ensures ThrowingWifiUsage(device, window).Success? <==> WifiUsage(device, window).Some?
    ensures ThrowingWifiUsage(device, window).Success? ==>
      ThrowingWifiUsage(device, window).value == WifiUsage(device, window).value
  {
  }

  /** The private getter over the last five minutes. */
  method GetCurrentDataUsage(device: Device, now: int) returns (r: Result<real, Failure>)
    ensures r == ThrowingWifiUsage(device, LastMinutes(now, PRIVATE_CURRENT_WINDOW_MINUTES))
  {
    r := ThrowingQuery(device, LastMinutes(now, PRIVATE_CURRENT_WINDOW_MINUTES));
  }

  /** The private getter since midnight. */
  method GetTodayDataUsage(device: Device, clock: Clock) returns (r: Result<real, Failure>)
    ensures r == ThrowingWifiUsage(device, Today(clock))
  {
    r := ThrowingQuery(device, Today(clock));
  }

  method ThrowingQuery(device: Device, window: Window) returns (r: Result<real, Failure>)
    ensures r == ThrowingWifiUsage(device, window)
  {
    if device.sdk < SDK_M {
      return Success(0.0);
    }
    if !HasUsageStatsPermission(device.usageStatsMode) {
      return Failure(SecurityException);
    }
    match device.querySummary(Wifi, window) {
      case Threw(f) =>
        r := Failure(f);
      case Returned(buckets) =>
        var totalBytes := SumBytes(buckets);
        r := Success(ToMB(totalBytes));
    }
  }

  /** The activity. `eventSinkAttached` stands for `eventSink != null`, and
      `pendingUpdates` counts the update callbacks queued on the handler. */
  class Activity {
    var eventSinkAttached: bool
    var streamRunning: bool
    var pendingUpdates: nat
    /** The delay the queued update callback was posted with. */
    var updateDelayMs: int
    /** The events pushed into the sink, oldest first. */
    var sent: seq<Payload>
    /** The intents handed to the system, oldest first. */
    var requests: seq<Intent>

    const companion: ServiceFlag
    const cache: UsageCache
    const prefs: LimitPrefs

    /** At most one update callback is ever queued, and only while the
        stream runs: the stream is a single chain. */
    predicate Valid()
      reads this
    {
      pendingUpdates <= 1 && (pendingUpdates == 1 ==> streamRunning)
    }

    constructor (companion: ServiceFlag, cache: UsageCache, prefs: LimitPrefs)
      ensures Valid()
      ensures !eventSinkAttached && !streamRunning && pendingUpdates == 0 && sent == [] && requests == []
      ensures this.companion == companion && this.cache == cache && this.prefs == prefs
    {
      eventSinkAttached := false;
      streamRunning := false;
      pendingUpdates := 0;
      updateDelayMs := FIRST_UPDATE_DELAY_MS;
      sent := [];
      requests := [];
      this.companion := companion;
      this.cache := cache;
      this.prefs := prefs;
    }

    /** `onCreate` and `onResume`: start the monitor service unless the
        companion flag says it runs. */
    method OnResume(device: Device)
      modifies this
      ensures requests == old(requests) +
        (if companion.isServiceRunning then [] else StartDataMonitorService(device))
      ensures eventSinkAttached == old(eventSinkAttached) && streamRunning == old(streamRunning)
      ensures pendingUpdates == old(pendingUpdates) && updateDelayMs == old(updateDelayMs) && sent == old(sent)
    {
      if !companion.isServiceRunning {
        requests := requests + StartDataMonitorService(device);
      }
    }

    /** `onDestroy`. */
    method OnDestroy()
      modifies this
      ensures Valid() && !streamRunning && pendingUpdates == 0
      ensures eventSinkAttached == old(eventSinkAttached) && sent == old(sent) && requests == old(requests)
    {
      StopDataStream();
    }

    /** `onListen`: attach the sink and start the stream. */
    method OnListen()
      requires Valid()
      modifies this
      ensures Valid() && eventSinkAttached && streamRunning
      ensures pendingUpdates == if old(streamRunning) then old(pendingUpdates) else 1
      ensures !old(streamRunning) ==> updateDelayMs == FIRST_UPDATE_DELAY_MS
      ensures sent == old(sent) && requests == old(requests)
    {
      eventSinkAttached := true;
      StartDataStream();
    }

    /** `onCancel`: stop the stream, then detach the sink. */
    method OnCancel()
      modifies this
      ensures Valid() && !eventSinkAttached && !streamRunning && pendingUpdates == 0
      ensures sent == old(sent) && requests == old(requests)
    {
      StopDataStream();
      eventSinkAttached := false;
    }

    /** `startDataStream`: a running stream is left alone; otherwise the
        first update is queued. */
    method StartDataStream()
      requires Valid()
      modifies this
      ensures Valid() && streamRunning
      ensures old(streamRunning) ==> unchanged(this)
      ensures !old(streamRunning) ==> pendingUpdates == 1 && updateDelayMs == FIRST_UPDATE_DELAY_MS
      ensures eventSinkAttached == old(eventSinkAttached) && sent == old(sent) && requests == old(requests)
    {
      if streamRunning {
        return;
      }
      streamRunning := true;
      pendingUpdates := pendingUpdates + 1;
      updateDelayMs := FIRST_UPDATE_DELAY_MS;
    }

    /** `stopDataStream`: clears the flag and drops the queued update. */
    method StopDataStream()
      modifies this
      ensures Valid() && !streamRunning && pendingUpdates == 0
      ensures eventSinkAttached == old(eventSinkAttached) && sent == old(sent) && requests == old(requests)
    {
      streamRunning := false;
      pendingUpdates := 0;
    }

    /** The handler runs the queued `updateRunnable`: while the stream runs
        and a sink is attached it sends an update and queues itself again;
        otherwise the chain ends. */
    method RunUpdate(device: Device, clock: Clock)
      requires Valid() && pendingUpdates == 1
      modifies this, cache
      ensures Valid()
      ensures old(eventSinkAttached) ==>
        pendingUpdates == 1 && updateDelayMs == STREAM_UPDATE_INTERVAL_MS &&
        sent == old(sent) + [Payload(cache.lastCurrentDataUsage,
          cache.lastTodayDataUsage, cache.lastTimestamp, prefs.GetDailyLimit())] &&
        cache.lastCurrentDataUsage == WifiUsage(device, CurrentWindow(clock.now)).GetOr(old(cache.lastCurrentDataUsage)) &&
        cache.lastTodayDataUsage == WifiUsage(device, Today(clock)).GetOr(old(cache.lastTodayDataUsage)) &&
        cache.lastTimestamp == (if WifiUsage(device, CurrentWindow(clock.now)).Some? || WifiUsage(device, Today(clock)).Some?
                                then clock.now else old(cache.lastTimestamp))
      ensures !old(eventSinkAttached) ==> pendingUpdates == 0 && sent == old(sent) && unchanged(cache)
      ensures streamRunning == old(streamRunning) && eventSinkAttached == old(eventSinkAttached)
      ensures requests == old(requests)
    {
      pendingUpdates := pendingUpdates - 1;
      if streamRunning && eventSinkAttached {
        SendDataUpdate(device, clock);
        pendingUpdates := pendingUpdates + 1;
        updateDelayMs := STREAM_UPDATE_INTERVAL_MS;
      }
    }

    /** `sendDataUpdate`: refresh the calculator's cache, then push its
        readings and the stored limit into the sink, if one is attached. */
    method SendDataUpdate(device: Device, clock: Clock)
      modifies this, cache
      ensures cache.lastCurrentDataUsage == WifiUsage(device, CurrentWindow(clock.now)).GetOr(old(cache.lastCurrentDataUsage))
      ensures cache.lastTodayDataUsage == WifiUsage(device, Today(clock)).GetOr(old(cache.lastTodayDataUsage))
      ensures cache.lastTimestamp == if WifiUsage(device, CurrentWindow(clock.now)).Some? || WifiUsage(device, Today(clock)).Some?
                                     then clock.now else old(cache.lastTimestamp)
      ensures sent == old(sent) + if eventSinkAttached then [Payload(cache.lastCurrentDataUsage,
        cache.lastTodayDataUsage, cache.lastTimestamp, prefs.GetDailyLimit())] else []
      ensures eventSinkAttached == old(eventSinkAttached) && streamRunning == old(streamRunning)
      ensures pendingUpdates == old(pendingUpdates) && updateDelayMs == old(updateDelayMs) && requests == old(requests)
    {
      cache.Refresh(device, clock);
      var payload := Payload(cache.lastCurrentDataUsage, cache.lastTodayDataUsage,
                             cache.lastTimestamp, prefs.GetDailyLimit());
      if eventSinkAttached {
        sent := sent + [payload];
      }
    }

    /** The "data_monitor" channel. Every calculator failure already answers
        0.0 there, so no call ends in an error reply. */
    method OnMonitorCall(call: MethodCall, device: Device, clock: Clock) returns (reply: Reply)
      modifies this, cache
      ensures call.name == "getCurrentDataUsage" ==>
        var reading := WifiUsage(device, CurrentWindow(clock.now));
        && reply == Replied(DoubleValue(reading.GetOr(0.0)))
        && requests == old(requests)
        && (reading.Some? ==> cache.lastCurrentDataUsage == reading.value && cache.lastTimestamp == clock.now
                              && cache.lastTodayDataUsage == old(cache.lastTodayDataUsage))
        && (reading.None? ==> unchanged(cache))
      ensures call.name == "getTodayDataUsage" ==>
        var reading := WifiUsage(device, Today(clock));
        && reply == Replied(DoubleValue(reading.GetOr(0.0)))
        && requests == old(requests)
        && (reading.Some? ==> cache.lastTodayDataUsage == reading.value && cache.lastTimestamp == clock.now
                              && cache.lastCurrentDataUsage == old(cache.lastCurrentDataUsage))
        && (reading.None? ==> unchanged(cache))
      ensures call.name == "startMonitoring" ==>
        reply == Replied(BoolValue(true)) && requests == old(requests) + StartDataMonitorService(device)
        && unchanged(cache)
      ensures call.name == "stopMonitoring" ==>
        reply == Replied(BoolValue(true)) && requests == old(requests) + [StopService]
        && unchanged(cache)
      ensures call.name == "isMonitoringActive" ==>
        reply == Replied(BoolValue(companion.isServiceRunning)) && unchanged(this) && unchanged(cache)
      ensures call.name !in {"getCurrentDataUsage", "getTodayDataUsage", "startMonitoring", "stopMonitoring", "isMonitoringActive"} ==>
        reply == NotImplemented && unchanged(this) && unchanged(cache)
      ensures !reply.Error?
      ensures eventSinkAttached == old(eventSinkAttached) && streamRunning == old(streamRunning)
      ensures pendingUpdates == old(pendingUpdates) && updateDelayMs == old(updateDelayMs) && sent == old(sent)
    {
      match call.name {
        case "getCurrentDataUsage" =>
          var mb := cache.GetCurrentDataUsage(device, clock.now);
          reply := Replied(DoubleValue(mb));
        case "getTodayDataUsage" =>
          var mb := cache.GetTodayDataUsage(device, clock);
          reply := Replied(DoubleValue(mb));
        case "startMonitoring" =>
          requests := requests + StartDataMonitorService(device);
          reply := Replied(BoolValue(true));
        case "stopMonitoring" =>
          requests := requests + [StopService];
          reply := Replied(BoolValue(true));
        case "isMonitoringActive" =>
          reply := Replied(BoolValue(companion.isServiceRunning));
        case _ =>
          reply := NotImplemented;
      }
    }

    /** The activity's own "data_limit" channel: the same store and argument
        defaults as the limit channel, but with no `isLimitAlertEnabled`. */
    method OnLimitCall(call: MethodCall) returns (reply: Reply)
      modifies prefs
      ensures call.name == "setDailyLimit" ==>
        reply == Replied(BoolValue(true)) && prefs.dailyLimit == Some(LimitArgument(call))
        && prefs.alertEnabled == old(prefs.alertEnabled)
      ensures call.name == "getDailyLimit" ==>
        reply == Replied(DoubleValue(prefs.GetDailyLimit())) && unchanged(prefs)
      ensures call.name == "setLimitAlertEnabled" ==>
        reply == Replied(BoolValue(true)) && prefs.alertEnabled == Some(EnabledArgument(call))
        && prefs.dailyLimit == old(prefs.dailyLimit)
      ensures call.name !in {"setDailyLimit", "getDailyLimit", "setLimitAlertEnabled"} ==>
        reply == NotImplemented && unchanged(prefs)
    {
      match call.name {
        case "setDailyLimit" =>
          prefs.SetDailyLimit(LimitArgument(call));
          reply := Replied(BoolValue(true));
        case "getDailyLimit" =>
          reply := Replied(DoubleValue(prefs.GetDailyLimit()));
        case "setLimitAlertEnabled" =>
          prefs.SetLimitAlertEnabled(EnabledArgument(call));
          reply := Replied(BoolValue(true));
        case _ =>
          reply := NotImplemented;
      }
    }
  }
}
