/** `DataUsageCalculator`: the process-wide object that polls Wi-Fi usage for
    "the last 3 hours" and "today" and keeps the last successful readings. */
module DataUsageCalculator {
  import opened Wrappers
  import opened Buckets
  import opened Platform

  /** The span of the "current" window, in hours. */
  const CURRENT_WINDOW_HOURS: int := 3

  /** `hasUsageStatsPermission`: the AppOps mode is MODE_ALLOWED; a check that
      throws denies. */
  predicate HasUsageStatsPermission(mode: OpMode): (granted: bool)
    ensures granted <==> mode == Mode(MODE_ALLOWED)
  {
    match mode
    case Mode(m) => m == MODE_ALLOWED
    case CheckThrew => false
  }

  /** The guards every getter passes before it queries: permission first,
      then API level M. */
  predicate MayQuery(device: Device) {
    HasUsageStatsPermission(device.usageStatsMode) && device.sdk >= SDK_M
  }

  /** What one Wi-Fi getter reads: the megabytes of the window when the guards
      pass and the query returns, nothing on every other path (those answer
      0.0 and leave the cache alone). */
  function WifiUsage(device: Device, window: Window): Option<real> {
    if !MayQuery(device) then None
    else
      match device.querySummary(Wifi, window)
      case Threw(_) => None
      case Returned(buckets) => Some(ToMB(TotalBytes(buckets)))
  }

  /** A reading is never negative when the counters are not, and is absent
      without permission. */
  lemma WifiUsageSound(device: Device, window: Window)
    ensures !HasUsageStatsPermission(device.usageStatsMode) ==> WifiUsage(device, window) == None
    ensures (device.querySummary(Wifi, window).Returned? && NonNegative(device.querySummary(Wifi, window).buckets)
             && WifiUsage(device, window).Some?) ==> WifiUsage(device, window).value >= 0.0
  {
    var q := device.querySummary(Wifi, window);
    if q.Returned? && NonNegative(q.buckets) {
      TotalBytesNonNegative(q.buckets);
    }
  }

  /** The shared body of both getters: guards, query, byte-sum loop. */
  method QueryWifiUsage(device: Device, window: Window) returns (usage: Option<real>)
    ensures usage == WifiUsage(device, window)
  {
    if !HasUsageStatsPermission(device.usageStatsMode) || device.sdk < SDK_M {
      return None;
    }
    match device.querySummary(Wifi, window) {
      case Threw(_) =>
        usage := None;
      case Returned(buckets) =>
        var totalBytes := SumBytes(buckets);
        usage := Some(ToMB(totalBytes));
    }
  }

  /** The "current" window: the last three hours up to the clock. */
  function CurrentWindow(now: int): Window {
    LastHours(now, CURRENT_WINDOW_HOURS)
  }

  /** The singleton's cache of its last successful readings. */
  class UsageCache {
    var lastCurrentDataUsage: real
    var lastTodayDataUsage: real
    var lastTimestamp: int

    /** Initialised when the object is first touched, with the clock's time. */
    constructor (now: int)
      ensures lastCurrentDataUsage == 0.0 && lastTodayDataUsage == 0.0 && lastTimestamp == now
    {
      lastCurrentDataUsage := 0.0;
      lastTodayDataUsage := 0.0;
      lastTimestamp := now;
    }

    /** `getCurrentDataUsage`: Wi-Fi megabytes of the last three hours. A
        success caches the value and the time; every failure answers 0.0 and
        changes nothing. */
    method GetCurrentDataUsage(device: Device, now: int) returns (mb: real)
      modifies this
      ensures var reading := WifiUsage(device, CurrentWindow(now));
        && mb == reading.GetOr(0.0)
        && (reading.Some? ==> lastCurrentDataUsage == mb && lastTimestamp == now
                              && lastTodayDataUsage == old(lastTodayDataUsage))
        && (reading.None? ==> unchanged(this))
    {
      var reading := QueryWifiUsage(device, CurrentWindow(now));
      match reading {
        case None =>
          mb := 0.0;
        case Some(result) =>
          lastCurrentDataUsage := result;
          lastTimestamp := now;
          mb := result;
      }
    }

    /** `getTodayDataUsage`: Wi-Fi megabytes since midnight. A success caches
        the value and the time and leaves the "current" reading alone; every
        failure answers 0.0 and changes nothing. */
    method GetTodayDataUsage(device: Device, clock: Clock) returns (mb: real)
      modifies this
      ensures var reading := WifiUsage(device, Today(clock));
        && mb == reading.GetOr(0.0)
        && (reading.Some? ==> lastTodayDataUsage == mb && lastTimestamp == clock.now
                              && lastCurrentDataUsage == old(lastCurrentDataUsage))
        && (reading.None? ==> unchanged(this))
    {
      var reading := QueryWifiUsage(device, Today(clock));
      match reading {
        case None =>
          mb := 0.0;
        case Some(result) =>
          lastTodayDataUsage := result;
          lastTimestamp := clock.now;
          mb := result;
      }
    }

    /** `updateData` in the monitor service and the first half of
        `sendDataUpdate` in the activity: both getters, current then today. */
    method Refresh(device: Device, clock: Clock)
      modifies this
      ensures lastCurrentDataUsage == WifiUsage(device, CurrentWindow(clock.now)).GetOr(old(lastCurrentDataUsage))
      ensures lastTodayDataUsage == WifiUsage(device, Today(clock)).GetOr(old(lastTodayDataUsage))
      ensures lastTimestamp == if WifiUsage(device, CurrentWindow(clock.now)).Some? || WifiUsage(device, Today(clock)).Some?
                               then clock.now else old(lastTimestamp)
    {
      var _ := GetCurrentDataUsage(device, clock.now);
      var _ := GetTodayDataUsage(device, clock);
    }
  }
}
